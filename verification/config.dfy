/** The mapping configuration shared by the transformer and the validator.
    `column_mappings` keeps its key order (it is a Python dict, and the
    order shows in warning lists), so it is an association list; the other
    lookups are maps. Every part is present: the validator reads a key the
    JSON file leaves out as empty (`.get` with a default), and the
    transformer's failure on such a file is not modelled. An output field
    appears at most once among the keys of `column_mappings` in any
    configuration Python can hold; the list type does not enforce it, and
    nothing is claimed about lists that repeat one. */
module Configuration {
  import opened Basics

  /** The optional `validation_rules` part. An absent length limit is `None`. */
  datatype ValidationRules = ValidationRules(
    allowedPriorities: seq<string>,
    maxSummaryLength: Option<int>,
    maxDescriptionLength: Option<int>,
    requiredIssueTypes: seq<string>)

  datatype Config = Config(
    columnMappings: seq<(string, string)>,  // output field -> input column
    staticValues: map<string, string>,      // output field -> literal
    transformations: map<string, string>,   // output field -> transformation name
    requiredFields: seq<string>,
    jiraFields: seq<string>,                // the ordered output schema
    rules: ValidationRules)

  const NoRules := ValidationRules([], None, None, [])

  const DefaultSummaryLength := 255
  const DefaultDescriptionLength := 32767

  /** The built-in configuration used when no file is given or it cannot be read. */
  const DefaultConfig := Config(
    [("Summary", "Title"), ("Issue Type", "Test"), ("Priority", "Priority"),
     ("Component", "Section"), ("Description", "Preconditions")],
    map["Issue Type" := "Test", "Project Key" := "PROJ"],
    map["Priority" := "priority_mapping", "Component" := "extract_component"],
    ["Summary", "Issue Type"],
    ["Summary", "Issue Type", "Priority", "Component", "Description", "Project Key", "Labels"],
    NoRules)

  /** `column_mappings.get(field)` */
  function MappingFor(pairs: seq<(string, string)>, field: string): Option<string> {
    if pairs == [] then None
    else if pairs[0].0 == field then Some(pairs[0].1)
    else MappingFor(pairs[1..], field)
  }

  /** The lookup finds the first pair for `field`, and finds one exactly
      when there is one. */
  lemma {:induction false} MappingForFinds(pairs: seq<(string, string)>, field: string)
    ensures MappingFor(pairs, field).Some? <==> exists k :: 0 <= k < |pairs| && pairs[k].0 == field
    ensures MappingFor(pairs, field).Some? ==>
              exists k :: 0 <= k < |pairs| && pairs[k] == (field, MappingFor(pairs, field).value)
                && forall j :: 0 <= j < k ==> pairs[j].0 != field
    decreases |pairs|
  {
    if pairs != [] && pairs[0].0 != field {
      MappingForFinds(pairs[1..], field);
      assert forall k :: 0 < k < |pairs| ==> pairs[k] == pairs[1..][k - 1];
      if MappingFor(pairs, field).Some? {
        var k :| 0 <= k < |pairs[1..]| && pairs[1..][k] == (field, MappingFor(pairs, field).value)
                 && forall j :: 0 <= j < k ==> pairs[1..][j].0 != field;
        assert pairs[k + 1] == (field, MappingFor(pairs, field).value);
        assert forall j :: 0 <= j < k + 1 ==> pairs[j].0 != field;
      }
    }
  }

  /** `list(column_mappings.values())` */
  function MappedSources(pairs: seq<(string, string)>): (r: seq<string>)
    ensures |r| == |pairs| && forall k :: 0 <= k < |pairs| ==> r[k] == pairs[k].1
  {
    seq(|pairs|, k requires 0 <= k < |pairs| => pairs[k].1)
  }

  /** Mapped source columns missing from `names`, in mapping order. */
  function MissingSources(pairs: seq<(string, string)>, names: seq<string>): seq<string> {
    Filter(MappedSources(pairs), c => c !in names)
  }

  /** A source column is reported missing exactly when some pair maps to it
      and `names` lacks it. */
  lemma MissingSourcesExact(pairs: seq<(string, string)>, names: seq<string>)
    ensures forall c :: c in MissingSources(pairs, names) <==>
                          c !in names && exists k :: 0 <= k < |pairs| && pairs[k].1 == c
  {
    FilterMembers(MappedSources(pairs), c => c !in names);
  }
}
