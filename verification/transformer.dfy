/** The projection engine (`CSVTransformer`): it checks the input table,
    builds the output table one schema field at a time from static values,
    mapped source columns and named transformations, checks the required
    output fields, and reports counts, errors and warnings. Reading and
    writing CSV files, logging and the preview printout are outside the
    model; the input arrives as a table and the output is returned. */
module Transformer {
  import opened Basics
  import opened Text
  import opened Frames
  import opened Configuration
  import opened Diagnostics
  import opened Transformations

  // ------------------------------------------------------ specification

  /** The cells the projection puts under output field `f`: the static
      value when there is one; otherwise the mapped source column, passed
      through the field's transformation when one is configured; empty
      strings when the source column is absent or the field is not
      configured at all. */
  function FieldColumn(cfg: Config, df: Frame, f: string): (r: Result<seq<Value>, Failure>)
    ensures r.Ok? ==> |r.value| == df.rowCount
  {
    if f in cfg.staticValues then Ok(Constant(Str(cfg.staticValues[f]), df.rowCount))
    else match MappingFor(cfg.columnMappings, f)
      case None => Ok(Constant(Str(""), df.rowCount))
      case Some(src) =>
        if src !in df.names then Ok(Constant(Str(""), df.rowCount))
        else if f !in cfg.transformations then Ok(Column(df, src))
        else match ParseTransformation(cfg.transformations[f])
          case None => Err(UnknownTransformation(cfg.transformations[f]))
          case Some(t) => MapColumn(t, Column(df, src))
  }

  /** The warning one schema slot for `f` adds: only a mapped, non-static
      field whose source column is absent adds one. */
  function FieldWarning(cfg: Config, df: Frame, f: string): seq<Diagnostic> {
    if f in cfg.staticValues then []
    else match MappingFor(cfg.columnMappings, f)
      case None => []
      case Some(src) => if src !in df.names then [SourceColumnNotFound(src, f)] else []
  }

  /** The warnings of a run over the schema slots `fields`, in order. */
  function SlotWarnings(cfg: Config, df: Frame, fields: seq<string>): seq<Diagnostic> {
    if fields == [] then []
    else SlotWarnings(cfg, df, fields[..|fields| - 1]) + FieldWarning(cfg, df, fields[|fields| - 1])
  }

  /** The warning the input check adds for one (output field, source column) pair. */
  function EmptySourceWarning(cfg: Config, df: Frame, pair: (string, string)): seq<Diagnostic> {
    if pair.0 in cfg.requiredFields && pair.1 in df.names && CountMissing(Column(df, pair.1)) > 0
    then [EmptySourceValues(CountMissing(Column(df, pair.1)), pair.1)]
    else []
  }

  function EmptySourceWarnings(cfg: Config, df: Frame, pairs: seq<(string, string)>): seq<Diagnostic> {
    if pairs == [] then []
    else EmptySourceWarnings(cfg, df, pairs[..|pairs| - 1]) + EmptySourceWarning(cfg, df, pairs[|pairs| - 1])
  }

  /** Everything the input check of a non-empty table warns about. */
  function InputWarnings(cfg: Config, df: Frame): seq<Diagnostic> {
    var missing := MissingSources(cfg.columnMappings, df.names);
    (if missing != [] then [MissingExpectedColumns(missing)] else [])
      + EmptySourceWarnings(cfg, df, cfg.columnMappings)
  }

  /** The error the output check adds for one required field. */
  function RequiredFieldError(df: Frame, f: string): seq<Diagnostic> {
    if f in df.names && CountMissingOrBlank(Column(df, f)) > 0
    then [RowsMissingRequired(CountMissingOrBlank(Column(df, f)), f)]
    else []
  }

  function RequiredFieldErrors(required: seq<string>, df: Frame): seq<Diagnostic> {
    if required == [] then []
    else RequiredFieldErrors(required[..|required| - 1], df) + RequiredFieldError(df, required[|required| - 1])
  }

  // ------------------------------------------------- properties of the spec

  /** A static value beats a mapping of the same field, and adds no warning. */
  lemma StaticValueWins(cfg: Config, df: Frame, f: string)
    requires f in cfg.staticValues
    ensures FieldColumn(cfg, df, f) == Ok(Constant(Str(cfg.staticValues[f]), df.rowCount))
    ensures FieldWarning(cfg, df, f) == []
  {
  }

  /** With the default configuration "Issue Type" is mapped and static, and is
      "Test" in every row whatever the input holds. */
  lemma DefaultIssueTypeIsTest(df: Frame)
    ensures MappingFor(DefaultConfig.columnMappings, "Issue Type") == Some("Test")
    ensures FieldColumn(DefaultConfig, df, "Issue Type") == Ok(Constant(Str("Test"), df.rowCount))
  {
    assert DefaultConfig.columnMappings[0].0 != "Issue Type";
    assert DefaultConfig.columnMappings[1] == ("Issue Type", "Test");
  }

  /** A mapped field whose source column is absent is empty in every row and
      its slot warns once, naming the source column and the field. */
  lemma AbsentSourceIsBlank(cfg: Config, df: Frame, f: string, src: string)
    requires f !in cfg.staticValues && MappingFor(cfg.columnMappings, f) == Some(src)
    requires src !in df.names
    ensures FieldColumn(cfg, df, f) == Ok(Constant(Str(""), df.rowCount))
    ensures FieldWarning(cfg, df, f) == [SourceColumnNotFound(src, f)]
  {
  }

  /** A field that is neither static nor mapped is empty in every row. */
  lemma UnconfiguredIsBlank(cfg: Config, df: Frame, f: string)
    requires f !in cfg.staticValues && MappingFor(cfg.columnMappings, f).None?
    ensures FieldColumn(cfg, df, f) == Ok(Constant(Str(""), df.rowCount))
    ensures FieldWarning(cfg, df, f) == []
  {
  }

  /** "Labels" is configured nowhere in the default configuration. */
  lemma DefaultLabelsAreBlank(df: Frame)
    ensures FieldColumn(DefaultConfig, df, "Labels") == Ok(Constant(Str(""), df.rowCount))
  {
    var m := DefaultConfig.columnMappings;
    assert forall k :: 0 <= k < |m| ==> m[k].0 != "Labels";
  }

  /** The absent-source warning for `f` appears once per schema slot named `f`. */
  lemma {:induction false} SourceWarningPerSlot(cfg: Config, df: Frame, fields: seq<string>, f: string, src: string)
    requires f !in cfg.staticValues && MappingFor(cfg.columnMappings, f) == Some(src)
    requires src !in df.names
    ensures Occurrences(SlotWarnings(cfg, df, fields), SourceColumnNotFound(src, f)) == Occurrences(fields, f)
    decreases |fields|
  {
    if fields != [] {
      var init, last := fields[..|fields| - 1], fields[|fields| - 1];
      SourceWarningPerSlot(cfg, df, init, f, src);
      OccurrencesAppend(SlotWarnings(cfg, df, init), FieldWarning(cfg, df, last), SourceColumnNotFound(src, f));
    }
  }

  /** In a schema without repeated names, a field whose source column is
      absent gets exactly one warning. */
  lemma SourceWarningOnce(cfg: Config, df: Frame, f: string, src: string)
    requires Distinct(cfg.jiraFields) && f in cfg.jiraFields
    requires f !in cfg.staticValues && MappingFor(cfg.columnMappings, f) == Some(src)
    requires src !in df.names
    ensures Occurrences(SlotWarnings(cfg, df, cfg.jiraFields), SourceColumnNotFound(src, f)) == 1
  {
    SourceWarningPerSlot(cfg, df, cfg.jiraFields, f, src);
    DistinctOccursOnce(cfg.jiraFields, f);
  }

  /** Every output-check error names a required field present in the table
      and carries that column's number of missing-or-"" cells, which is
      positive. */
  lemma {:induction false} RequiredErrorsCarryCounts(required: seq<string>, df: Frame)
    ensures forall e :: e in RequiredFieldErrors(required, df) ==>
              && e.RowsMissingRequired?
              && e.field in required && e.field in df.names
              && e.count == CountMissingOrBlank(Column(df, e.field)) > 0
    decreases |required|
  {
    if required != [] {
      var init := required[..|required| - 1];
      RequiredErrorsCarryCounts(init, df);
      assert forall x :: x in init ==> x in required;
    }
  }

  /** A present required field with k > 0 missing-or-"" cells yields one
      error carrying k for each time it is listed as required. */
  lemma {:induction false} RequiredErrorPerListing(required: seq<string>, df: Frame, f: string)
    requires f in df.names && CountMissingOrBlank(Column(df, f)) > 0
    ensures Occurrences(RequiredFieldErrors(required, df), RowsMissingRequired(CountMissingOrBlank(Column(df, f)), f))
            == Occurrences(required, f)
    decreases |required|
  {
    if required != [] {
      var init, last := required[..|required| - 1], required[|required| - 1];
      RequiredErrorPerListing(init, df, f);
      OccurrencesAppend(RequiredFieldErrors(init, df), RequiredFieldError(df, last),
                        RowsMissingRequired(CountMissingOrBlank(Column(df, f)), f));
    }
  }

  /** The default output schema has no repeated names, so the projection's
      columns are exactly the schema, in order. */
  lemma DefaultSchemaIsOutputColumns()
    ensures Dedup(DefaultConfig.jiraFields) == DefaultConfig.jiraFields
  {
    var s := DefaultConfig.jiraFields;
    assert Distinct(s);
    DedupOfDistinct(s);
  }

  /** `result_df[f] = c`: replaces the first column named `f`, or appends
      `f` as a new last column. */
  function Assign(names: seq<string>, cols: seq<seq<Value>>, f: string, c: seq<Value>)
    : (r: (seq<string>, seq<seq<Value>>))
    requires |names| == |cols|
    ensures |r.1| == |r.0|
    ensures r.0 == if f in names then names else names + [f]
    ensures f in r.0 && r.1[ColumnIndex(r.0, f).value] == c
    ensures forall j :: 0 <= j < |names| && names[j] != f ==> r.1[j] == cols[j]
    ensures forall j :: 0 <= j < |r.1| ==> r.1[j] == c || (j < |cols| && r.1[j] == cols[j])
  {
    match ColumnIndex(names, f)
    case Some(k) => (names, cols[k := c])
    case None =>
      assert ColumnIndex(names + [f], f) == Some(|names|);
      (names + [f], cols + [c])
  }

  /** What the projection loop builds from the schema slots `fields`: the
      output column names and their columns, or the failure of the first
      field whose column cannot be computed; and the warnings of the slots it
      went through. Assigning a name that is already a column replaces that
      column in place. */
  datatype Projection = Projection(outcome: Result<(seq<string>, seq<seq<Value>>), Failure>,
                                   warnings: seq<Diagnostic>)

  function Project(cfg: Config, df: Frame, fields: seq<string>): (p: Projection)
    ensures p.outcome.Ok? ==> |p.outcome.value.1| == |p.outcome.value.0|
    decreases |fields|
  {
    if fields == [] then Projection(Ok(([], [])), [])
    else
      var prev := Project(cfg, df, fields[..|fields| - 1]);
      var f := fields[|fields| - 1];
      if prev.outcome.Err? then prev
      else
        var w := prev.warnings + FieldWarning(cfg, df, f);
        match FieldColumn(cfg, df, f)
        case Err(e) => Projection(Err(e), w)
        case Ok(c) => Projection(Ok(Assign(prev.outcome.value.0, prev.outcome.value.1, f, c)), w)
  }

  /** One more schema slot: the field's column is assigned, or its failure
      ends the projection; either way the slot's warning is added. */
  lemma ProjectStep(cfg: Config, df: Frame, fields: seq<string>, i: nat)
    requires i < |fields| && Project(cfg, df, fields[..i]).outcome.Ok?
    ensures var prev := Project(cfg, df, fields[..i]);
            var next := Project(cfg, df, fields[..i + 1]);
              && next.warnings == prev.warnings + FieldWarning(cfg, df, fields[i])
              && (FieldColumn(cfg, df, fields[i]).Err? ==> next.outcome == Err(FieldColumn(cfg, df, fields[i]).error))
              && (FieldColumn(cfg, df, fields[i]).Ok? ==>
                    next.outcome == Ok(Assign(prev.outcome.value.0, prev.outcome.value.1, fields[i],
                                              FieldColumn(cfg, df, fields[i]).value)))
  {
    assert fields[..i + 1][..i] == fields[..i];
  }

  /** A successful projection has one column per distinct schema name, in
      order of first appearance, and each column is `FieldColumn` of its name. */
  lemma {:induction false} ProjectShape(cfg: Config, df: Frame, fields: seq<string>)
    ensures Project(cfg, df, fields).outcome.Ok? ==>
              && Project(cfg, df, fields).outcome.value.0 == Dedup(fields)
              && forall j :: 0 <= j < |Project(cfg, df, fields).outcome.value.0| ==>
                   FieldColumn(cfg, df, Project(cfg, df, fields).outcome.value.0[j])
                     == Ok(Project(cfg, df, fields).outcome.value.1[j])
    decreases |fields|
  {
    if fields != [] {
      var n := |fields| - 1;
      var f := fields[n];
      ProjectShape(cfg, df, fields[..n]);
      assert fields[..n + 1] == fields;
      var prev := Project(cfg, df, fields[..n]);
      if prev.outcome.Ok? && FieldColumn(cfg, df, f).Ok? {
        ProjectStep(cfg, df, fields, n);
        var r := Assign(prev.outcome.value.0, prev.outcome.value.1, f, FieldColumn(cfg, df, f).value);
        DedupMembers(fields);
        forall j | 0 <= j < |r.0|
          ensures FieldColumn(cfg, df, r.0[j]) == Ok(r.1[j])
        {
          if r.0[j] == f {
            assert ColumnIndex(r.0, f).value == j;
          }
        }
      }
    }
  }

  /** Every one of the schema slots `fields` has a column. */
  predicate AllHaveColumns(cfg: Config, df: Frame, fields: seq<string>)
    decreases |fields|
  {
    fields == [] || (AllHaveColumns(cfg, df, fields[..|fields| - 1]) && FieldColumn(cfg, df, fields[|fields| - 1]).Ok?)
  }

  /** `AllHaveColumns` holds exactly when each slot has a column. */
  lemma {:induction false} AllHaveColumnsIff(cfg: Config, df: Frame, fields: seq<string>)
    ensures AllHaveColumns(cfg, df, fields) <==> forall k :: 0 <= k < |fields| ==> FieldColumn(cfg, df, fields[k]).Ok?
    decreases |fields|
  {
    if fields != [] {
      var n := |fields| - 1;
      AllHaveColumnsIff(cfg, df, fields[..n]);
      assert forall k :: 0 <= k < n ==> fields[..n][k] == fields[k];
    }
  }

  /** The projection succeeds exactly when every slot has a column, and
      then its warnings are the slots' warnings. */
  lemma {:induction false} ProjectOk(cfg: Config, df: Frame, fields: seq<string>)
    ensures Project(cfg, df, fields).outcome.Ok? <==> AllHaveColumns(cfg, df, fields)
    ensures Project(cfg, df, fields).outcome.Ok? ==>
              Project(cfg, df, fields).warnings == SlotWarnings(cfg, df, fields)
    decreases |fields|
  {
    if fields != [] {
      ProjectOk(cfg, df, fields[..|fields| - 1]);
    }
  }

  /** The projection succeeds exactly when every schema field has a column,
      and then it has warned once for each slot that warns. */
  lemma ProjectSucceeds(cfg: Config, df: Frame, fields: seq<string>)
    ensures Project(cfg, df, fields).outcome.Ok? <==>
              forall k :: 0 <= k < |fields| ==> FieldColumn(cfg, df, fields[k]).Ok?
    ensures Project(cfg, df, fields).outcome.Ok? ==>
              Project(cfg, df, fields).warnings == SlotWarnings(cfg, df, fields)
  {
    ProjectOk(cfg, df, fields);
    AllHaveColumnsIff(cfg, df, fields);
  }

  /** A field whose column cannot be computed never warns. */
  lemma FailingFieldIsSilent(cfg: Config, df: Frame, f: string)
    requires FieldColumn(cfg, df, f).Err?
    ensures FieldWarning(cfg, df, f) == []
  {
  }

  /** When field `i` is the first without a column, the projection fails
      with that field's failure, keeping the warnings of the slots before it. */
  lemma ProjectFailsAt(cfg: Config, df: Frame, fields: seq<string>, i: nat)
    requires i < |fields| && FieldColumn(cfg, df, fields[i]).Err?
    requires forall k :: 0 <= k < i ==> FieldColumn(cfg, df, fields[k]).Ok?
    ensures Project(cfg, df, fields)
            == Projection(Err(FieldColumn(cfg, df, fields[i]).error), SlotWarnings(cfg, df, fields[..i]))
  {
    var before := fields[..i];
    assert forall k :: 0 <= k < i ==> before[k] == fields[k];
    ProjectSucceeds(cfg, df, before);
    FailingFieldIsSilent(cfg, df, fields[i]);
    assert fields[..i + 1][..i] == before;
    ProjectStops(cfg, df, fields, i + 1);
  }

  /** Once a prefix of the schema fails, the rest of it is never looked at. */
  lemma {:induction false} ProjectStops(cfg: Config, df: Frame, fields: seq<string>, n: nat)
    requires n <= |fields| && Project(cfg, df, fields[..n]).outcome.Err?
    ensures Project(cfg, df, fields) == Project(cfg, df, fields[..n])
    decreases |fields| - n
  {
    if n < |fields| {
      var init := fields[..|fields| - 1];
      assert init[..n] == fields[..n];
      ProjectStops(cfg, df, init, n);
    } else {
      assert fields[..n] == fields;
    }
  }

  // ------------------------------------------------------------ the engine

  /** The summary `transform` returns. On failure no output is produced. */
  datatype TransformResult =
    | Succeeded(originalRows: nat, transformedRows: nat, output: Frame,
                errors: seq<Diagnostic>, warnings: seq<Diagnostic>, outputFile: Option<string>)
    | Failed(error: Failure, errors: seq<Diagnostic>, warnings: seq<Diagnostic>)

  /** What one `transform` call returns: the empty-input failure; or the
      input warnings followed by the projection's, with either the
      projection's failure or the projected table and the output check's
      errors. The output file is named only when the call is not a preview. */
  function TransformOutcome(cfg: Config, input: Frame, outputFile: string, preview: bool): TransformResult {
    if IsEmpty(input) then Failed(EmptyInput, [], [])
    else
      var p := Project(cfg, input, cfg.jiraFields);
      var w := InputWarnings(cfg, input) + p.warnings;
      match p.outcome
      case Err(e) => Failed(e, [], w)
      case Ok((names, cols)) =>
        ProjectShape(cfg, input, cfg.jiraFields);
        var output: Frame := Table(names, cols, input.rowCount);
        Succeeded(input.rowCount, input.rowCount, output,
                  RequiredFieldErrors(cfg.requiredFields, output), w,
                  if preview then None else Some(outputFile))
  }

  /** An empty input fails before anything is warned about. */
  lemma EmptyInputFails(cfg: Config, input: Frame, outputFile: string, preview: bool)
    requires IsEmpty(input)
    ensures TransformOutcome(cfg, input, outputFile, preview) == Failed(EmptyInput, [], [])
  {
  }

  /** A non-empty input succeeds exactly when every schema field has a
      column; the output then has one column per distinct schema name, each
      the field's column, as many rows as the input, the input warnings
      followed by one per warning slot, and the output check's errors. */
  lemma TransformSucceeds(cfg: Config, input: Frame, outputFile: string, preview: bool)
    requires !IsEmpty(input)
    ensures var r := TransformOutcome(cfg, input, outputFile, preview);
              && (r.Succeeded? <==> forall k :: 0 <= k < |cfg.jiraFields| ==> FieldColumn(cfg, input, cfg.jiraFields[k]).Ok?)
              && (r.Succeeded? ==>
                    && r.output.names == Dedup(cfg.jiraFields)
                    && (forall j :: 0 <= j < |r.output.names| ==>
                          FieldColumn(cfg, input, r.output.names[j]) == Ok(r.output.columns[j]))
                    && r.originalRows == r.transformedRows == r.output.rowCount == input.rowCount
                    && r.warnings == InputWarnings(cfg, input) + SlotWarnings(cfg, input, cfg.jiraFields)
                    && r.errors == RequiredFieldErrors(cfg.requiredFields, r.output)
                    && (r.outputFile.Some? <==> !preview))
  {
    ProjectSucceeds(cfg, input, cfg.jiraFields);
    ProjectShape(cfg, input, cfg.jiraFields);
  }

  /** A non-empty input whose schema field `i` is the first without a
      column fails with that field's failure, no errors, and the input
      warnings followed by those of the slots before `i`. */
  lemma TransformFails(cfg: Config, input: Frame, outputFile: string, preview: bool, i: nat)
    requires !IsEmpty(input)
    requires i < |cfg.jiraFields| && FieldColumn(cfg, input, cfg.jiraFields[i]).Err?
    requires forall k :: 0 <= k < i ==> FieldColumn(cfg, input, cfg.jiraFields[k]).Ok?
    ensures TransformOutcome(cfg, input, outputFile, preview)
            == Failed(FieldColumn(cfg, input, cfg.jiraFields[i]).error, [],
                      InputWarnings(cfg, input) + SlotWarnings(cfg, input, cfg.jiraFields[..i]))
  {
    ProjectFailsAt(cfg, input, cfg.jiraFields, i);
  }

  class CSVTransformer {
    const config: Config
    var errors: seq<Diagnostic>
    var warnings: seq<Diagnostic>

    /** `fromFile` is the configuration read from the JSON file; `None` when
        no file was given, it does not exist or it could not be parsed. */
    constructor (fromFile: Option<Config>)
      ensures config == if fromFile.Some? then fromFile.value else DefaultConfig
      ensures errors == [] && warnings == []
    {
      config := if fromFile.Some? then fromFile.value else DefaultConfig;
      errors := [];
      warnings := [];
    }

    /** `_validate_input`: `false` (the ValueError) for an empty table;
        otherwise warns about absent mapped sources and about missing
        cells in the sources of required fields. */
    method ValidateInput(df: Frame) returns (ok: bool)
      modifies this`warnings
      ensures ok == !IsEmpty(df)
      ensures ok ==> warnings == old(warnings) + InputWarnings(config, df)
      ensures !ok ==> warnings == old(warnings)
    {
      if IsEmpty(df) {
        return false;
      }
      WarnMissingSources(df);
      ghost var first := warnings;
      WarnEmptySources(df);
      AppendAssoc(old(warnings), first[|old(warnings)|..], EmptySourceWarnings(config, df, config.columnMappings));
      ok := true;
    }

    /** The first input warning: the mapped source columns the table lacks. */
    method WarnMissingSources(df: Frame)
      modifies this`warnings
      ensures var missing := MissingSources(config.columnMappings, df.names);
                warnings == old(warnings) + if missing != [] then [MissingExpectedColumns(missing)] else []
    {
      var missing := MissingSources(config.columnMappings, df.names);
      if missing != [] {
        warnings := warnings + [MissingExpectedColumns(missing)];
      }
    }

    /** The remaining input warnings: one per required field whose source
        column is present and has missing cells. */
    method WarnEmptySources(df: Frame)
      modifies this`warnings
      ensures warnings == old(warnings) + EmptySourceWarnings(config, df, config.columnMappings)
    {
      var pairs := config.columnMappings;
      var i := 0;
      while i < |pairs|
        invariant 0 <= i <= |pairs|
        invariant warnings == old(warnings) + EmptySourceWarnings(config, df, pairs[..i])
      {
        assert pairs[..i + 1][..i] == pairs[..i];
        AppendAssoc(old(warnings), EmptySourceWarnings(config, df, pairs[..i]), EmptySourceWarning(config, df, pairs[i]));
        var (jiraField, sourceField) := pairs[i];
        if jiraField in config.requiredFields && sourceField in df.names {
          var emptyCount := CountMissing(Column(df, sourceField));
          if emptyCount > 0 {
            warnings := warnings + [EmptySourceValues(emptyCount, sourceField)];
          }
        }
        i := i + 1;
      }
      assert pairs[..i] == pairs;
    }

    /** One pass of the `_apply_transformations` loop: the column for
        schema field `f`, and the warning its slot adds. */
    method BuildColumn(df: Frame, f: string) returns (res: Result<seq<Value>, Failure>)
      modifies this`warnings
      ensures res == FieldColumn(config, df, f)
      ensures warnings == old(warnings) + FieldWarning(config, df, f)
    {
      if f in config.staticValues {
        return Ok(Constant(Str(config.staticValues[f]), df.rowCount));
      }
      var source := MappingFor(config.columnMappings, f);
      if source.None? {
        return Ok(Constant(Str(""), df.rowCount));
      }
      if source.value !in df.names {
        warnings := warnings + [SourceColumnNotFound(source.value, f)];
        return Ok(Constant(Str(""), df.rowCount));
      }
      var column := Column(df, source.value);
      if f in config.transformations {
        var name := config.transformations[f];
        var t := ParseTransformation(name);
        if t.None? {
          return Err(UnknownTransformation(name));
        }
        return MapColumn(t.value, column);
      }
      return Ok(column);
    }

    /** `_apply_transformations`: the table `Project` describes, over the
        configured schema; the run stops at the first field that fails. */
    method ApplyTransformations(df: Frame) returns (res: Result<Frame, Failure>)
      modifies this`warnings
      ensures var p := Project(config, df, config.jiraFields);
                && (res.Ok? <==> p.outcome.Ok?)
                && (res.Ok? ==> res.value == Table(p.outcome.value.0, p.outcome.value.1, df.rowCount))
                && (res.Err? ==> res.error == p.outcome.error)
                && warnings == old(warnings) + p.warnings
    {
      var fields := config.jiraFields;
      var names: seq<string> := [];
      var cols: seq<seq<Value>> := [];
      var i := 0;
      while i < |fields|
        invariant 0 <= i <= |fields|
        invariant Project(config, df, fields[..i]).outcome == Ok((names, cols))
        invariant warnings == old(warnings) + Project(config, df, fields[..i]).warnings
      {
        var f := fields[i];
        ghost var prev := Project(config, df, fields[..i]).warnings;
        ProjectStep(config, df, fields, i);
        AppendAssoc(old(warnings), prev, FieldWarning(config, df, f));
        var column := BuildColumn(df, f);
        if column.Err? {
          ProjectStops(config, df, fields, i + 1);
          return Err(column.error);
        }
        var next := Assign(names, cols, f, column.value);
        names, cols := next.0, next.1;
        i := i + 1;
      }
      assert fields[..i] == fields;
      ProjectShape(config, df, fields);
      res := Ok(Table(names, cols, df.rowCount));
    }

    /** `_validate_output`: one error per required field that is present
        and has missing-or-"" cells. */
    method ValidateOutput(df: Frame)
      modifies this`errors
      ensures errors == old(errors) + RequiredFieldErrors(config.requiredFields, df)
    {
      var required := config.requiredFields;
      var i := 0;
      while i < |required|
        invariant 0 <= i <= |required|
        invariant errors == old(errors) + RequiredFieldErrors(required[..i], df)
      {
        assert required[..i + 1][..i] == required[..i];
        AppendAssoc(old(errors), RequiredFieldErrors(required[..i], df), RequiredFieldError(df, required[i]));
        var field := required[i];
        if field in df.names {
          var emptyCount := CountMissingOrBlank(Column(df, field));
          if emptyCount > 0 {
            errors := errors + [RowsMissingRequired(emptyCount, field)];
          }
        }
        i := i + 1;
      }
      assert required[..i] == required;
    }

    /** `transform`: resets the accumulators, checks the input, projects it
        and checks the output, with the result `TransformOutcome` describes. */
    method Transform(input: Frame, outputFile: string, preview: bool) returns (r: TransformResult)
      modifies this`errors, this`warnings
      ensures r == TransformOutcome(config, input, outputFile, preview)
      ensures errors == r.errors && warnings == r.warnings
    {
      errors := [];
      warnings := [];
      var originalCount := input.rowCount;
      var ok := ValidateInput(input);
      if !ok {
        return Failed(EmptyInput, errors, warnings);
      }
      ghost var p := Project(config, input, config.jiraFields);
      assert warnings == InputWarnings(config, input);
      var transformed := ApplyTransformations(input);
      assert warnings == InputWarnings(config, input) + p.warnings;
      if transformed.Err? {
        return Failed(transformed.error, errors, warnings);
      }
      var output := transformed.value;
      assert output == Table(p.outcome.value.0, p.outcome.value.1, input.rowCount);
      ValidateOutput(output);
      r := Succeeded(originalCount, output.rowCount, output, errors, warnings,
                     if preview then None else Some(outputFile));
    }
  }
}
