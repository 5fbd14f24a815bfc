/** The named transformation functions of the transformer and the closed
    set of names the configuration may use to select one of them. A name
    outside the set, or a function that raises on its input, fails the
    whole transformation call. */
module Transformations {
  import opened Basics
  import opened Text
  import opened Frames

  /** Why a transformation call fails (the message of the exception it raises). */
  datatype Failure =
    | EmptyInput                     // ValueError raised by the input check
    | UnknownTransformation(name: string)  // AttributeError from the name lookup
    | LabelsOnCell(cell: Value)      // TypeError: `generate_labels` given one cell, not a row

  function RenderFailure(f: Failure): string {
    match f
    case EmptyInput => "Input CSV file is empty"
    case UnknownTransformation(name) => "'CSVTransformer' object has no attribute '" + name + "'"
    case LabelsOnCell(Missing) => "argument of type 'float' is not iterable"
    case LabelsOnCell(Str(_)) => "string indices must be integers, not 'str'"
  }

  // ---------------------------------------------------------------- priority

  const PriorityLevels: set<string> := {"Low", "Medium", "High", "Highest"}

  /** Lower-cased TestRail priority -> Jira priority. */
  const PriorityTable: map<string, string> := map[
    "1" := "Low", "2" := "Medium", "3" := "High", "4" := "Highest",
    "low" := "Low", "medium" := "Medium", "high" := "High", "critical" := "Highest"]

  /** `priority_mapping`: a missing or unlisted priority becomes "Medium". */
  function PriorityMapping(v: Value): (r: string)
    ensures r in PriorityLevels
    ensures v.Missing? ==> r == "Medium"
    ensures v.Str? && Lower(v.s) in PriorityTable ==> r == PriorityTable[Lower(v.s)]
    ensures v.Str? && Lower(v.s) !in PriorityTable ==> r == "Medium"
  {
    match v
    case Missing => "Medium"
    case Str(s) =>
      var key := Lower(s);
      if key in PriorityTable then PriorityTable[key] else "Medium"
  }

  /** The lookup ignores letter case. */
  lemma PriorityIgnoresCase(s: string)
    ensures PriorityMapping(Str(s)) == PriorityMapping(Str(Lower(s)))
  {
    LowerIdempotent(s);
  }

  lemma PriorityExamples()
    ensures PriorityMapping(Str("HIGH")) == "High"
    ensures PriorityMapping(Str("High")) == "High"
    ensures PriorityMapping(Str("high")) == "High"
    ensures PriorityMapping(Str("critical")) == "Highest"
    ensures PriorityMapping(Str("4")) == "Highest"
    ensures PriorityMapping(Str("urgent")) == "Medium"
    ensures PriorityMapping(Missing) == "Medium"
  {
    assert Lower("HIGH") == "high";
    assert Lower("High") == "high";
    assert Lower("high") == "high";
    assert Lower("critical") == "critical";
    assert Lower("4") == "4";
    assert Lower("urgent") == "urgent";
  }

  // --------------------------------------------------------------- component

  const Separator := " > "

  /** A prefix of a string cut just before the first separator contains no separator. */
  lemma CutBeforeFirst(s: string, k: nat)
    requires k <= |s|
    requires forall j :: 0 <= j < k ==> !OccursAt(s, Separator, j)
    ensures !Contains(s[..k], Separator)
  {
    var r := s[..k];
    forall j: nat
      ensures !OccursAt(r, Separator, j)
    {
      if OccursAt(r, Separator, j) {
        assert s[j..j + |Separator|] == r[j..j + |Separator|];
        assert OccursAt(s, Separator, j);
      }
    }
  }

  /** `extract_component`: the part of a hierarchical section path before
      the first " > ", the whole string when there is none, "" when missing. */
  function ExtractComponent(v: Value): (r: string)
    ensures v.Missing? ==> r == ""
    ensures v.Str? ==> |r| <= |v.s| && r == v.s[..|r|]
    ensures v.Str? && Contains(v.s, Separator) ==> OccursAt(v.s, Separator, |r|)
    ensures v.Str? && !Contains(v.s, Separator) ==> r == v.s
    ensures !Contains(r, Separator)
  {
    match v
    case Missing => ""
    case Str(s) =>
      match Find(s, Separator)
      case Some(k) =>
        CutBeforeFirst(s, k);
        s[..k]
      case None =>
        s
  }

  /** Applying the extraction to its own result changes nothing. */
  lemma ExtractComponentIdempotent(v: Value)
    ensures ExtractComponent(Str(ExtractComponent(v))) == ExtractComponent(v)
  {
  }

  lemma ExtractComponentExamples()
    ensures ExtractComponent(Str("UI > Login > Button")) == "UI"
    ensures ExtractComponent(Str("UI")) == "UI"
    ensures ExtractComponent(Missing) == ""
  {
    var s := "UI > Login > Button";
    assert OccursAt(s, Separator, 2);
    assert s[0..3][0] != Separator[0] && s[1..4][0] != Separator[0];
    assert Find(s, Separator) == Some(2);
    var t := "UI";
    assert forall j :: 0 <= j ==> !OccursAt(t, Separator, j);
  }

  // ------------------------------------------------------------------ labels

  const TypeLabel := "manual-test"

  /** `row["Section"]` when the row has such a label (the first one). */
  function SectionOf(row: seq<(string, Value)>): Option<Value> {
    if row == [] then None
    else if row[0].0 == "Section" then Some(row[0].1)
    else SectionOf(row[1..])
  }

  /** A section name as a label: spaces become "-", letters lower case. */
  function Slug(s: string): string {
    Lower(ReplaceChar(s, ' ', '-'))
  }

  /** A slug keeps the length and has neither spaces nor capitals. */
  lemma SlugShape(s: string)
    ensures |Slug(s)| == |s|
    ensures forall i :: 0 <= i < |s| ==> Slug(s)[i] != ' ' && !IsUpperAscii(Slug(s)[i])
  {
  }

  /** `generate_labels`: an optional "section-..." label, then "manual-test",
      joined with ",". */
  function GenerateLabels(row: seq<(string, Value)>): (r: string)
    ensures |TypeLabel| <= |r| && r[|r| - |TypeLabel|..] == TypeLabel
    ensures r == TypeLabel <==> !(SectionOf(row).Some? && SectionOf(row).value.Str?)
    ensures SectionOf(row).Some? && SectionOf(row).value.Str? ==>
              r == "section-" + Slug(SectionOf(row).value.s) + "," + TypeLabel
  {
    var section := SectionOf(row);
    var labels := (if section.Some? && section.value.Str?
                   then ["section-" + Slug(section.value.s)] else []) + [TypeLabel];
    assert |labels| == 2 ==> Join(labels, ",") == labels[0] + "," + TypeLabel by {
      if |labels| == 2 { assert labels[1..] == [TypeLabel]; }
    }
    Join(labels, ",")
  }

  // ---------------------------------------------------------------- dispatch

  /** The closed vocabulary of transformation names. */
  datatype Transformation = MapPriority | FirstComponent | LabelsFromRow

  /** The method a configured name resolves to, if any. */
  function ParseTransformation(name: string): (r: Option<Transformation>)
    ensures r == Some(MapPriority) <==> name == "priority_mapping"
    ensures r == Some(FirstComponent) <==> name == "extract_component"
    ensures r == Some(LabelsFromRow) <==> name == "generate_labels"
  {
    if name == "priority_mapping" then Some(MapPriority)
    else if name == "extract_component" then Some(FirstComponent)
    else if name == "generate_labels" then Some(LabelsFromRow)
    else None
  }

  /** One cell passed through a named transformation by `Series.apply`.
      `generate_labels` then receives the cell instead of a row: a string
      without "Section" in it behaves like a row without a section, any
      other cell raises. */
  function ApplyToCell(t: Transformation, v: Value): (r: Result<Value, Failure>)
    ensures t == MapPriority ==> r == Ok(Str(PriorityMapping(v)))
    ensures t == FirstComponent ==> r == Ok(Str(ExtractComponent(v)))
    ensures t == LabelsFromRow ==> (r.Ok? <==> v.Str? && !Contains(v.s, "Section"))
    ensures t == LabelsFromRow && r.Ok? ==> r.value == Str(TypeLabel)
    ensures t == LabelsFromRow && r.Err? ==> r.error == LabelsOnCell(v)
  {
    match t
    case MapPriority => Ok(Str(PriorityMapping(v)))
    case FirstComponent => Ok(Str(ExtractComponent(v)))
    case LabelsFromRow =>
      if v.Str? && !Contains(v.s, "Section") then Ok(Str(GenerateLabels([])))
      else Err(LabelsOnCell(v))
  }

  /** `column.apply(f)`: every cell in order; the first failure aborts. */
  function MapColumn(t: Transformation, col: seq<Value>): (r: Result<seq<Value>, Failure>)
    ensures r.Ok? ==> |r.value| == |col|
  {
    if col == [] then Ok([])
    else
      match ApplyToCell(t, col[0])
      case Err(e) => Err(e)
      case Ok(v) =>
        match MapColumn(t, col[1..])
        case Err(e) => Err(e)
        case Ok(rest) => Ok([v] + rest)
  }

  /** Mapping a column succeeds exactly when every cell maps, and then holds
      each cell's image at its position; a failure is the failure of some cell. */
  lemma {:induction false} MapColumnCells(t: Transformation, col: seq<Value>)
    ensures MapColumn(t, col).Ok? <==> forall i :: 0 <= i < |col| ==> ApplyToCell(t, col[i]).Ok?
    ensures MapColumn(t, col).Ok? ==>
              forall i :: 0 <= i < |col| ==> ApplyToCell(t, col[i]) == Ok(MapColumn(t, col).value[i])
    ensures MapColumn(t, col).Err? ==>
              exists i :: 0 <= i < |col| && ApplyToCell(t, col[i]) == Err(MapColumn(t, col).error)
    decreases |col|
  {
    if col != [] {
      MapColumnCells(t, col[1..]);
      assert forall i :: 0 < i < |col| ==> col[i] == col[1..][i - 1];
    }
  }
}
