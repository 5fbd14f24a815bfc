/** What the data validator reports about a table, as functions of the
    configuration and the table: the input checks (structure, field
    content, business rules), the output checks (required fields, Jira
    compliance, data quality) and the text report. The `DataValidator`
    class computes the same lists step by step. */
module Validation {
  import opened Basics
  import opened Text
  import opened Frames
  import opened Configuration
  import opened Diagnostics
  import opened Formats

  // --------------------------------------------------------------- structure

  /** `col.isna().all()` */
  predicate AllMissing(col: seq<Value>) {
    forall i :: 0 <= i < |col| ==> col[i].Missing?
  }

  /** The test of the duplicate-name list comprehension: `list(names).count(c) > 1`. */
  function RepeatedIn(names: seq<string>): string -> bool {
    c => Occurrences(names, c) > 1
  }

  /** `[c for c in names if list(names).count(c) > 1]`: every occurrence of
      every repeated name. */
  function RepeatedNames(names: seq<string>): seq<string> {
    Filter(names, RepeatedIn(names))
  }

  /** The names of the columns without a single present cell, in column order. */
  function AllMissingNames(names: seq<string>, cols: seq<seq<Value>>): seq<string>
    requires |names| == |cols|
  {
    if names == [] then []
    else
      AllMissingNames(names[..|names| - 1], cols[..|cols| - 1])
        + (if AllMissing(cols[|cols| - 1]) then [names[|names| - 1]] else [])
  }

  /** The errors of `_validate_structure`. Repeated names are detected by
      `len(columns) != len(set(columns))`, which holds exactly when the
      name list is not `Distinct`. */
  function StructureErrors(df: Frame): seq<Diagnostic> {
    if IsEmpty(df) then [DataFrameIsEmpty]
    else if |df.names| == 0 then [DataFrameHasNoColumns]
    else if !Distinct(df.names) then [DuplicateColumns(RepeatedNames(df.names))]
    else []
  }

  /** The warnings of `_validate_structure`, the empty columns read one
      column position at a time. */
  function StructureWarnings(df: Frame): seq<Diagnostic> {
    if IsEmpty(df) || |df.names| == 0 then []
    else
      var empty := AllMissingNames(df.names, df.columns);
      if empty != [] then [EmptyColumns(empty)] else []
  }

  // ----------------------------------------------------------- field content

  predicate NotEmail(s: string) {
    !IsEmail(s)
  }

  /** The e-mail part of `_validate_column_format`, on the present cells `data`. */
  function EmailWarnings(column: string, data: seq<string>): seq<Diagnostic> {
    if Contains(Lower(column), "email") && Count(data, NotEmail) > 0
    then [InvalidEmails(column, Count(data, NotEmail))]
    else []
  }

  /** Some of the four layouts parses `v`. */
  predicate ParsesSomeLayout(v: string) {
    exists k :: 0 <= k < |DateLayouts| && ParsesAs(DateLayouts[k], v)
  }

  /** A value the date check complains about. */
  predicate IsUnrecognizedDate(v: string) {
    !ParsesSomeLayout(v) && Lower(v) !in ["nan", "none", ""]
  }

  /** The first unrecognized value, in order. */
  function FirstUnrecognized(vs: seq<string>): Option<string> {
    if vs == [] then None
    else if IsUnrecognizedDate(vs[0]) then Some(vs[0])
    else FirstUnrecognized(vs[1..])
  }

  /** How many present values the date check looks at (`head(10)`). */
  const DateSample := 10

  /** The warning of `_validate_date_format`. */
  function DateFormatWarnings(column: string, data: seq<string>): seq<Diagnostic> {
    match FirstUnrecognized(Take(data, DateSample))
    case None => []
    case Some(v) => [UnrecognizedDate(column, v)]
  }

  predicate MentionsDate(low: string) {
    Contains(low, "date") || Contains(low, "created") || Contains(low, "updated")
  }

  /** How many distinct invalid priorities the warning shows (`[:5]`). */
  const ShownPriorities := 5

  /** The present values outside the allow-list, in order. */
  function InvalidPriorityValues(allowed: seq<string>, data: seq<string>): seq<string> {
    Filter(data, s => s !in allowed)
  }

  /** The warning of `_validate_priority_values`. */
  function PriorityValueWarnings(allowed: seq<string>, column: string, data: seq<string>): seq<Diagnostic> {
    if allowed == [] then []
    else
      var bad := InvalidPriorityValues(allowed, data);
      if bad != [] then [InvalidPriorities(column, Take(Dedup(bad), ShownPriorities))] else []
  }

  /** The warnings of `_validate_column_format` for one column. */
  function ColumnFormatWarnings(cfg: Config, column: string, col: seq<Value>): seq<Diagnostic> {
    var data := Present(col);
    var low := Lower(column);
    if data == [] then []
    else
      EmailWarnings(column, data)
        + (if MentionsDate(low) then DateFormatWarnings(column, data) else [])
        + (if Contains(low, "priority")
           then PriorityValueWarnings(cfg.rules.allowedPriorities, column, data) else [])
  }

  /** The format warnings over the columns, in column order. */
  function FormatWarnings(cfg: Config, names: seq<string>, cols: seq<seq<Value>>): seq<Diagnostic>
    requires |names| == |cols|
  {
    if names == [] then []
    else
      FormatWarnings(cfg, names[..|names| - 1], cols[..|cols| - 1])
        + ColumnFormatWarnings(cfg, names[|names| - 1], cols[|cols| - 1])
  }

  /** One more column adds its own format warnings at the end. */
  lemma FormatWarningsStep(cfg: Config, names: seq<string>, cols: seq<seq<Value>>, j: nat)
    requires |names| == |cols| && j < |names|
    ensures FormatWarnings(cfg, names[..j + 1], cols[..j + 1])
            == FormatWarnings(cfg, names[..j], cols[..j]) + ColumnFormatWarnings(cfg, names[j], cols[j])
  {
    assert names[..j + 1][..j] == names[..j] && cols[..j + 1][..j] == cols[..j];
  }

  function ExpectedColumnWarnings(cfg: Config, df: Frame): seq<Diagnostic> {
    var missing := MissingSources(cfg.columnMappings, df.names);
    if missing != [] then [ExpectedColumnsNotFound(missing)] else []
  }

  /** The warnings of `_validate_field_content`. */
  function FieldContentWarnings(cfg: Config, df: Frame): seq<Diagnostic> {
    ExpectedColumnWarnings(cfg, df) + FormatWarnings(cfg, df.names, df.columns)
  }

  // ---------------------------------------------------------- business rules

  const LargeDatasetRows := 10000

  /** The warnings of `_validate_business_rules`. */
  function BusinessWarnings(df: Frame): seq<Diagnostic> {
    (if df.rowCount > LargeDatasetRows then [LargeDataset(df.rowCount)] else [])
      + (if "Title" in df.names && DuplicatedCount(Column(df, "Title")) > 0
         then [DuplicateTitles(DuplicatedCount(Column(df, "Title")))] else [])
  }

  // ---------------------------------------------------------- required fields

  /** The error for one required field, if any. */
  function RequiredFieldCheck(df: Frame, f: string): seq<Diagnostic> {
    if f !in df.names then [RequiredFieldMissing(f)]
    else if CountMissingOrBlank(Column(df, f)) > 0 then [RequiredFieldEmpty(f, CountMissingOrBlank(Column(df, f)))]
    else []
  }

  /** The errors of `_validate_required_fields`, in the order of `fields`. */
  function RequiredFieldChecks(df: Frame, fields: seq<string>): seq<Diagnostic> {
    if fields == [] then []
    else RequiredFieldChecks(df, fields[..|fields| - 1]) + RequiredFieldCheck(df, fields[|fields| - 1])
  }

  // -------------------------------------------------------- Jira compliance

  /** `validation_rules.get(key, default)` for a length limit. */
  function LimitOr(limit: Option<int>, default: int): int {
    match limit
    case None => default
    case Some(m) => m
  }

  /** `(col.astype(str).str.len() > limit).sum()` */
  function CountLonger(col: seq<Value>, limit: int): nat {
    Count(col, (v: Value) => |AsStr(v)| > limit)
  }

  function SummaryErrors(rules: ValidationRules, df: Frame): seq<Diagnostic> {
    var limit := LimitOr(rules.maxSummaryLength, DefaultSummaryLength);
    if "Summary" in df.names && CountLonger(Column(df, "Summary"), limit) > 0
    then [SummariesTooLong(CountLonger(Column(df, "Summary"), limit), limit)]
    else []
  }

  function DescriptionErrors(rules: ValidationRules, df: Frame): seq<Diagnostic> {
    var limit := LimitOr(rules.maxDescriptionLength, DefaultDescriptionLength);
    if "Description" in df.names && CountLonger(Column(df, "Description"), limit) > 0
    then [DescriptionsTooLong(CountLonger(Column(df, "Description"), limit), limit)]
    else []
  }

  /** `~col.isin(allowed)`: a missing cell is never in the list. */
  function CountNotAllowed(col: seq<Value>, allowed: seq<string>): nat {
    Count(col, (v: Value) => !(v.Str? && v.s in allowed))
  }

  function IssueTypeErrors(rules: ValidationRules, df: Frame): seq<Diagnostic> {
    var allowed := rules.requiredIssueTypes;
    if "Issue Type" in df.names && allowed != [] && CountNotAllowed(Column(df, "Issue Type"), allowed) > 0
    then [InvalidIssueTypes(allowed)]
    else []
  }

  /** One error per key that is not a valid project key, in order. */
  function KeyErrors(keys: seq<string>): seq<Diagnostic> {
    if keys == [] then []
    else
      KeyErrors(keys[..|keys| - 1])
        + (if IsProjectKey(keys[|keys| - 1]) then [] else [InvalidProjectKey(keys[|keys| - 1])])
  }

  /** One more key adds its own error, if any, at the end. */
  lemma KeyErrorsStep(keys: seq<string>, i: nat)
    requires i < |keys|
    ensures KeyErrors(keys[..i + 1])
            == KeyErrors(keys[..i]) + (if IsProjectKey(keys[i]) then [] else [InvalidProjectKey(keys[i])])
  {
    assert keys[..i + 1][..i] == keys[..i];
  }

  /** `df["Project Key"].dropna().unique()` */
  function ProjectKeys(df: Frame): seq<string>
    requires "Project Key" in df.names
  {
    Dedup(Present(Column(df, "Project Key")))
  }

  function ProjectKeyErrors(df: Frame): seq<Diagnostic> {
    if "Project Key" in df.names then KeyErrors(ProjectKeys(df)) else []
  }

  /** The errors of `_validate_jira_compliance`. */
  function ComplianceErrors(rules: ValidationRules, df: Frame): seq<Diagnostic> {
    SummaryErrors(rules, df) + DescriptionErrors(rules, df) + IssueTypeErrors(rules, df) + ProjectKeyErrors(df)
  }

  // ------------------------------------------------------------ data quality

  function EmptyRowWarnings(df: Frame): seq<Diagnostic> {
    var k := CountAllMissingRows(df, df.rowCount);
    if k > 0 then [EmptyRows(k)] else []
  }

  /** More than half of `rows` cells missing (`missing / rows * 100 > 50`;
      with no rows the ratio is NaN and the test fails). */
  predicate MostlyMissing(missing: nat, rows: nat) {
    rows > 0 && 2 * missing > rows
  }

  /** One warning per mostly empty column, in column order. */
  function MostlyEmptyWarnings(names: seq<string>, cols: seq<seq<Value>>, rows: nat): seq<Diagnostic>
    requires |names| == |cols|
  {
    if names == [] then []
    else
      var m := CountMissing(cols[|cols| - 1]);
      MostlyEmptyWarnings(names[..|names| - 1], cols[..|cols| - 1], rows)
        + (if MostlyMissing(m, rows) then [ColumnMostlyEmpty(names[|names| - 1], m, rows)] else [])
  }

  /** One more column adds its own warning, if any, at the end. */
  lemma MostlyEmptyStep(names: seq<string>, cols: seq<seq<Value>>, rows: nat, j: nat)
    requires |names| == |cols| && j < |names|
    ensures MostlyEmptyWarnings(names[..j + 1], cols[..j + 1], rows)
            == MostlyEmptyWarnings(names[..j], cols[..j], rows)
               + (if MostlyMissing(CountMissing(cols[j]), rows)
                  then [ColumnMostlyEmpty(names[j], CountMissing(cols[j]), rows)] else [])
  {
    assert names[..j + 1][..j] == names[..j] && cols[..j + 1][..j] == cols[..j];
  }

  const TextColumns := ["Summary", "Description", "Component"]

  predicate HasSpecialCell(v: Value) {
    HasSpecialChar(AsStr(v))
  }

  function SpecialCharWarning(df: Frame, c: string): seq<Diagnostic> {
    if c in df.names && Count(Column(df, c), HasSpecialCell) > 0
    then [SpecialCharacters(Count(Column(df, c), HasSpecialCell), c)]
    else []
  }

  /** One warning per text column with special characters, in the order of `cols`. */
  function SpecialCharWarnings(df: Frame, cols: seq<string>): seq<Diagnostic> {
    if cols == [] then []
    else SpecialCharWarnings(df, cols[..|cols| - 1]) + SpecialCharWarning(df, cols[|cols| - 1])
  }

  /** One more text column adds its own warning, if any, at the end. */
  lemma SpecialCharStep(df: Frame, cols: seq<string>, k: nat)
    requires k < |cols|
    ensures SpecialCharWarnings(df, cols[..k + 1]) == SpecialCharWarnings(df, cols[..k]) + SpecialCharWarning(df, cols[k])
  {
    assert cols[..k + 1][..k] == cols[..k];
  }

  /** The warnings of `_validate_data_quality`. */
  function QualityWarnings(df: Frame): seq<Diagnostic> {
    EmptyRowWarnings(df) + MostlyEmptyWarnings(df.names, df.columns, df.rowCount)
      + SpecialCharWarnings(df, TextColumns)
  }

  // ------------------------------------------------------------------ results

  /** The dictionary `validate_input_data` returns. */
  datatype InputResult = InputResult(
    isValid: bool, errors: seq<Diagnostic>, warnings: seq<Diagnostic>, rowCount: nat, columnCount: nat)

  /** The dictionary `validate_output_data` returns. */
  datatype OutputResult = OutputResult(
    isValid: bool, errors: seq<Diagnostic>, warnings: seq<Diagnostic>, readyForImport: bool)

  function InputErrors(df: Frame): seq<Diagnostic> {
    StructureErrors(df)
  }

  function InputWarnings(cfg: Config, df: Frame): seq<Diagnostic> {
    StructureWarnings(df) + FieldContentWarnings(cfg, df) + BusinessWarnings(df)
  }

  function InputOutcome(cfg: Config, df: Frame): InputResult {
    InputResult(InputErrors(df) == [], InputErrors(df), InputWarnings(cfg, df), df.rowCount, |df.names|)
  }

  function OutputErrors(cfg: Config, df: Frame): seq<Diagnostic> {
    RequiredFieldChecks(df, cfg.requiredFields) + ComplianceErrors(cfg.rules, df)
  }

  function OutputOutcome(cfg: Config, df: Frame): OutputResult {
    var errors := OutputErrors(cfg, df);
    OutputResult(errors == [], errors, QualityWarnings(df), errors == [])
  }

  // ------------------------------------------------------------------- report

  const Rule := "=================================================="

  const ReportTitle := "CSV TRANSFORMATION VALIDATION REPORT"

  function Status(ok: bool): string {
    if ok then "\U{2713} PASS" else "\U{2717} FAIL"
  }

  function Ready(ok: bool): string {
    if ok then "\U{2713} YES" else "\U{2717} NO"
  }

  /** The texts of the messages, in order. */
  function Messages(items: seq<Diagnostic>): (r: seq<string>)
    ensures |r| == |items|
  {
    if items == [] then [] else Messages(items[..|items| - 1]) + [Render(items[|items| - 1])]
  }

  /** `"    - " + text` for each text, in order. */
  function Bullets(texts: seq<string>): (r: seq<string>)
    ensures |r| == |texts|
  {
    if texts == [] then [] else Bullets(texts[..|texts| - 1]) + ["    - " + texts[|texts| - 1]]
  }

  /** One more item adds one more bullet. */
  lemma BulletsStep(items: seq<Diagnostic>, i: nat)
    requires i < |items|
    ensures Bullets(Messages(items[..i + 1])) == Bullets(Messages(items[..i])) + ["    - " + Render(items[i])]
  {
    assert items[..i + 1][..i] == items[..i];
    assert Messages(items[..i + 1]) == Messages(items[..i]) + [Render(items[i])];
    assert Messages(items[..i + 1])[..i] == Messages(items[..i]);
  }

  /** A heading and its bullets, or nothing when there are no items. */
  function Section(heading: string, items: seq<Diagnostic>): seq<string> {
    if items == [] then [] else [heading] + Bullets(Messages(items))
  }

  function InputLines(inp: InputResult): seq<string> {
    ["INPUT DATA VALIDATION:",
     "  Status: " + Status(inp.isValid),
     "  Rows: " + NatToString(inp.rowCount),
     "  Columns: " + NatToString(inp.columnCount)]
      + Section("  Errors:", inp.errors) + Section("  Warnings:", inp.warnings)
  }

  function OutputLines(out: OutputResult): seq<string> {
    ["OUTPUT DATA VALIDATION:",
     "  Status: " + Status(out.isValid),
     "  Jira Ready: " + Ready(out.readyForImport)]
      + Section("  Errors:", out.errors) + Section("  Warnings:", out.warnings)
  }

  /** The lines of `generate_validation_report`; `generated` is the
      formatted time of the call. */
  function ReportLines(inp: InputResult, out: OutputResult, generated: string): seq<string> {
    [ReportTitle, Rule, "Generated: " + generated, ""]
      + InputLines(inp) + [""] + OutputLines(out) + ["", Rule]
  }

  // ------------------------------------------------------- input properties

  /** An empty table gets the one "empty" error and no structure warning. */
  lemma EmptyTableReported(cfg: Config, df: Frame)
    requires IsEmpty(df)
    ensures InputOutcome(cfg, df).errors == [DataFrameIsEmpty]
    ensures !InputOutcome(cfg, df).isValid
    ensures StructureWarnings(df) == []
  {
  }

  /** The "no columns" branch never fires: a table without columns is empty. */
  lemma NoColumnsNeverReported(df: Frame)
    ensures DataFrameHasNoColumns !in StructureErrors(df)
  {
  }

  /** Input is valid exactly when the table is not empty and no column name repeats. */
  lemma InputValidIff(cfg: Config, df: Frame)
    ensures InputOutcome(cfg, df).isValid <==> !IsEmpty(df) && Distinct(df.names)
    ensures InputOutcome(cfg, df).rowCount == df.rowCount && InputOutcome(cfg, df).columnCount == |df.names|
  {
  }

  /** The duplicate list holds every occurrence of a repeated name and no other name. */
  lemma RepeatedNamesExact(names: seq<string>, c: string)
    ensures c in RepeatedNames(names) <==> Occurrences(names, c) > 1
    ensures Occurrences(RepeatedNames(names), c) == if Occurrences(names, c) > 1 then Occurrences(names, c) else 0
  {
    FilterMembers(names, RepeatedIn(names));
    FilterOccurrences(names, RepeatedIn(names), c);
  }

  /** A table with a repeated column name gets one error, listing the repeats. */
  lemma DuplicatesReported(cfg: Config, df: Frame)
    requires !IsEmpty(df) && !Distinct(df.names)
    ensures InputOutcome(cfg, df).errors == [DuplicateColumns(RepeatedNames(df.names))]
    ensures RepeatedNames(df.names) != []
  {
    var i, j :| 0 <= i < j < |df.names| && df.names[i] == df.names[j];
    TwoOccurrences(df.names, i, j);
    RepeatedNamesExact(df.names, df.names[i]);
  }

  /** A name is listed as empty exactly when a column of that name has no present cell. */
  lemma {:induction false} AllMissingNamesExact(names: seq<string>, cols: seq<seq<Value>>, c: string)
    requires |names| == |cols|
    ensures c in AllMissingNames(names, cols) <==>
              exists j :: 0 <= j < |names| && names[j] == c && AllMissing(cols[j])
    decreases |names|
  {
    if names != [] {
      var n := |names| - 1;
      AllMissingNamesExact(names[..n], cols[..n], c);
      assert forall j :: 0 <= j < n ==> names[..n][j] == names[j] && cols[..n][j] == cols[j];
    }
  }

  /** `_validate_structure` as written. With a repeated name `df[col]` is a
      sub-frame, `df[col].isna().all()` a Series, and testing it with `if`
      raises ValueError, so the call never returns. */
  datatype Raised = AmbiguousTruthValue

  function StructureAsWritten(df: Frame): Result<(seq<Diagnostic>, seq<Diagnostic>), Raised> {
    if IsEmpty(df) then Ok(([DataFrameIsEmpty], []))
    else if |df.names| == 0 then Ok(([DataFrameHasNoColumns], []))
    else if !Distinct(df.names) then Err(AmbiguousTruthValue)
    else Ok(([], StructureWarnings(df)))
  }

  /** As written, a returned structure check never carries the duplicate
      error, while every non-empty table with a repeated name raises. The
      model reports the duplicates instead (`DuplicatesReported`). */
  lemma DuplicateReportLost(df: Frame)
    ensures StructureAsWritten(df).Ok? ==> forall d :: d in StructureAsWritten(df).value.0 ==> !d.DuplicateColumns?
    ensures !IsEmpty(df) && !Distinct(df.names) ==> StructureAsWritten(df).Err?
    ensures StructureAsWritten(df).Ok? ==> StructureAsWritten(df).value == (StructureErrors(df), StructureWarnings(df))
  {
  }

  /** The smallest case: two columns called "A". */
  lemma DuplicateReportLostExample()
    ensures var df := Table(["A", "A"], [[Str("x")], [Str("y")]], 1);
              Rectangular(df) && StructureAsWritten(df).Err?
              && StructureErrors(df) == [DuplicateColumns(["A", "A"])]
  {
    var df := Table(["A", "A"], [[Str("x")], [Str("y")]], 1);
    assert Rectangular(df);
    assert !Distinct(df.names) by {
      assert df.names[0] == df.names[1];
    }
    assert !IsEmpty(df) && |df.names| != 0;
    BothRepeated();
  }

  /** Both occurrences of a name listed twice are repeats. */
  lemma BothRepeated()
    ensures RepeatedNames(["A", "A"]) == ["A", "A"]
  {
    var names := ["A", "A"];
    var p := RepeatedIn(names);
    assert names[..1] == ["A"] && ["A"][..0] == [];
    assert Occurrences(["A"], "A") == 1;
    assert Occurrences(names, "A") == 2;
    assert p("A");
    assert Filter(["A"], p) == ["A"];
    assert Filter(names, p) == Filter(["A"], p) + ["A"];
  }

  /** The date check warns at most once, about the first unrecognized
      value among the first ten present values. */
  lemma {:induction false} FirstUnrecognizedExact(vs: seq<string>)
    ensures FirstUnrecognized(vs).None? <==> forall i :: 0 <= i < |vs| ==> !IsUnrecognizedDate(vs[i])
    ensures FirstUnrecognized(vs).Some? ==>
              exists i :: 0 <= i < |vs| && vs[i] == FirstUnrecognized(vs).value && IsUnrecognizedDate(vs[i])
                && forall j :: 0 <= j < i ==> !IsUnrecognizedDate(vs[j])
    decreases |vs|
  {
    if vs != [] && !IsUnrecognizedDate(vs[0]) {
      FirstUnrecognizedExact(vs[1..]);
      assert forall i :: 0 < i < |vs| ==> vs[i] == vs[1..][i - 1];
      if FirstUnrecognized(vs).Some? {
        var i :| 0 <= i < |vs[1..]| && vs[1..][i] == FirstUnrecognized(vs).value && IsUnrecognizedDate(vs[1..][i])
                 && forall j :: 0 <= j < i ==> !IsUnrecognizedDate(vs[1..][j]);
        assert vs[i + 1] == vs[1..][i];
        assert forall j :: 0 <= j < i + 1 ==> !IsUnrecognizedDate(vs[j]);
      }
    }
  }

  lemma DateWarningExact(column: string, data: seq<string>)
    ensures |DateFormatWarnings(column, data)| <= 1
    ensures DateFormatWarnings(column, data) == [] <==>
              forall i :: 0 <= i < |data| && i < DateSample ==> !IsUnrecognizedDate(data[i])
    ensures DateFormatWarnings(column, data) != [] ==>
              exists i :: 0 <= i < |data| && i < DateSample && IsUnrecognizedDate(data[i])
                && DateFormatWarnings(column, data) == [UnrecognizedDate(column, data[i])]
                && forall j :: 0 <= j < i ==> !IsUnrecognizedDate(data[j])
  {
    var sample := Take(data, DateSample);
    FirstUnrecognizedExact(sample);
    assert forall i :: 0 <= i < |sample| ==> sample[i] == data[i];
  }

  /** There is no priority warning exactly when no allow-list is configured
      or every present value is allowed. */
  lemma PriorityWarningAbsent(allowed: seq<string>, column: string, data: seq<string>)
    ensures PriorityValueWarnings(allowed, column, data) == [] <==>
              allowed == [] || forall i :: 0 <= i < |data| ==> data[i] in allowed
  {
    var bad := InvalidPriorityValues(allowed, data);
    FilterMembers(data, s => s !in allowed);
    if bad != [] {
      assert bad[0] in data;
    }
    if !forall i :: 0 <= i < |data| ==> data[i] in allowed {
      var i :| 0 <= i < |data| && data[i] !in allowed;
      assert data[i] in bad;
    }
  }

  /** The priority warning shows at most five distinct values, each present
      in the column and outside the allow-list; with at most five such
      values it shows them all. */
  lemma PriorityWarningShows(allowed: seq<string>, column: string, data: seq<string>)
    requires PriorityValueWarnings(allowed, column, data) != []
    ensures var vs := Take(Dedup(InvalidPriorityValues(allowed, data)), ShownPriorities);
              && PriorityValueWarnings(allowed, column, data) == [InvalidPriorities(column, vs)]
              && 1 <= |vs| <= ShownPriorities && Distinct(vs)
              && (forall v :: v in vs ==> v in data && v !in allowed)
              && (|Dedup(InvalidPriorityValues(allowed, data))| <= ShownPriorities ==>
                    forall i :: 0 <= i < |data| && data[i] !in allowed ==> data[i] in vs)
  {
    var bad := InvalidPriorityValues(allowed, data);
    FilterMembers(data, s => s !in allowed);
    DedupMembers(bad);
    var d := Dedup(bad);
    assert bad[0] in d;
  }

  /** The e-mail check warns exactly when the column name mentions "email"
      and some present value is not an address, and it then counts those values. */
  lemma EmailWarningExact(column: string, data: seq<string>)
    ensures EmailWarnings(column, data) == [] <==>
              !Contains(Lower(column), "email") || forall i :: 0 <= i < |data| ==> IsEmail(data[i])
    ensures EmailWarnings(column, data) != [] ==>
              EmailWarnings(column, data) == [InvalidEmails(column, |Positions(data, NotEmail)|)]
  {
    CountZero(data, NotEmail);
    CountIsPositions(data, NotEmail);
  }

  /** The business rules warn about size exactly above 10000 rows, and about
      titles exactly when a "Title" column repeats a title, giving the number
      of rows that repeat an earlier one. */
  lemma BusinessWarningsExact(df: Frame)
    ensures LargeDataset(df.rowCount) in BusinessWarnings(df) <==> df.rowCount > LargeDatasetRows
    ensures forall d :: d in BusinessWarnings(df) ==> d == LargeDataset(df.rowCount) || d.DuplicateTitles?
    ensures "Title" !in df.names ==> forall d :: d in BusinessWarnings(df) ==> !d.DuplicateTitles?
    ensures "Title" in df.names ==>
              (DuplicateTitles(df.rowCount - |Dedup(Column(df, "Title"))|) in BusinessWarnings(df) <==>
                 !Distinct(Column(df, "Title")))
  {
    if "Title" in df.names {
      var titles := Column(df, "Title");
      DuplicatedCountZero(titles);
      DuplicatedCountSplit(titles);
    }
  }

  // ------------------------------------------------------ output properties

  /** At most one error per required field, and none exactly when every
      required field is a column without missing or blank cells. */
  lemma {:induction false} RequiredFieldChecksExact(df: Frame, fields: seq<string>)
    ensures |RequiredFieldChecks(df, fields)| <= |fields|
    ensures RequiredFieldChecks(df, fields) == [] <==>
              forall k :: 0 <= k < |fields| ==> fields[k] in df.names && CountMissingOrBlank(Column(df, fields[k])) == 0
    decreases |fields|
  {
    if fields != [] {
      var n := |fields| - 1;
      var init := fields[..n];
      RequiredFieldChecksExact(df, init);
      assert forall k :: 0 <= k < n ==> init[k] == fields[k];
    }
  }

  /** Each listing of an absent required field yields one "missing" error,
      and each listing of a present one with k > 0 missing-or-"" cells one
      error carrying k. */
  lemma RequiredFieldErrorPerListing(df: Frame, fields: seq<string>, f: string)
    ensures f !in df.names ==>
              Occurrences(RequiredFieldChecks(df, fields), RequiredFieldMissing(f)) == Occurrences(fields, f)
    ensures f in df.names && CountMissingOrBlank(Column(df, f)) > 0 ==>
              Occurrences(RequiredFieldChecks(df, fields), RequiredFieldEmpty(f, CountMissingOrBlank(Column(df, f))))
              == Occurrences(fields, f)
  {
    if f !in df.names {
      ErrorPerListing(df, fields, f, RequiredFieldMissing(f));
    } else if CountMissingOrBlank(Column(df, f)) > 0 {
      ErrorPerListing(df, fields, f, RequiredFieldEmpty(f, CountMissingOrBlank(Column(df, f))));
    }
  }

  /** When `d` is the one error that field `f` gets, it occurs once per
      listing of `f`. */
  lemma {:induction false} ErrorPerListing(df: Frame, fields: seq<string>, f: string, d: Diagnostic)
    requires RequiredFieldCheck(df, f) == [d]
    ensures Occurrences(RequiredFieldChecks(df, fields), d) == Occurrences(fields, f)
    decreases |fields|
  {
    if fields != [] {
      var init, last := fields[..|fields| - 1], fields[|fields| - 1];
      ErrorPerListing(df, init, f, d);
      OccurrencesAppend(RequiredFieldChecks(df, init), RequiredFieldCheck(df, last), d);
      CheckOccurrence(df, last, f, d);
    }
  }

  /** The errors of one field hold `d` once if the field is `f`, and not
      at all otherwise. */
  lemma CheckOccurrence(df: Frame, g: string, f: string, d: Diagnostic)
    requires RequiredFieldCheck(df, f) == [d]
    ensures Occurrences(RequiredFieldCheck(df, g), d) == if g == f then 1 else 0
  {
    var c := RequiredFieldCheck(df, g);
    assert forall e :: e in c ==> (e.RequiredFieldMissing? || e.RequiredFieldEmpty?) && e.field == g;
    assert d.field == f;
    if c != [] {
      assert c[..|c| - 1] == [];
    }
  }

  /** Each required-field error names a listed field and says truly what is
      wrong with it. */
  lemma {:induction false} RequiredFieldErrorsTrue(df: Frame, fields: seq<string>)
    ensures forall d :: d in RequiredFieldChecks(df, fields) ==>
              || (d.RequiredFieldMissing? && d.field in fields && d.field !in df.names)
              || (d.RequiredFieldEmpty? && d.field in fields && d.field in df.names
                  && d.count == CountMissingOrBlank(Column(df, d.field)) > 0)
    decreases |fields|
  {
    if fields != [] {
      var n := |fields| - 1;
      var init := fields[..n];
      RequiredFieldErrorsTrue(df, init);
      assert forall f :: f in init ==> f in fields;
    }
  }

  /** One error per invalid key, about that key, and no other errors. */
  lemma {:induction false} KeyErrorsExact(keys: seq<string>)
    ensures forall d :: d in KeyErrors(keys) ==> d.InvalidProjectKey? && d.key in keys && !IsProjectKey(d.key)
    ensures forall k :: k in keys && !IsProjectKey(k) ==> InvalidProjectKey(k) in KeyErrors(keys)
    ensures Distinct(keys) ==> Distinct(KeyErrors(keys))
    decreases |keys|
  {
    if keys != [] {
      var n := |keys| - 1;
      KeyErrorsExact(keys[..n]);
      assert keys == keys[..n] + [keys[n]];
      if Distinct(keys) {
        assert Distinct(keys[..n]);
        assert keys[n] !in keys[..n];
      }
    }
  }

  /** The project-key errors name exactly the present keys that do not
      match, each once. */
  lemma ProjectKeyErrorsExact(df: Frame)
    requires "Project Key" in df.names
    ensures forall k :: InvalidProjectKey(k) in ProjectKeyErrors(df) <==>
                          Str(k) in Column(df, "Project Key") && !IsProjectKey(k)
    ensures forall d :: d in ProjectKeyErrors(df) ==> d.InvalidProjectKey?
    ensures Distinct(ProjectKeyErrors(df))
  {
    var present := Present(Column(df, "Project Key"));
    PresentMembers(Column(df, "Project Key"));
    DedupMembers(present);
    KeyErrorsExact(ProjectKeys(df));
  }

  /** The Jira rules, stated on cells. */
  ghost predicate Compliant(rules: ValidationRules, df: Frame) {
    && ("Summary" in df.names ==>
          forall v :: v in Column(df, "Summary") ==> |AsStr(v)| <= LimitOr(rules.maxSummaryLength, DefaultSummaryLength))
    && ("Description" in df.names ==>
          forall v :: v in Column(df, "Description") ==> |AsStr(v)| <= LimitOr(rules.maxDescriptionLength, DefaultDescriptionLength))
    && ("Issue Type" in df.names && rules.requiredIssueTypes != [] ==>
          forall v :: v in Column(df, "Issue Type") ==> v.Str? && v.s in rules.requiredIssueTypes)
    && ("Project Key" in df.names ==>
          forall k :: Str(k) in Column(df, "Project Key") ==> IsProjectKey(k))
  }

  lemma LongerIff(col: seq<Value>, limit: int)
    ensures CountLonger(col, limit) == 0 <==> forall v :: v in col ==> |AsStr(v)| <= limit
  {
    CountZero(col, (v: Value) => |AsStr(v)| > limit);
  }

  lemma NotAllowedIff(col: seq<Value>, allowed: seq<string>)
    ensures CountNotAllowed(col, allowed) == 0 <==> forall v :: v in col ==> v.Str? && v.s in allowed
  {
    CountZero(col, (v: Value) => !(v.Str? && v.s in allowed));
  }

  lemma ProjectKeysIff(df: Frame)
    ensures ProjectKeyErrors(df) == [] <==>
              ("Project Key" in df.names ==> forall k :: Str(k) in Column(df, "Project Key") ==> IsProjectKey(k))
  {
    if "Project Key" in df.names {
      ProjectKeyErrorsExact(df);
      if ProjectKeyErrors(df) != [] {
        assert ProjectKeyErrors(df)[0] in ProjectKeyErrors(df);
      }
    }
  }

  /** No compliance error exactly when the rules hold on every cell. */
  lemma ComplianceIff(rules: ValidationRules, df: Frame)
    ensures ComplianceErrors(rules, df) == [] <==> Compliant(rules, df)
  {
    if "Summary" in df.names {
      LongerIff(Column(df, "Summary"), LimitOr(rules.maxSummaryLength, DefaultSummaryLength));
    }
    if "Description" in df.names {
      LongerIff(Column(df, "Description"), LimitOr(rules.maxDescriptionLength, DefaultDescriptionLength));
    }
    if "Issue Type" in df.names {
      NotAllowedIff(Column(df, "Issue Type"), rules.requiredIssueTypes);
    }
    ProjectKeysIff(df);
  }

  /** Output is valid, and ready for import, exactly when every required
      field is a column without missing or blank cells and the Jira rules hold. */
  lemma OutputValidIff(cfg: Config, df: Frame)
    ensures OutputOutcome(cfg, df).readyForImport == OutputOutcome(cfg, df).isValid
    ensures OutputOutcome(cfg, df).isValid <==>
              (forall k :: 0 <= k < |cfg.requiredFields| ==>
                 cfg.requiredFields[k] in df.names && CountMissingOrBlank(Column(df, cfg.requiredFields[k])) == 0)
              && Compliant(cfg.rules, df)
  {
    RequiredFieldChecksExact(df, cfg.requiredFields);
    ComplianceIff(cfg.rules, df);
  }

  /** A column is reported mostly empty exactly when more than half of its
      cells are missing; each report carries that column's count. */
  lemma {:induction false} MostlyEmptyExact(names: seq<string>, cols: seq<seq<Value>>, rows: nat)
    requires |names| == |cols|
    ensures |MostlyEmptyWarnings(names, cols, rows)| <= |names|
    ensures forall j :: 0 <= j < |names| && MostlyMissing(CountMissing(cols[j]), rows) ==>
              ColumnMostlyEmpty(names[j], CountMissing(cols[j]), rows) in MostlyEmptyWarnings(names, cols, rows)
    ensures forall d :: d in MostlyEmptyWarnings(names, cols, rows) ==>
              d.ColumnMostlyEmpty? && d.rows == rows && MostlyMissing(d.missing, rows)
              && exists j :: 0 <= j < |names| && names[j] == d.column && CountMissing(cols[j]) == d.missing
    decreases |names|
  {
    if names != [] {
      var n := |names| - 1;
      MostlyEmptyExact(names[..n], cols[..n], rows);
      assert forall j :: 0 <= j < n ==> names[..n][j] == names[j] && cols[..n][j] == cols[j];
    }
  }

  /** The empty-row check warns exactly when some row has no present cell. */
  lemma EmptyRowWarningExact(df: Frame)
    ensures EmptyRowWarnings(df) == [] <==> forall i :: 0 <= i < df.rowCount ==> !RowAllMissing(df, i)
  {
    CountAllMissingRowsZero(df, df.rowCount);
  }

  /** A text column warns exactly when it is present and some cell, read as
      text, holds a special character. */
  lemma SpecialCharWarningExact(df: Frame, c: string)
    ensures SpecialCharWarning(df, c) == [] <==>
              c !in df.names || forall v :: v in Column(df, c) ==> !HasSpecialCell(v)
  {
    if c in df.names {
      CountZero(Column(df, c), HasSpecialCell);
    }
  }

  // ------------------------------------------------------- report properties

  lemma {:induction false} MessagesExact(items: seq<Diagnostic>)
    ensures forall i :: 0 <= i < |items| ==> Messages(items)[i] == Render(items[i])
    decreases |items|
  {
    if items != [] {
      MessagesExact(items[..|items| - 1]);
    }
  }

  lemma {:induction false} BulletsExact(texts: seq<string>)
    ensures forall i :: 0 <= i < |texts| ==> Bullets(texts)[i] == "    - " + texts[i]
    decreases |texts|
  {
    if texts != [] {
      BulletsExact(texts[..|texts| - 1]);
    }
  }

  /** A section lists every one of its items. */
  lemma SectionLists(heading: string, items: seq<Diagnostic>, e: Diagnostic)
    requires e in items
    ensures "    - " + Render(e) in Section(heading, items)
  {
    MessagesExact(items);
    BulletsExact(Messages(items));
    var i :| 0 <= i < |items| && items[i] == e;
    assert Bullets(Messages(items))[i] == "    - " + Render(e);
  }

  /** The report opens with the title, a rule and the time, gives the input
      status on its sixth line, and closes with a rule. */
  lemma ReportFrame(inp: InputResult, out: OutputResult, generated: string)
    ensures var lines := ReportLines(inp, out, generated);
              && |lines| >= 14
              && lines[..6] == [ReportTitle, Rule, "Generated: " + generated, "", "INPUT DATA VALIDATION:",
                                "  Status: " + Status(inp.isValid)]
              && lines[|lines| - 1] == Rule
              && "  Jira Ready: " + Ready(out.readyForImport) in lines
  {
    var lines := ReportLines(inp, out, generated);
    var tail := OutputLines(out) + ["", Rule];
    assert lines == [ReportTitle, Rule, "Generated: " + generated, ""] + InputLines(inp) + [""] + tail;
    assert tail[2] == "  Jira Ready: " + Ready(out.readyForImport);
    assert lines[4 + |InputLines(inp)| + 1 + 2] == tail[2];
    assert lines[..6] == [ReportTitle, Rule, "Generated: " + generated, ""] + InputLines(inp)[..2];
  }

  /** The report lists every error and warning of both results. */
  lemma ReportListsAll(inp: InputResult, out: OutputResult, generated: string, e: Diagnostic)
    requires e in inp.errors + inp.warnings + out.errors + out.warnings
    ensures "    - " + Render(e) in ReportLines(inp, out, generated)
  {
    var line := "    - " + Render(e);
    var inLines := InputLines(inp);
    var outLines := OutputLines(out);
    if e in inp.errors {
      SectionLists("  Errors:", inp.errors, e);
      assert line in inLines;
    } else if e in inp.warnings {
      SectionLists("  Warnings:", inp.warnings, e);
      assert line in inLines;
    } else if e in out.errors {
      SectionLists("  Errors:", out.errors, e);
      assert line in outLines;
    } else {
      SectionLists("  Warnings:", out.warnings, e);
      assert line in outLines;
    }
  }
}
