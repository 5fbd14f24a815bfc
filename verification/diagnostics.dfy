/** The messages that the transformer and the validator append to their
    `errors` and `warnings` lists, kept as structured values; `Render`
    gives the text of the f-string each one is built from. */
module Diagnostics {
  import opened Text

  datatype Diagnostic =
      // transformer.py
    | MissingExpectedColumns(columns: seq<string>)
    | EmptySourceValues(count: nat, source: string)
    | SourceColumnNotFound(source: string, field: string)
    | RowsMissingRequired(count: nat, field: string)
      // validator.py
    | DataFrameIsEmpty
    | DataFrameHasNoColumns
    | DuplicateColumns(columns: seq<string>)
    | EmptyColumns(columns: seq<string>)
    | ExpectedColumnsNotFound(columns: seq<string>)
    | InvalidEmails(column: string, count: nat)
    | UnrecognizedDate(column: string, value: string)
    | InvalidPriorities(column: string, values: seq<string>)
    | LargeDataset(rows: nat)
    | DuplicateTitles(count: nat)
    | RequiredFieldMissing(field: string)
    | RequiredFieldEmpty(field: string, count: nat)
    | SummariesTooLong(count: nat, limit: int)
    | DescriptionsTooLong(count: nat, limit: int)
    | InvalidIssueTypes(allowed: seq<string>)
    | InvalidProjectKey(key: string)
    | EmptyRows(count: nat)
    | ColumnMostlyEmpty(column: string, missing: nat, rows: nat)
    | SpecialCharacters(count: nat, column: string)

  /** `f"{missing / rows * 100:.1f}"`, rounding the exact ratio half up. */
  function Percent(missing: nat, rows: nat): string {
    if rows == 0 then "nan"
    else
      var tenths := (2000 * missing + rows) / (2 * rows);
      NatToString(tenths / 10) + "." + NatToString(tenths % 10)
  }

  function Render(d: Diagnostic): string {
    match d
    case MissingExpectedColumns(cols) => "Missing expected columns: " + ListRepr(cols)
    case EmptySourceValues(k, src) => NatToString(k) + " rows have empty " + src
    case SourceColumnNotFound(src, f) => "Source column " + src + " not found for " + f
    case RowsMissingRequired(k, f) => NatToString(k) + " rows missing required field: " + f
    case DataFrameIsEmpty => "DataFrame is empty"
    case DataFrameHasNoColumns => "DataFrame has no columns"
    case DuplicateColumns(cols) => "Duplicate columns found: " + ListRepr(cols)
    case EmptyColumns(cols) => "Completely empty columns: " + ListRepr(cols)
    case ExpectedColumnsNotFound(cols) => "Expected columns not found: " + ListRepr(cols)
    case InvalidEmails(c, k) => "Invalid email formats in " + c + ": " + NatToString(k) + " entries"
    case UnrecognizedDate(c, v) => "Unrecognized date format in " + c + ": " + v
    case InvalidPriorities(c, vs) => "Invalid priority values in " + c + ": " + ArrayRepr(vs)
    case LargeDataset(n) => "Large dataset (" + NatToString(n) + " rows) - consider batch processing"
    case DuplicateTitles(k) => NatToString(k) + " duplicate titles found"
    case RequiredFieldMissing(f) => "Required field missing: " + f
    case RequiredFieldEmpty(f, k) => "Required field '" + f + "' has " + NatToString(k) + " empty values"
    case SummariesTooLong(k, m) => NatToString(k) + " summaries exceed " + IntToString(m) + " characters"
    case DescriptionsTooLong(k, m) => NatToString(k) + " descriptions exceed " + IntToString(m) + " characters"
    case InvalidIssueTypes(allowed) => "Invalid Issue Types found. Allowed: " + ListRepr(allowed)
    case InvalidProjectKey(key) => "Invalid Project Key format: " + key
    case EmptyRows(k) => NatToString(k) + " completely empty rows found"
    case ColumnMostlyEmpty(c, m, n) => "Column '" + c + "' is " + Percent(m, n) + "% empty"
    case SpecialCharacters(k, c) => NatToString(k) + " entries in '" + c + "' contain special characters"
  }
}
