/** The `DataValidator` class: it keeps the configuration it was built with
    and the `errors` and `warnings` lists of the last validation call, which
    each `_validate_*` step appends to. Every method is tied to the function
    of `Validation` that says what it appends. */
module Validator {
  import opened Basics
  import opened Text
  import opened Frames
  import opened Configuration
  import opened Diagnostics
  import opened Formats
  import opened Validation

  class DataValidator {
    const config: Config
    var errors: seq<Diagnostic>
    var warnings: seq<Diagnostic>

    constructor(config: Config)
      ensures this.config == config && errors == [] && warnings == []
    {
      this.config := config;
      errors := [];
      warnings := [];
    }

    /** `validate_input_data`: clear both lists, run the structure, field
        content and business-rule checks, and report. */
    method ValidateInputData(df: Frame) returns (r: InputResult)
      modifies this`errors, this`warnings
      ensures r == InputOutcome(config, df)
      ensures errors == r.errors && warnings == r.warnings
    {
      errors := [];
      warnings := [];
      ValidateStructure(df);
      EmptyAppend(StructureErrors(df));
      EmptyAppend(StructureWarnings(df));
      ValidateFieldContent(df);
      ValidateBusinessRules(df);
      r := InputResult(|errors| == 0, errors, warnings, df.rowCount, |df.names|);
    }

    /** `validate_output_data`: clear both lists, run the required-field,
        Jira and data-quality checks, and report. */
    method ValidateOutputData(df: Frame) returns (r: OutputResult)
      modifies this`errors, this`warnings
      ensures r == OutputOutcome(config, df)
      ensures errors == r.errors && warnings == r.warnings
    {
      errors := [];
      warnings := [];
      ValidateRequiredFields(df);
      EmptyAppend(RequiredFieldChecks(df, config.requiredFields));
      ValidateJiraCompliance(df);
      ValidateDataQuality(df);
      EmptyAppend(QualityWarnings(df));
      r := OutputResult(|errors| == 0, errors, warnings, |errors| == 0);
    }

    /** `_validate_structure`. Its "no columns" test comes after the
        emptiness test, which already covers a table without columns, so it
        is left out here (`NoColumnsNeverReported`). */
    method ValidateStructure(df: Frame)
      modifies this`errors, this`warnings
      ensures errors == old(errors) + StructureErrors(df)
      ensures warnings == old(warnings) + StructureWarnings(df)
    {
      if IsEmpty(df) {
        errors := errors + [DataFrameIsEmpty];
        return;
      }
      if !Distinct(df.names) {
        errors := errors + [DuplicateColumns(RepeatedNames(df.names))];
      }
      var emptyCols := AllMissingNames(df.names, df.columns);
      if emptyCols != [] {
        warnings := warnings + [EmptyColumns(emptyCols)];
      }
    }

    /** `_validate_field_content`: the mapped source columns the table
        lacks, then the format checks column by column. */
    method ValidateFieldContent(df: Frame)
      modifies this`warnings
      ensures warnings == old(warnings) + FieldContentWarnings(config, df)
    {
      var missing := MissingSources(config.columnMappings, df.names);
      AppendEmpty(warnings);
      if missing != [] {
        warnings := warnings + [ExpectedColumnsNotFound(missing)];
      }
      ghost var start := warnings;
      var names, cols := df.names, df.columns;
      var j := 0;
      while j < |names|
        invariant 0 <= j <= |names|
        invariant warnings == start + FormatWarnings(config, names[..j], cols[..j])
      {
        FormatWarningsStep(config, names, cols, j);
        AppendAssoc(start, FormatWarnings(config, names[..j], cols[..j]), ColumnFormatWarnings(config, names[j], cols[j]));
        ValidateColumnFormat(names[j], cols[j]);
        j := j + 1;
      }
      assert names[..j] == names && cols[..j] == cols;
      AppendAssoc(old(warnings), ExpectedColumnWarnings(config, df), FormatWarnings(config, names, cols));
    }

    /** `_validate_column_format` for the column `column` with cells `col`. */
    method ValidateColumnFormat(column: string, col: seq<Value>)
      modifies this`warnings
      ensures warnings == old(warnings) + ColumnFormatWarnings(config, column, col)
    {
      var data := Present(col);
      AppendEmpty(warnings);
      if data == [] {
        return;
      }
      var low := Lower(column);
      if Contains(low, "email") {
        var invalid := Count(data, NotEmail);
        if invalid > 0 {
          warnings := warnings + [InvalidEmails(column, invalid)];
        }
      }
      ghost var afterEmail := warnings;
      AppendEmpty(afterEmail);
      if MentionsDate(low) {
        ValidateDateFormat(data, column);
      }
      ghost var dates := if MentionsDate(low) then DateFormatWarnings(column, data) else [];
      AppendAssoc(old(warnings), EmailWarnings(column, data), dates);
      ghost var afterDate := warnings;
      AppendEmpty(afterDate);
      if Contains(low, "priority") {
        ValidatePriorityValues(data, column);
      }
      ghost var priorities :=
        if Contains(low, "priority") then PriorityValueWarnings(config.rules.allowedPriorities, column, data) else [];
      AppendAssoc(old(warnings), EmailWarnings(column, data) + dates, priorities);
    }

    /** `_validate_date_format`: try each of the first ten present values
        against the layouts in turn, and stop at the first one that none
        parses and that is not a spelling of "nothing". */
    method ValidateDateFormat(data: seq<string>, column: string)
      modifies this`warnings
      ensures warnings == old(warnings) + DateFormatWarnings(column, data)
    {
      var sample := Take(data, DateSample);
      var i := 0;
      while i < |sample|
        invariant 0 <= i <= |sample|
        invariant warnings == old(warnings)
        invariant FirstUnrecognized(sample) == FirstUnrecognized(sample[i..])
      {
        var value := sample[i];
        var isValidDate := false;
        var k := 0;
        while k < |DateLayouts|
          invariant 0 <= k <= |DateLayouts|
          invariant !isValidDate
          invariant forall m :: 0 <= m < k ==> !ParsesAs(DateLayouts[m], value)
        {
          if ParsesAs(DateLayouts[k], value) {
            isValidDate := true;
            break;
          }
          k := k + 1;
        }
        assert isValidDate <==> ParsesSomeLayout(value);
        assert sample[i..][0] == value;
        if !isValidDate && Lower(value) !in ["nan", "none", ""] {
          warnings := warnings + [UnrecognizedDate(column, value)];
          break;
        }
        assert sample[i..][1..] == sample[i + 1..];
        i := i + 1;
      }
    }

    /** `_validate_priority_values`: with an allow-list, show up to five
        distinct values outside it. */
    method ValidatePriorityValues(data: seq<string>, column: string)
      modifies this`warnings
      ensures warnings == old(warnings) + PriorityValueWarnings(config.rules.allowedPriorities, column, data)
    {
      var allowed := config.rules.allowedPriorities;
      if allowed == [] {
        return;
      }
      var invalid := InvalidPriorityValues(allowed, data);
      if invalid != [] {
        var uniqueInvalid := Take(Dedup(invalid), ShownPriorities);
        warnings := warnings + [InvalidPriorities(column, uniqueInvalid)];
      }
    }

    /** `_validate_business_rules`: a large row count, and repeated titles. */
    method ValidateBusinessRules(df: Frame)
      modifies this`warnings
      ensures warnings == old(warnings) + BusinessWarnings(df)
    {
      if df.rowCount > LargeDatasetRows {
        warnings := warnings + [LargeDataset(df.rowCount)];
      }
      if "Title" in df.names {
        var duplicateTitles := DuplicatedCount(Column(df, "Title"));
        if duplicateTitles > 0 {
          warnings := warnings + [DuplicateTitles(duplicateTitles)];
        }
      }
    }

    /** `_validate_required_fields`: one check per configured field, in order. */
    method ValidateRequiredFields(df: Frame)
      modifies this`errors
      ensures errors == old(errors) + RequiredFieldChecks(df, config.requiredFields)
    {
      var fields := config.requiredFields;
      var i := 0;
      while i < |fields|
        invariant 0 <= i <= |fields|
        invariant errors == old(errors) + RequiredFieldChecks(df, fields[..i])
      {
        var field := fields[i];
        assert fields[..i + 1][..i] == fields[..i];
        AppendAssoc(old(errors), RequiredFieldChecks(df, fields[..i]), RequiredFieldCheck(df, field));
        if field !in df.names {
          errors := errors + [RequiredFieldMissing(field)];
        } else {
          var emptyCount := CountMissingOrBlank(Column(df, field));
          if emptyCount > 0 {
            errors := errors + [RequiredFieldEmpty(field, emptyCount)];
          }
        }
        i := i + 1;
      }
      assert fields[..i] == fields;
    }

    /** `_validate_jira_compliance`: summary and description lengths, issue
        types, and the format of each distinct present project key. */
    method ValidateJiraCompliance(df: Frame)
      modifies this`errors
      ensures errors == old(errors) + ComplianceErrors(config.rules, df)
    {
      var rules := config.rules;
      AppendEmpty(errors);
      if "Summary" in df.names {
        var maxLength := LimitOr(rules.maxSummaryLength, DefaultSummaryLength);
        var longSummaries := CountLonger(Column(df, "Summary"), maxLength);
        if longSummaries > 0 {
          errors := errors + [SummariesTooLong(longSummaries, maxLength)];
        }
      }
      ghost var e1 := errors;
      AppendEmpty(e1);
      if "Description" in df.names {
        var maxLength := LimitOr(rules.maxDescriptionLength, DefaultDescriptionLength);
        var longDescriptions := CountLonger(Column(df, "Description"), maxLength);
        if longDescriptions > 0 {
          errors := errors + [DescriptionsTooLong(longDescriptions, maxLength)];
        }
      }
      AppendAssoc(old(errors), SummaryErrors(rules, df), DescriptionErrors(rules, df));
      ghost var e2 := errors;
      AppendEmpty(e2);
      if "Issue Type" in df.names {
        var allowedTypes := rules.requiredIssueTypes;
        if allowedTypes != [] {
          var invalidTypes := CountNotAllowed(Column(df, "Issue Type"), allowedTypes);
          if invalidTypes > 0 {
            errors := errors + [InvalidIssueTypes(allowedTypes)];
          }
        }
      }
      AppendAssoc(old(errors), SummaryErrors(rules, df) + DescriptionErrors(rules, df), IssueTypeErrors(rules, df));
      ghost var e3 := errors;
      AppendEmpty(e3);
      if "Project Key" in df.names {
        var projectKeys := ProjectKeys(df);
        var i := 0;
        while i < |projectKeys|
          invariant 0 <= i <= |projectKeys|
          invariant errors == e3 + KeyErrors(projectKeys[..i])
        {
          var key := projectKeys[i];
          KeyErrorsStep(projectKeys, i);
          AppendAssoc(e3, KeyErrors(projectKeys[..i]), if IsProjectKey(key) then [] else [InvalidProjectKey(key)]);
          if !IsProjectKey(key) {
            errors := errors + [InvalidProjectKey(key)];
          } else {
            AppendEmpty(errors);
          }
          i := i + 1;
        }
        assert projectKeys[..i] == projectKeys;
      }
      AppendAssoc(old(errors), SummaryErrors(rules, df) + DescriptionErrors(rules, df) + IssueTypeErrors(rules, df),
                  ProjectKeyErrors(df));
    }

    /** `_validate_data_quality`: empty rows, mostly empty columns, and
        special characters in the text columns. */
    method ValidateDataQuality(df: Frame)
      modifies this`warnings
      ensures warnings == old(warnings) + QualityWarnings(df)
    {
      var emptyRows := CountAllMissingRows(df, df.rowCount);
      AppendEmpty(warnings);
      if emptyRows > 0 {
        warnings := warnings + [EmptyRows(emptyRows)];
      }
      ghost var w1 := warnings;
      var names, cols := df.names, df.columns;
      var j := 0;
      while j < |names|
        invariant 0 <= j <= |names|
        invariant warnings == w1 + MostlyEmptyWarnings(names[..j], cols[..j], df.rowCount)
      {
        var missing := CountMissing(cols[j]);
        MostlyEmptyStep(names, cols, df.rowCount, j);
        AppendAssoc(w1, MostlyEmptyWarnings(names[..j], cols[..j], df.rowCount),
                    if MostlyMissing(missing, df.rowCount) then [ColumnMostlyEmpty(names[j], missing, df.rowCount)] else []);
        if MostlyMissing(missing, df.rowCount) {
          warnings := warnings + [ColumnMostlyEmpty(names[j], missing, df.rowCount)];
        } else {
          AppendEmpty(warnings);
        }
        j := j + 1;
      }
      assert names[..j] == names && cols[..j] == cols;
      AppendAssoc(old(warnings), EmptyRowWarnings(df), MostlyEmptyWarnings(names, cols, df.rowCount));
      ghost var w2 := warnings;
      var textColumns := TextColumns;
      var k := 0;
      while k < |textColumns|
        invariant 0 <= k <= |textColumns|
        invariant warnings == w2 + SpecialCharWarnings(df, textColumns[..k])
      {
        var c := textColumns[k];
        SpecialCharStep(df, textColumns, k);
        AppendAssoc(w2, SpecialCharWarnings(df, textColumns[..k]), SpecialCharWarning(df, c));
        AppendEmpty(warnings);
        if c in df.names {
          var count := Count(Column(df, c), HasSpecialCell);
          if count > 0 {
            warnings := warnings + [SpecialCharacters(count, c)];
          }
        }
        k := k + 1;
      }
      assert textColumns[..k] == textColumns;
      AppendAssoc(old(warnings), EmptyRowWarnings(df) + MostlyEmptyWarnings(names, cols, df.rowCount),
                  SpecialCharWarnings(df, TextColumns));
    }

    /** `generate_validation_report`; `generated` is the formatted time of
        the call. Changes nothing. */
    method GenerateValidationReport(inp: InputResult, out: OutputResult, generated: string) returns (report: string)
      ensures report == JoinLines(ReportLines(inp, out, generated))
    {
      var header := [ReportTitle, Rule, "Generated: " + generated, ""];
      var input := ["INPUT DATA VALIDATION:", "  Status: " + Status(inp.isValid),
                    "  Rows: " + NatToString(inp.rowCount), "  Columns: " + NatToString(inp.columnCount)];
      input := AppendSection(input, "  Errors:", inp.errors);
      input := AppendSection(input, "  Warnings:", inp.warnings);
      var output := ["OUTPUT DATA VALIDATION:", "  Status: " + Status(out.isValid),
                     "  Jira Ready: " + Ready(out.readyForImport)];
      output := AppendSection(output, "  Errors:", out.errors);
      output := AppendSection(output, "  Warnings:", out.warnings);
      report := JoinLines(header + input + [""] + output + ["", Rule]);
    }

    /** One `if items: heading; for item in items: "    - " + item` block of the report. */
    static method AppendSection(lines: seq<string>, heading: string, items: seq<Diagnostic>) returns (r: seq<string>)
      ensures r == lines + Section(heading, items)
    {
      r := lines;
      if items == [] {
        return;
      }
      var top := lines + [heading];
      r := top;
      AppendEmpty(top);
      var i := 0;
      while i < |items|
        invariant 0 <= i <= |items|
        invariant r == top + Bullets(Messages(items[..i]))
      {
        var bullet := "    - " + Render(items[i]);
        BulletsStep(items, i);
        AppendAssoc(top, Bullets(Messages(items[..i])), [bullet]);
        r := r + [bullet];
        i := i + 1;
      }
      assert items[..i] == items;
      AppendAssoc(lines, [heading], Bullets(Messages(items)));
    }
  }
}
