# TestRail-to-Jira CSV converter: a Dafny model

This project models the core of a converter that turns a TestRail CSV export
into a CSV file that Jira can import. The core has two parts, and the Dafny
model proves properties of both.

- **The projection engine** (`CSVTransformer`). It builds the output table one
  field of the output schema (`jira_fields`) at a time. Each field takes one of:
  - its static value;
  - a copied source column, optionally passed through a named transformation
    (`priority_mapping`, `extract_component`, `generate_labels`);
  - empty strings.

  It also checks the input and the output, and returns a result record with
  row counts, errors and warnings.
- **The data validator** (`DataValidator`). It checks an input table
  (structure, expected columns, e-mail/date/priority columns, business rules)
  and an output table (required fields, Jira length/issue-type/project-key
  rules, data quality). It also renders a text report of both results.

A table is a `Frame`: an ordered list of column names (repetitions allowed),
one column of cells per name, and a row count. A cell is `Missing` (pandas'
NaN) or `Str(s)`. The configuration is an immutable `Config` value. Messages
are `Diagnostic` values, and `Render` gives their text (Python's `repr` of a
list and the percentage are approximated, as "## Left out" says).

Both classes keep their `errors` and `warnings` lists as fields. Each method is
proved against a specification function: the new list is the old list followed
by that function's value. Lemmas then state what those functions promise.

Files and modules:

| file | module | contents |
|---|---|---|
| `basics.dfy` | `Basics` | Option/Result, `count`, filtering, de-duplication, `duplicated`, slicing |
| `text.dfy` | `Text` | lower-casing, substring search, joining, Python `repr` of lists |
| `table.dfy` | `Frames` | the table, column lookup, missing-cell counts |
| `config.dfy` | `Configuration` | the configuration and the built-in default |
| `diagnostics.dfy` | `Diagnostics` | every error and warning message and its text |
| `transformations.dfy` | `Transformations` | the three named transformations and their dispatch |
| `transformer.dfy` | `Transformer` | the projection specification and the `CSVTransformer` class |
| `formats.dfy` | `Formats` | the e-mail and project-key patterns, the date layouts, special characters |
| `validation.dfy` | `Validation` | what the validator reports, as functions, with their lemmas |
| `validator.dfy` | `Validator` | the `DataValidator` class |
| `alignment.dfy` | `Alignment` | the projection loop with pandas' row-index alignment, as written |
| `pipeline.dfy` | `Pipeline` | what the validator says about the transformer's output |

Notes on the code's behaviour:

- **Output columns.** Assigning `result_df[f]` replaces an existing column of
  the same name. So the output columns are the schema names without
  repetitions, in order of first appearance (`Dedup(jira_fields)`), and a
  field the schema names twice gets one column.
- **Missing values.** `_apply_transformations` in `src/transformer.py` copies
  source columns as they are, so copied columns keep their `Missing` cells.
- **Unknown transformation names.** `_load_config` in `src/transformer.py`
  accepts any name. `getattr` looks the name up only when `transform` reaches
  a field that uses it, and then that call fails.
- **Duplicate column names.** `_validate_structure` in `src/validator.py`
  raises before it returns the duplicate-columns error. See "## Findings".
- **Static values before the first copied column.** The output frame starts
  without rows. A static value or blank assigned before the first copied
  source column does not fill the rows. See "## Findings".

## Model

| member | source | states |
|---|---|---|
| Configuration.MappingForFinds | src/transformer.py:186-188 | a mapped field's lookup finds the first pair for that field, and finds one exactly when the field is mapped |
| Configuration.MissingSourcesExact | src/validator.py:119-120 | a source column is listed as missing exactly when some mapping names it and the table lacks it |
| Text.Lower | src/validator.py:139 | lower-casing keeps the length and lower-cases each character |
| Frames.PresentMembers | src/validator.py:134 | `dropna()` keeps exactly the string cells |
| Basics.Take | src/validator.py:157 | `head(n)` is a prefix of at most n elements, and the whole sequence when it is short |
| Basics.DedupMembers | src/validator.py:179 | `unique()` keeps every value once, with no repetitions and nothing else |
| Basics.DuplicatedCountSplit | src/validator.py:190 | the number of repeats plus the number of distinct values is the length |
| Basics.DuplicatedCountZero | src/validator.py:190-191 | nothing is `duplicated()` exactly when the values are distinct |
| Transformations.PriorityMapping | src/transformer.py:248-263 | the result is always Low, Medium, High or Highest; missing gives Medium; a listed lower-cased key gives its entry; anything else gives Medium |
| Transformations.PriorityIgnoresCase | src/transformer.py:251 | the lookup ignores letter case |
| Transformations.PriorityExamples | src/transformer.py:252-263 | "HIGH", "High" and "high" give High; "critical" and "4" give Highest; "urgent" and missing give Medium |
| Transformations.ExtractComponent | src/transformer.py:275-282 | missing gives ""; a string with " > " gives the text before its first occurrence; any other string is unchanged; the result never contains " > " |
| Transformations.ExtractComponentIdempotent | src/transformer.py:279-282 | extracting from an extracted component changes nothing |
| Transformations.ExtractComponentExamples | src/transformer.py:278-282 | "UI > Login > Button" gives "UI"; "UI" stays; missing gives "" |
| Transformations.SlugShape | src/transformer.py:298 | the section slug has the same length and has neither spaces nor capitals |
| Transformations.GenerateLabels | src/transformer.py:294-304 | the labels end with "manual-test"; they are exactly "manual-test" unless the row has a present Section, in which case "section-" plus the slug and a comma come first |
| Transformations.ParseTransformation | src/transformer.py:194-196 | each of the three method names, and only that name, selects its transformation |
| Transformations.ApplyToCell | src/transformer.py:195-197 | priority and component mapping never fail; `generate_labels` given a single cell succeeds exactly on a string without "Section" (giving "manual-test") and otherwise fails on that cell |
| Transformations.MapColumn | src/transformer.py:195-197 | a mapped column has as many cells as the source column |
| Transformations.MapColumnCells | src/transformer.py:195-197 | a column maps exactly when every cell maps, each to its own image at its position; a failure is some cell's failure |
| Transformer.FieldColumn | src/transformer.py:183-203 | a computed output column has one cell per input row |
| Transformer.StaticValueWins | src/transformer.py:183-185 | a static value beats a mapping of the same field, fills every row and adds no warning |
| Transformer.DefaultIssueTypeIsTest | src/transformer.py:74-82 | with the default configuration "Issue Type" is mapped and static, and it is "Test" in every row |
| Transformer.AbsentSourceIsBlank | src/transformer.py:198-200 | a mapped field whose source column is absent is "" in every row and warns once, naming the source and the field |
| Transformer.UnconfiguredIsBlank | src/transformer.py:201-203 | a field that is neither static nor mapped is "" in every row and adds no warning |
| Transformer.DefaultLabelsAreBlank | src/transformer.py:89-91 | with the default configuration "Labels" is "" in every row |
| Transformer.SourceWarningPerSlot | src/transformer.py:182-199 | the absent-source warning for a field appears once per schema slot with that name |
| Transformer.SourceWarningOnce | src/transformer.py:198-199 | in a schema without repeated names, an absent source warns exactly once |
| Transformer.RequiredErrorsCarryCounts | src/transformer.py:212-216 | every output-check error is about a required field that is present, and it carries that column's positive number of missing-or-"" cells |
| Transformer.RequiredErrorPerListing | src/transformer.py:212-216 | a present required field with k > 0 missing-or-"" cells gives one error carrying k per listing |
| Transformer.DefaultSchemaIsOutputColumns | src/transformer.py:89-92 | the default schema has no repeated names, so the output columns are exactly that schema, in order |
| Transformer.Assign | src/transformer.py:185 | assigning a column replaces the first column of that name, or appends one; afterwards the name holds the new column and every other column is unchanged |
| Transformer.Project | src/transformer.py:179-205 | the projection has as many columns as column names |
| Transformer.ProjectShape | src/transformer.py:179-205 | a successful projection has one column per distinct schema name, in first-appearance order, and each column is that field's column |
| Transformer.ProjectSucceeds | src/transformer.py:182-205 | the projection succeeds exactly when every schema field has a column, and then it holds one warning per warning slot, in order |
| Transformer.AllHaveColumnsIff | src/transformer.py:182-203 | the recursive "every slot has a column" test holds exactly when each schema slot has a column |
| Transformer.ProjectOk | src/transformer.py:182-205 | the projection succeeds exactly when every slot has a column, and its warnings are then the slots' warnings in schema order |
| Transformer.FailingFieldIsSilent | src/transformer.py:186-200 | a field whose column cannot be computed adds no warning |
| Transformer.ProjectFailsAt | src/transformer.py:193-197 | the first field without a column fails the projection with its failure, keeping the warnings of the slots before it |
| Transformer.ProjectStops | src/transformer.py:182-197 | after a failure the rest of the schema is never looked at |
| Transformer.EmptyInputFails | src/transformer.py:157-158 | an empty input fails with the empty-input error, with no errors and no warnings |
| Transformer.TransformSucceeds | src/transformer.py:107-141 | a non-empty input succeeds exactly when every schema field has a column. On success: row counts equal the input's; the columns are the fields' columns; the warnings are the input warnings then the slot warnings; the errors are the output check's; an output file is named exactly when not previewing |
| Transformer.TransformFails | src/transformer.py:143-150 | a non-empty input whose first failing field is i fails with that field's failure, no errors, and the warnings gathered before i |
| Transformer.CSVTransformer.constructor | src/transformer.py:28-38 | the configuration is the loaded one, or the default when none could be loaded; both lists start empty |
| Transformer.CSVTransformer.ValidateInput | src/transformer.py:152-173 | rejects exactly the empty tables and then adds nothing; otherwise appends the input warnings |
| Transformer.CSVTransformer.WarnMissingSources | src/transformer.py:160-166 | appends one warning listing the mapped source columns the table lacks, if there are any |
| Transformer.CSVTransformer.WarnEmptySources | src/transformer.py:168-173 | appends, in mapping order, one warning per required field whose present source column has missing cells |
| Transformer.CSVTransformer.BuildColumn | src/transformer.py:183-203 | returns the field's column and appends exactly that slot's warning |
| Transformer.CSVTransformer.ApplyTransformations | src/transformer.py:175-205 | returns the table the projection describes, or its failure, and appends its warnings |
| Transformer.CSVTransformer.ValidateOutput | src/transformer.py:207-216 | appends one error per present required field with missing-or-"" cells, in order |
| Transformer.CSVTransformer.Transform | src/transformer.py:107-150 | resets both lists and returns exactly the outcome `TransformSucceeds` and `TransformFails` describe; the fields then hold that outcome's errors and warnings |
| Alignment.FieldScalar | src/transformer.py:183-203 | a field assigns a scalar (the corrected column is then that value in every row) unless it is non-static, mapped, and its source column is present |
| Alignment.Reindexed | src/transformer.py:190 | reindexing keeps the number of columns and makes each one missing in all of the new rows |
| Alignment.ProjectAsWritten | src/transformer.py:179-205 | as written, the row index is either empty or the input's, and there is one column per column name |
| Alignment.AsWrittenShape | src/transformer.py:179-205 | as written, the column names are the schema names without repetitions and every column is as long as the row index |
| Alignment.AsWrittenWarnsAlike | src/transformer.py:179-205 | the code as written succeeds, fails and warns exactly as the corrected projection does |
| Alignment.AsWrittenAgreesAfterSource | src/transformer.py:186-190 | when the first schema field copies a source column of a non-empty input, the code as written builds the corrected table |
| Alignment.OnlyScalarsNoRows | src/transformer.py:183-185 | a schema whose every field assigns a scalar builds a table with no rows |
| Alignment.ScalarsBeforeFirstSourceAreLost | src/transformer.py:183-190 | once the first copied column is assigned after scalar fields, every other column is missing in every row |
| Alignment.AsWrittenPrefixOk | src/transformer.py:182-205 | a run of the code as written that succeeds has succeeded after every prefix of the schema |
| Alignment.AsWrittenKeepsColumn | src/transformer.py:183-203 | once the row index is the input's, assigning one field keeps the index and leaves every column of another name, and its position, as it was |
| Alignment.LaterFieldsKeep | src/transformer.py:182-203 | once the row index is set, assignments of other names leave a column as it was |
| Alignment.BothSucceed | src/transformer.py:179-205 | for a schema without repeated names whose every field has a column, both projections succeed with the schema as their column names |
| Alignment.ScalarLostAt | src/transformer.py:183-190 | in such a schema, a scalar field placed before the first copied column is missing in every row of the output as written |
| Alignment.MissingCountsAll | src/transformer.py:214 | a column missing in every row counts every row as missing or blank |
| Alignment.DefaultMappings | src/transformer.py:74-80 | the default mappings take "Summary" from "Title", "Priority" from "Priority", "Component" from "Section" and "Description" from "Preconditions", and leave "Labels" unmapped |
| Alignment.DefaultSchemaDistinct | src/transformer.py:89-92 | the default schema names no field twice |
| Alignment.PriorityCopied | src/transformer.py:75-87 | with the default configuration an input "Priority" column is copied through the priority mapping, which succeeds, rather than assigned as a scalar |
| Alignment.PriorityOnlyFields | src/transformer.py:72-93 | with the default configuration and an input with "Priority" but no "Title", "Section" or "Preconditions" column, "Priority" is the only field that copies a column, and every field has a column |
| Alignment.StaticValueLost | src/transformer.py:179-216 | for such an input, as written "Summary" and "Issue Type" are missing in every row and the output check counts every row as missing "Issue Type"; the corrected projection has "Test" in every row |
| Formats.EmailHasOneAt | src/validator.py:140 | an address the pattern accepts has exactly one "@" |
| Formats.EmailSplit | src/validator.py:140 | when "@" occurs once, the domain pattern must match everything after it |
| Formats.DomainSplit | src/validator.py:140 | when "." occurs once in the domain, at least two letters follow it |
| Formats.EmailAccepted | src/validator.py:140 | "ann@example.com" is accepted, also with one trailing newline |
| Formats.EmailRejected | src/validator.py:140 | "ann@example" and "ann@example.c" are rejected |
| Formats.ProjectKeyExamples | src/validator.py:236 | "PROJ", "QA_2" and "PROJ" with a trailing newline match; "proj", "", "2QA" and "PR-1" do not |
| Formats.FieldValue | src/validator.py:155 | a date field that matches is 1, 2 or 4 characters wide and not negative |
| Formats.IsoDateAccepted | src/validator.py:155 | "2024-01-15" parses as year-month-day |
| Formats.IsoDateShortFields | src/validator.py:155 | "2024-1-5" parses as year-month-day |
| Formats.UsDateAccepted | src/validator.py:155 | "01/15/2024" parses month first |
| Formats.UsDateNotDayFirst | src/validator.py:155 | "01/15/2024" does not parse day first |
| Formats.DayFirstDateAccepted | src/validator.py:155 | "15/01/2024" parses day first |
| Formats.DayFirstNotUs | src/validator.py:155 | "15/01/2024" does not parse month first |
| Formats.NoLeapDayIn2023 | src/validator.py:155-161 | "2023-02-29" does not parse: the day must exist |
| Formats.DateRejectsTrailingTime | src/validator.py:155-161 | "2024-01-15 10:30:00" does not parse as a plain date: the whole string must match |
| Validation.EmptyTableReported | src/validator.py:98-100 | an empty table gets exactly the "DataFrame is empty" error, is invalid, and gets no structure warning |
| Validation.NoColumnsNeverReported | src/validator.py:102-104 | the "no columns" error never appears, because a table without columns is already empty |
| Validation.InputValidIff | src/validator.py:59-65 | input is valid exactly when the table is not empty and no column name repeats; row and column counts are the table's |
| Validation.RepeatedNamesExact | src/validator.py:108 | the duplicate list holds every occurrence of a repeated name and no other name |
| Validation.DuplicatesReported | src/validator.py:107-109 | a non-empty table with a repeated name gets exactly one error, and it lists the repeats (non-empty) |
| Validation.AllMissingNamesExact | src/validator.py:112 | a name is listed as empty exactly when a column of that name has no present cell |
| Validation.DuplicateReportLost | src/validator.py:107-114 | as written, a returned structure check never carries the duplicate error, and every non-empty table with a repeated name raises; when it does return, it agrees with the model |
| Validation.DuplicateReportLostExample | src/validator.py:107-114 | two columns named "A" make the code as written raise, while the model reports ['A', 'A'] |
| Validation.FirstUnrecognizedExact | src/validator.py:157-169 | nothing is found exactly when no value is an unrecognized date; otherwise the first such value is found |
| Validation.DateWarningExact | src/validator.py:153-169 | at most one date warning; none exactly when none of the first ten present values is unrecognized; otherwise it names the first one |
| Validation.PriorityWarningAbsent | src/validator.py:171-178 | no priority warning exactly when no allow-list is configured or every present value is allowed |
| Validation.PriorityWarningShows | src/validator.py:177-180 | the warning shows 1 to 5 distinct values, each present and not allowed; with at most 5 such values it shows them all |
| Validation.EmailWarningExact | src/validator.py:139-143 | the e-mail check warns exactly when the column name mentions "email" and some present value is not an address, and it counts those values |
| Validation.BusinessWarningsExact | src/validator.py:182-192 | warns about size exactly above 10000 rows; warns about titles exactly when a "Title" column has a repeat, giving the number of non-first occurrences; nothing else |
| Validation.RequiredFieldChecksExact | src/validator.py:194-204 | there are no more errors than required-field listings, and none exactly when every required field is present without missing or "" cells |
| Validation.RequiredFieldErrorPerListing | src/validator.py:196-204 | each listing of an absent required field gives one "Required field missing" error, and each listing of a present one with k > 0 missing-or-"" cells gives one error reporting k |
| Validation.ErrorPerListing | src/validator.py:198-204 | an error that a field gets alone occurs in the required-field errors once per listing of that field |
| Validation.RequiredFieldErrorsTrue | src/validator.py:198-204 | each required-field error names a listed field: missing from the table, or present with its positive missing-or-"" count |
| Validation.KeyErrorsExact | src/validator.py:235-237 | one error per key that does not match, about that key, and no other error |
| Validation.ProjectKeyErrorsExact | src/validator.py:233-237 | the project-key errors name exactly the present keys that do not match, each once |
| Validation.LongerIff | src/validator.py:213-214 | no cell is counted as too long exactly when every cell, read as text, is within the limit |
| Validation.NotAllowedIff | src/validator.py:228-229 | no cell is counted as invalid exactly when every cell is an allowed string |
| Validation.ProjectKeysIff | src/validator.py:233-237 | no project-key error exactly when every present key matches |
| Validation.ComplianceIff | src/validator.py:206-237 | no Jira error exactly when the length, issue-type and project-key rules hold on every cell |
| Validation.OutputValidIff | src/validator.py:89-94 | ready-for-import equals valid; valid holds exactly when every required field is present without missing or "" cells and the Jira rules hold |
| Validation.MostlyEmptyExact | src/validator.py:247-250 | a column is reported exactly when more than half its cells are missing, with its own count |
| Validation.EmptyRowWarningExact | src/validator.py:242-244 | the empty-row check warns exactly when some row has no present cell |
| Validation.SpecialCharWarningExact | src/validator.py:254-259 | a text column warns exactly when it is present and some cell holds a special character |
| Validation.MessagesExact | src/validator.py:286-287 | each item's line is that item's text |
| Validation.BulletsExact | src/validator.py:286-287 | each bullet is "    - " followed by its text |
| Validation.SectionLists | src/validator.py:284-292 | a section lists every one of its items |
| Validation.ReportFrame | src/validator.py:272-312 | the report opens with the title, a 50-"=" rule, the time, a blank line, the input heading and the input status; it shows the Jira Ready line and closes with the rule |
| Validation.ReportListsAll | src/validator.py:284-309 | the report lists every error and warning of both results |
| Validator.DataValidator.constructor | src/validator.py:26-35 | keeps the configuration and starts with empty lists |
| Validator.DataValidator.ValidateInputData | src/validator.py:37-65 | returns the input outcome whatever the lists held before (no accumulation); the fields then hold its errors and warnings |
| Validator.DataValidator.ValidateOutputData | src/validator.py:67-94 | returns the output outcome whatever the lists held before; the fields then hold its errors and warnings |
| Validator.DataValidator.ValidateStructure | src/validator.py:96-114 | appends the structure errors and warnings |
| Validator.DataValidator.ValidateFieldContent | src/validator.py:116-127 | appends the missing-expected-columns warning, then each column's format warnings in column order |
| Validator.DataValidator.ValidateColumnFormat | src/validator.py:129-151 | appends the column's e-mail, date and priority warnings, in that order |
| Validator.DataValidator.ValidateDateFormat | src/validator.py:153-169 | appends the date warning for the first unrecognized value among the first ten, if any |
| Validator.DataValidator.ValidatePriorityValues | src/validator.py:171-180 | appends the priority warning, if any |
| Validator.DataValidator.ValidateBusinessRules | src/validator.py:182-192 | appends the size and duplicate-title warnings |
| Validator.DataValidator.ValidateRequiredFields | src/validator.py:194-204 | appends one check per required field, in order |
| Validator.DataValidator.ValidateJiraCompliance | src/validator.py:206-237 | appends the summary, description, issue-type and project-key errors, in that order |
| Validator.DataValidator.ValidateDataQuality | src/validator.py:239-259 | appends the empty-row, mostly-empty and special-character warnings, in that order |
| Validator.DataValidator.GenerateValidationReport | src/validator.py:261-314 | returns the report lines joined with newlines |
| Validator.DataValidator.AppendSection | src/validator.py:284-287 | appends a section's heading and bullets, or nothing when it has no items |
| Pipeline.DefaultProjectKeyColumn | src/transformer.py:80-83 | with the default configuration a successful transformation has a "Project Key" column holding "PROJ" in every row |
| Pipeline.DefaultOutputKeysValid | src/validator.py:233-237 | hence the validator finds no project-key error in that output |

## Left out

- Reading and writing CSV files, the JSON configuration file, logging,
  `_show_preview` and `datetime.now()` are I/O. The input arrives as a table.
  The loaded configuration is a constructor argument. The report time is the
  `generated` parameter.
- The command-line front ends and the example drivers are not part of this
  model, and neither is the `main` example in `src/transformer.py`.
- Transformer.CSVTransformer.Transform: a loaded configuration file that
  leaves out `column_mappings`, `static_values`, `transformations`,
  `required_fields` or `jira_fields` makes `transform` raise KeyError where
  it first reads that key, and so fail. The model gives every configuration
  all five parts (an absent one is empty) and does not model that failure.
  The validator reads its keys with `.get` defaults, and for it an empty
  part is what an absent key means.
- Transformations.ParseTransformation: any name other than the three
  transformations fails the call. `getattr` would also find the class's
  other attributes (`transform`, `config`, `_load_config`, ...), and applying
  those to a cell fails in other ways or, for `_load_config`, succeeds. These
  names are not modelled.
- Configuration.Config: `column_mappings` is an association list that could
  repeat an output field. A Python dict holds each key once (`json.load`
  keeps the last value of a repeated key), so such configurations describe
  no program state, and nothing about them is claimed.
- Text.Lower: only ASCII letters are lower-cased. Python's `str.lower` also
  lower-cases letters outside ASCII, which matters for priorities and column
  names that contain such letters.
- pandas type inference is not modelled. Every present cell is text, so a
  numeric column that pandas reads as floats (e.g. "1.0") is not modelled.
- Configuration values of other JSON types are not modelled: non-string
  priorities, or a `null` length limit (which makes the comparison raise
  TypeError).
- Validator.DataValidator.ValidateStructure: the "no columns" test is left
  out. It comes after the emptiness test, which already covers a table
  without columns; the function `StructureErrors` keeps it and
  `NoColumnsNeverReported` proves it unreachable.
- Validator.DataValidator.ValidateColumnFormat: the `column not in df.columns`
  guard is left out. It is never true when called from the column loop.
- Repeated column names are partly modelled. The checks read them one column
  position at a time, and a lookup by name reads the first column of that
  name. In pandas such a lookup returns a sub-frame, and several checks other
  than the structure check would raise too.
- Formats.FieldValue: `strptime` is modelled only for the four layouts and
  their directives (field widths, ranges, calendar validity, whitespace for a
  blank), and only ASCII digits and ASCII whitespace are recognised, while
  `strptime`'s `\d` and `\s` also match Unicode digits and spaces. Its other behaviour (locale, case folding, more directives) is not
  modelled, and the example lemmas cover the three date-only layouts, not the
  date-and-time one.
- Formats.IsSpecialChar: the special-character class is exact on ASCII. Every
  non-ASCII character is treated as a word character, although some of them
  (symbols and punctuation outside ASCII) are special in Python's Unicode
  `\w`.
- Diagnostics.Percent: the `{:.1f}` percentage rounds the exact ratio half
  up. Float rounding is not modelled. The "more than 50%" test itself is the
  exact comparison `2 * missing > rows`.
- Python's `repr` of a list or a NumPy array in messages is not modelled
  exactly. Elements are quoted with `'` and not escaped, and long arrays are
  not wrapped.

## Findings

| source | as written | input that shows it | evidently intended | confidence | as-written member | corrected member |
|---|---|---|---|---|---|---|
| src/transformer.py:179-205 | `result_df` starts as `pd.DataFrame()` with no rows. A scalar assigned before any source column gives an empty column. The first copied source column reindexes the frame, so the earlier columns become NaN. With no copied column at all, the output has no rows | default configuration; an input with one row and one column "Priority" = "High" (no "Title") | every static value and blank fills every input row: "Issue Type" is "Test" | not executed | Alignment.StaticValueLost | Transformer.ProjectShape |
| src/validator.py:107-114 | with a repeated column name, `df[col]` is a sub-frame, so `df[col].isna().all()` is a Series; `if` on it raises ValueError, and the "Duplicate columns found" error is never returned | a one-row table with two columns named "A" | report the error "Duplicate columns found: ['A', 'A']" and return | not executed | Validation.DuplicateReportLost | Validation.DuplicatesReported |

`Alignment.ProjectAsWritten` models the projection loop as written.
`Alignment.OnlyScalarsNoRows` covers the case without a copied column.
`Transformer.Project` is the corrected projection. By
`Transformer.ProjectShape` and `Transformer.StaticValueWins`, each of its
columns is its field's column, and a static value fills every row.
`CSVTransformer` and the rest of the model use it.

`Validation.StructureAsWritten` models the structure check as written, and
`Validation.DuplicateReportLostExample` gives the concrete input.
`Validation.StructureErrors` is the corrected check. `DataValidator` and the
rest of the model use it.
