/** Properties of the whole conversion: what the validator says about a
    table the transformer produced. */
module Pipeline {
  import opened Basics
  import opened Frames
  import opened Configuration
  import opened Formats
  import opened Transformer
  import opened Validation

  /** With the built-in configuration, a successful transformation puts the
      project key "PROJ" in every row. */
  lemma DefaultProjectKeyColumn(input: Frame, outputFile: string, preview: bool)
    requires TransformOutcome(DefaultConfig, input, outputFile, preview).Succeeded?
    ensures var out := TransformOutcome(DefaultConfig, input, outputFile, preview).output;
              && "Project Key" in out.names
              && Column(out, "Project Key") == Constant(Str("PROJ"), input.rowCount)
  {
    TransformSucceeds(DefaultConfig, input, outputFile, preview);
    DefaultSchemaIsOutputColumns();
    var out := TransformOutcome(DefaultConfig, input, outputFile, preview).output;
    assert out.names == DefaultConfig.jiraFields;
    assert out.names[5] == "Project Key";
    var k := ColumnIndex(out.names, "Project Key").value;
    StaticValueWins(DefaultConfig, input, "Project Key");
    assert FieldColumn(DefaultConfig, input, out.names[k]) == Ok(out.columns[k]);
  }

  /** Hence the output of such a transformation never fails the
      validator's project-key format check. */
  lemma DefaultOutputKeysValid(input: Frame, outputFile: string, preview: bool)
    requires TransformOutcome(DefaultConfig, input, outputFile, preview).Succeeded?
    ensures ProjectKeyErrors(TransformOutcome(DefaultConfig, input, outputFile, preview).output) == []
  {
    var out := TransformOutcome(DefaultConfig, input, outputFile, preview).output;
    DefaultProjectKeyColumn(input, outputFile, preview);
    ProjectKeyExamples();
    ProjectKeysIff(out);
  }
}
