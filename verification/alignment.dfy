/** The projection loop as pandas runs it. The output starts as an empty
    `DataFrame()` with no row index. Assigning a scalar gives a column as
    long as the index the frame has at that moment. The first assignment of
    a copied source column (a Series, carrying the input's row index)
    reindexes the frame, and every column assigned before it becomes
    missing in every row. `Transformer.Project` is the corrected
    projection, in which a scalar fills every input row. */
module Alignment {
  import opened Basics
  import opened Frames
  import opened Configuration
  import opened Diagnostics
  import opened Transformations
  import opened Transformer

  /** The scalar a field assigns: its static value, or "" when its source
      column is absent or it is not configured. `None` when it assigns a
      copy of a source column. */
  function FieldScalar(cfg: Config, df: Frame, f: string): (r: Option<string>)
    ensures r.Some? ==> FieldColumn(cfg, df, f) == Ok(Constant(Str(r.value), df.rowCount))
    ensures r.None? <==>
              && f !in cfg.staticValues
              && MappingFor(cfg.columnMappings, f).Some?
              && MappingFor(cfg.columnMappings, f).value in df.names
  {
    if f in cfg.staticValues then Some(cfg.staticValues[f])
    else match MappingFor(cfg.columnMappings, f)
      case None => Some("")
      case Some(src) => if src !in df.names then Some("") else None
  }

  /** `reindex(..., fill_value=NaN)` of every existing column onto `n` new rows. */
  function Reindexed(cols: seq<seq<Value>>, n: nat): (r: seq<seq<Value>>)
    ensures |r| == |cols| && forall j :: 0 <= j < |r| ==> r[j] == Constant(Missing, n)
  {
    seq(|cols|, j requires 0 <= j < |cols| => Constant(Missing, n))
  }

  /** A projection together with the length of the output's row index. */
  datatype AlignedProjection = Aligned(projection: Projection, rows: nat)

  /** `_apply_transformations` as written, over the schema slots `fields`. */
  function ProjectAsWritten(cfg: Config, df: Frame, fields: seq<string>): (a: AlignedProjection)
    ensures a.projection.outcome.Ok? ==> |a.projection.outcome.value.1| == |a.projection.outcome.value.0|
    ensures a.rows == 0 || a.rows == df.rowCount
    decreases |fields|
  {
    if fields == [] then Aligned(Projection(Ok(([], [])), []), 0)
    else
      var prev := ProjectAsWritten(cfg, df, fields[..|fields| - 1]);
      var f := fields[|fields| - 1];
      if prev.projection.outcome.Err? then prev
      else
        var w := prev.projection.warnings + FieldWarning(cfg, df, f);
        var (names, cols) := prev.projection.outcome.value;
        match FieldColumn(cfg, df, f)
        case Err(e) => Aligned(Projection(Err(e), w), prev.rows)
        case Ok(c) =>
          match FieldScalar(cfg, df, f)
          case Some(v) =>
            Aligned(Projection(Ok(Assign(names, cols, f, Constant(Str(v), prev.rows))), w), prev.rows)
          case None =>
            if prev.rows == 0 && df.rowCount > 0 then
              Aligned(Projection(Ok(Assign(names, Reindexed(cols, df.rowCount), f, c)), w), df.rowCount)
            else
              Aligned(Projection(Ok(Assign(names, cols, f, c)), w), prev.rows)
  }

  /** One more schema slot of the code as written. */
  lemma AsWrittenStep(cfg: Config, df: Frame, fields: seq<string>, i: nat)
    requires i < |fields| && ProjectAsWritten(cfg, df, fields[..i]).projection.outcome.Ok?
    ensures var prev := ProjectAsWritten(cfg, df, fields[..i]);
            var next := ProjectAsWritten(cfg, df, fields[..i + 1]);
            var f := fields[i];
            var names := prev.projection.outcome.value.0;
            var cols := prev.projection.outcome.value.1;
              && next.projection.warnings == prev.projection.warnings + FieldWarning(cfg, df, f)
              && (FieldColumn(cfg, df, f).Err? ==>
                    next.projection.outcome == Err(FieldColumn(cfg, df, f).error) && next.rows == prev.rows)
              && (FieldColumn(cfg, df, f).Ok? && FieldScalar(cfg, df, f).Some? ==>
                    && next.projection.outcome
                       == Ok(Assign(names, cols, f, Constant(Str(FieldScalar(cfg, df, f).value), prev.rows)))
                    && next.rows == prev.rows)
              && (FieldColumn(cfg, df, f).Ok? && FieldScalar(cfg, df, f).None? && prev.rows == 0 && df.rowCount > 0 ==>
                    && next.projection.outcome
                       == Ok(Assign(names, Reindexed(cols, df.rowCount), f, FieldColumn(cfg, df, f).value))
                    && next.rows == df.rowCount)
              && (FieldColumn(cfg, df, f).Ok? && FieldScalar(cfg, df, f).None? && !(prev.rows == 0 && df.rowCount > 0) ==>
                    && next.projection.outcome == Ok(Assign(names, cols, f, FieldColumn(cfg, df, f).value))
                    && next.rows == prev.rows)
  {
    assert fields[..i + 1][..i] == fields[..i];
  }

  /** Every column is as long as the row index, and the column names are
      the schema names without repetitions, as in the corrected projection. */
  lemma {:induction false} AsWrittenShape(cfg: Config, df: Frame, fields: seq<string>)
    ensures var a := ProjectAsWritten(cfg, df, fields);
              a.projection.outcome.Ok? ==>
                && a.projection.outcome.value.0 == Dedup(fields)
                && forall j :: 0 <= j < |a.projection.outcome.value.1| ==> |a.projection.outcome.value.1[j]| == a.rows
    decreases |fields|
  {
    if fields != [] {
      var n := |fields| - 1;
      AsWrittenShape(cfg, df, fields[..n]);
      assert fields[..n + 1] == fields;
      if ProjectAsWritten(cfg, df, fields[..n]).projection.outcome.Ok? {
        AsWrittenStep(cfg, df, fields, n);
        var c := FieldColumn(cfg, df, fields[n]);
        if c.Ok? {
          assert |c.value| == df.rowCount;
        }
      }
    }
  }

  /** The code as written fails, and warns, exactly as the corrected
      projection does: only cells differ. */
  lemma {:induction false} AsWrittenWarnsAlike(cfg: Config, df: Frame, fields: seq<string>)
    ensures ProjectAsWritten(cfg, df, fields).projection.outcome.Ok? <==> Project(cfg, df, fields).outcome.Ok?
    ensures ProjectAsWritten(cfg, df, fields).projection.outcome.Err? ==>
              ProjectAsWritten(cfg, df, fields).projection.outcome.error == Project(cfg, df, fields).outcome.error
    ensures ProjectAsWritten(cfg, df, fields).projection.warnings == Project(cfg, df, fields).warnings
    decreases |fields|
  {
    if fields != [] {
      AsWrittenWarnsAlike(cfg, df, fields[..|fields| - 1]);
    }
  }

  /** When the first schema field copies a source column, the row index is
      set before any scalar is assigned, and the code as written builds the
      corrected table. */
  lemma {:induction false} AsWrittenAgreesAfterSource(cfg: Config, df: Frame, fields: seq<string>)
    requires fields != [] && FieldScalar(cfg, df, fields[0]).None? && df.rowCount > 0
    ensures ProjectAsWritten(cfg, df, fields).projection == Project(cfg, df, fields)
    ensures ProjectAsWritten(cfg, df, fields).projection.outcome.Ok? ==>
              ProjectAsWritten(cfg, df, fields).rows == df.rowCount
    decreases |fields|
  {
    var n := |fields| - 1;
    var init := fields[..n];
    assert fields[..n + 1] == fields;
    if init == [] {
      assert ProjectAsWritten(cfg, df, init).projection == Project(cfg, df, init);
    } else {
      assert init[0] == fields[0];
      AsWrittenAgreesAfterSource(cfg, df, init);
    }
    if Project(cfg, df, init).outcome.Ok? {
      ProjectStep(cfg, df, fields, n);
      AsWrittenStep(cfg, df, fields, n);
      if init == [] {
        assert Reindexed([], df.rowCount) == [];
      }
    }
  }

  /** A schema whose every field assigns a scalar builds a table without rows. */
  lemma {:induction false} OnlyScalarsNoRows(cfg: Config, df: Frame, fields: seq<string>)
    requires forall k :: 0 <= k < |fields| ==> FieldScalar(cfg, df, fields[k]).Some?
    ensures ProjectAsWritten(cfg, df, fields).projection.outcome.Ok?
    ensures ProjectAsWritten(cfg, df, fields).rows == 0
    decreases |fields|
  {
    if fields != [] {
      var init := fields[..|fields| - 1];
      assert forall k :: 0 <= k < |init| ==> init[k] == fields[k];
      OnlyScalarsNoRows(cfg, df, init);
    }
  }

  /** When the first field that copies a source column comes after fields
      that assign scalars, every column other than its own is missing in
      every row once it is assigned. */
  lemma ScalarsBeforeFirstSourceAreLost(cfg: Config, df: Frame, fields: seq<string>, i: nat)
    requires i < |fields| && df.rowCount > 0
    requires forall k :: 0 <= k < i ==> FieldScalar(cfg, df, fields[k]).Some?
    requires FieldScalar(cfg, df, fields[i]).None? && FieldColumn(cfg, df, fields[i]).Ok?
    ensures var a := ProjectAsWritten(cfg, df, fields[..i + 1]);
              && a.projection.outcome.Ok? && a.rows == df.rowCount
              && a.projection.outcome.value.0 == Dedup(fields[..i + 1])
              && forall j :: 0 <= j < |a.projection.outcome.value.0| && a.projection.outcome.value.0[j] != fields[i] ==>
                   a.projection.outcome.value.1[j] == Constant(Missing, df.rowCount)
  {
    var before := fields[..i];
    assert fields[..i + 1][..i] == before;
    assert forall k :: 0 <= k < i ==> before[k] == fields[k];
    OnlyScalarsNoRows(cfg, df, before);
    AsWrittenShape(cfg, df, fields[..i + 1]);
    AsWrittenStep(cfg, df, fields, i);
    var prev := ProjectAsWritten(cfg, df, before).projection.outcome.value;
    var r := ProjectAsWritten(cfg, df, fields[..i + 1]).projection.outcome.value;
    forall j | 0 <= j < |r.0| && r.0[j] != fields[i]
      ensures r.1[j] == Constant(Missing, df.rowCount)
    {
      assert j < |prev.0|;
    }
  }

  /** A run that succeeds succeeded on every prefix of the schema. */
  lemma {:induction false} AsWrittenPrefixOk(cfg: Config, df: Frame, fields: seq<string>, m: nat)
    requires m <= |fields| && ProjectAsWritten(cfg, df, fields).projection.outcome.Ok?
    ensures ProjectAsWritten(cfg, df, fields[..m]).projection.outcome.Ok?
    decreases |fields| - m
  {
    if m < |fields| {
      var init := fields[..|fields| - 1];
      assert init[..m] == fields[..m];
      AsWrittenPrefixOk(cfg, df, init, m);
    } else {
      assert fields[..m] == fields;
    }
  }

  /** Once the row index is set, assigning field `m` leaves a column of
      another name as it was. */
  lemma AsWrittenKeepsColumn(cfg: Config, df: Frame, fields: seq<string>, m: nat, j: nat)
    requires m < |fields|
    requires ProjectAsWritten(cfg, df, fields[..m + 1]).projection.outcome.Ok?
    requires ProjectAsWritten(cfg, df, fields[..m]).projection.outcome.Ok?
    requires ProjectAsWritten(cfg, df, fields[..m]).rows == df.rowCount
    requires j < |ProjectAsWritten(cfg, df, fields[..m]).projection.outcome.value.0|
    requires ProjectAsWritten(cfg, df, fields[..m]).projection.outcome.value.0[j] != fields[m]
    ensures ProjectAsWritten(cfg, df, fields[..m + 1]).rows == df.rowCount
    ensures var next := ProjectAsWritten(cfg, df, fields[..m + 1]).projection.outcome.value;
            var prev := ProjectAsWritten(cfg, df, fields[..m]).projection.outcome.value;
              j < |next.0| && next.0[j] == prev.0[j] && next.1[j] == prev.1[j]
  {
    AsWrittenStep(cfg, df, fields, m);
  }

  /** Once the row index is set, later assignments leave every column whose
      name they do not assign as it was. */
  lemma {:induction false} LaterFieldsKeep(cfg: Config, df: Frame, fields: seq<string>, n: nat, j: nat)
    requires n <= |fields|
    requires ProjectAsWritten(cfg, df, fields).projection.outcome.Ok?
    requires ProjectAsWritten(cfg, df, fields[..n]).projection.outcome.Ok?
    requires ProjectAsWritten(cfg, df, fields[..n]).rows == df.rowCount
    requires j < |ProjectAsWritten(cfg, df, fields[..n]).projection.outcome.value.0|
    requires ProjectAsWritten(cfg, df, fields[..n]).projection.outcome.value.0[j] !in fields[n..]
    ensures ProjectAsWritten(cfg, df, fields).rows == df.rowCount
    ensures var full := ProjectAsWritten(cfg, df, fields).projection.outcome.value;
            var part := ProjectAsWritten(cfg, df, fields[..n]).projection.outcome.value;
              j < |full.0| && full.0[j] == part.0[j] && full.1[j] == part.1[j]
    decreases |fields| - n
  {
    if n == |fields| {
      assert fields[..n] == fields;
    } else {
      var m := |fields| - 1;
      var init := fields[..m];
      assert init[..n] == fields[..n];
      assert init[n..] <= fields[n..];
      AsWrittenPrefixOk(cfg, df, fields, m);
      LaterFieldsKeep(cfg, df, init, n, j);
      assert fields[m] in fields[n..];
      assert fields[..m + 1] == fields;
      AsWrittenKeepsColumn(cfg, df, fields, m, j);
    }
  }

  /** In a schema without repeated names whose every field has a column,
      both projections succeed with the schema as their column names. */
  lemma BothSucceed(cfg: Config, df: Frame, fields: seq<string>)
    requires Distinct(fields)
    requires forall k :: 0 <= k < |fields| ==> FieldColumn(cfg, df, fields[k]).Ok?
    ensures var a := ProjectAsWritten(cfg, df, fields);
            var p := Project(cfg, df, fields);
              && a.projection.outcome.Ok? && p.outcome.Ok?
              && a.projection.outcome.value.0 == p.outcome.value.0 == fields
              && forall k :: 0 <= k < |fields| ==> Ok(p.outcome.value.1[k]) == FieldColumn(cfg, df, fields[k])
  {
    DedupOfDistinct(fields);
    ProjectSucceeds(cfg, df, fields);
    AsWrittenWarnsAlike(cfg, df, fields);
    AsWrittenShape(cfg, df, fields);
    ProjectShape(cfg, df, fields);
  }

  /** In such a schema, the field at `k`, which assigns a scalar before the
      first field `i` that copies a source column, ends up missing in every
      row of the output as written. */
  lemma ScalarLostAt(cfg: Config, df: Frame, fields: seq<string>, i: nat, k: nat)
    requires k < i < |fields| && df.rowCount > 0 && Distinct(fields)
    requires forall m :: 0 <= m < i ==> FieldScalar(cfg, df, fields[m]).Some?
    requires FieldScalar(cfg, df, fields[i]).None?
    requires forall m :: 0 <= m < |fields| ==> FieldColumn(cfg, df, fields[m]).Ok?
    ensures var a := ProjectAsWritten(cfg, df, fields);
              && a.projection.outcome.Ok? && k < |a.projection.outcome.value.1|
              && a.projection.outcome.value.1[k] == Constant(Missing, df.rowCount)
  {
    ScalarsBeforeFirstSourceAreLost(cfg, df, fields, i);
    var prefix := fields[..i + 1];
    assert Distinct(prefix);
    DedupOfDistinct(prefix);
    BothSucceed(cfg, df, fields);
    assert prefix[k] == fields[k] && fields[k] != fields[i];
    assert fields[k] !in fields[i + 1..];
    LaterFieldsKeep(cfg, df, fields, i + 1, k);
  }

  /** A column missing in every row counts every row as missing. */
  lemma {:induction false} MissingCountsAll(n: nat)
    ensures CountMissingOrBlank(Constant(Missing, n)) == n
  {
    if n > 0 {
      MissingCountsAll(n - 1);
      assert Constant(Missing, n)[..n - 1] == Constant(Missing, n - 1);
    }
  }

  /** The mappings of the default configuration that the example below uses. */
  lemma DefaultMappings()
    ensures MappingFor(DefaultConfig.columnMappings, "Summary") == Some("Title")
    ensures MappingFor(DefaultConfig.columnMappings, "Priority") == Some("Priority")
    ensures MappingFor(DefaultConfig.columnMappings, "Component") == Some("Section")
    ensures MappingFor(DefaultConfig.columnMappings, "Description") == Some("Preconditions")
    ensures MappingFor(DefaultConfig.columnMappings, "Labels").None?
  {
    var m := DefaultConfig.columnMappings;
    assert m[2] == ("Priority", "Priority");
    assert forall k :: 0 <= k < |m| ==> m[k].0 != "Labels";
    MappingForFinds(m, "Labels");
  }

  /** The default schema names no field twice. */
  lemma DefaultSchemaDistinct()
    ensures Distinct(DefaultConfig.jiraFields)
  {
    DefaultSchemaIsOutputColumns();
    DedupMembers(DefaultConfig.jiraFields);
  }

  /** How the default schema treats an input with a "Priority" column and
      no "Title", "Section" or "Preconditions" column: "Priority" copies its
      column, and every other field assigns a scalar. */
  lemma PriorityOnlyFields(df: Frame)
    requires "Priority" in df.names
    requires "Title" !in df.names && "Section" !in df.names && "Preconditions" !in df.names
    ensures var fields := DefaultConfig.jiraFields;
              && FieldScalar(DefaultConfig, df, fields[0]) == Some("")
              && FieldScalar(DefaultConfig, df, fields[1]) == Some("Test")
              && FieldScalar(DefaultConfig, df, fields[2]).None?
              && (forall k :: 0 <= k < 2 ==> FieldScalar(DefaultConfig, df, fields[k]).Some?)
              && forall k :: 0 <= k < |fields| ==> FieldColumn(DefaultConfig, df, fields[k]).Ok?
  {
    var fields := DefaultConfig.jiraFields;
    DefaultMappings();
    PriorityCopied(df);
    assert FieldScalar(DefaultConfig, df, fields[0]) == Some("");
    assert FieldScalar(DefaultConfig, df, fields[1]) == Some("Test");
  }

  /** The "Priority" field of the default schema maps an existing "Priority"
      column, so it copies a column rather than assigning a scalar. */
  lemma PriorityCopied(df: Frame)
    requires "Priority" in df.names
    ensures DefaultConfig.jiraFields[2] == "Priority"
    ensures FieldScalar(DefaultConfig, df, "Priority").None?
    ensures MapColumn(MapPriority, Column(df, "Priority")).Ok?
    ensures FieldColumn(DefaultConfig, df, "Priority")
            == Ok(MapColumn(MapPriority, Column(df, "Priority")).value)
  {
    DefaultMappings();
    assert ParseTransformation(DefaultConfig.transformations["Priority"]) == Some(MapPriority);
    MapColumnCells(MapPriority, Column(df, "Priority"));
  }

  /** With the default configuration and such an input, "Summary" and
      "Issue Type" are assigned before "Priority" sets the row index, so
      the code as written leaves them missing in every row, and its output
      check counts every row as missing "Issue Type"; the corrected
      projection has "Test" in every row. */
  lemma StaticValueLost(df: Frame)
    requires df.rowCount > 0 && "Priority" in df.names
    requires "Title" !in df.names && "Section" !in df.names && "Preconditions" !in df.names
    ensures var a := ProjectAsWritten(DefaultConfig, df, DefaultConfig.jiraFields);
            var p := Project(DefaultConfig, df, DefaultConfig.jiraFields);
              && a.projection.outcome.Ok? && p.outcome.Ok?
              && a.projection.outcome.value.0 == p.outcome.value.0 == DefaultConfig.jiraFields
              && a.projection.outcome.value.1[0] == Constant(Missing, df.rowCount)
              && a.projection.outcome.value.1[1] == Constant(Missing, df.rowCount)
              && CountMissingOrBlank(a.projection.outcome.value.1[1]) == df.rowCount
              && p.outcome.value.1[1] == Constant(Str("Test"), df.rowCount)
  {
    var fields := DefaultConfig.jiraFields;
    PriorityOnlyFields(df);
    DefaultSchemaDistinct();
    BothSucceed(DefaultConfig, df, fields);
    ScalarLostAt(DefaultConfig, df, fields, 2, 0);
    ScalarLostAt(DefaultConfig, df, fields, 2, 1);
    MissingCountsAll(df.rowCount);
  }
}
