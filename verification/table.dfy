/** The in-memory table (a pandas DataFrame read from CSV): an ordered
    list of column names, one column of cells per name, and a row count.
    A cell holds a string or is missing (pandas' NaN). Duplicate column
    names are representable. */
module Frames {
  import opened Basics

  datatype Value = Missing | Str(s: string)

  datatype Table = Table(names: seq<string>, columns: seq<seq<Value>>, rowCount: nat)

  /** One column per name, every column `rowCount` cells long. */
  predicate Rectangular(t: Table) {
    && |t.columns| == |t.names|
    && forall j :: 0 <= j < |t.columns| ==> |t.columns[j]| == t.rowCount
  }

  type Frame = t: Table | Rectangular(t) witness Table([], [], 0)

  /** `df.empty`: no rows or no columns. */
  predicate IsEmpty(t: Frame) {
    t.rowCount == 0 || |t.names| == 0
  }

  /** `str(v)` as `astype(str)` produces it: a missing cell reads "nan". */
  function AsStr(v: Value): string {
    match v
    case Missing => "nan"
    case Str(s) => s
  }

  /** The index of the first column called `name`. */
  function ColumnIndex(names: seq<string>, name: string): (r: Option<nat>)
    ensures r.Some? ==> r.value < |names| && names[r.value] == name
    ensures r.Some? ==> forall j :: 0 <= j < r.value ==> names[j] != name
    ensures r.None? <==> name !in names
  {
    if names == [] then None
    else if names[0] == name then Some(0)
    else match ColumnIndex(names[1..], name)
      case None => None
      case Some(k) => Some(k + 1)
  }

  /** `df[name]`, reading the first column of that name. */
  function Column(t: Frame, name: string): (r: seq<Value>)
    requires name in t.names
    ensures |r| == t.rowCount
  {
    t.columns[ColumnIndex(t.names, name).value]
  }

  /** A column holding `v` in each of `n` rows (assignment of a scalar). */
  function Constant(v: Value, n: nat): (r: seq<Value>)
    ensures |r| == n && forall i :: 0 <= i < n ==> r[i] == v
  {
    if n == 0 then [] else Constant(v, n - 1) + [v]
  }

  predicate IsMissing(v: Value) {
    v.Missing?
  }

  predicate IsMissingOrBlank(v: Value) {
    v == Missing || v == Str("")
  }

  /** `col.isna().sum()` */
  function CountMissing(col: seq<Value>): nat {
    Count(col, IsMissing)
  }

  /** `col.isna().sum() + (col == "").sum()` */
  function CountMissingOrBlank(col: seq<Value>): nat {
    Count(col, IsMissingOrBlank)
  }

  /** `col.dropna().astype(str)`: the present cells, in order. */
  function Present(col: seq<Value>): (r: seq<string>)
    ensures |r| <= |col|
  {
    if col == [] then []
    else
      var last := col[|col| - 1];
      Present(col[..|col| - 1]) + (if last.Str? then [last.s] else [])
  }

  /** The present cells are exactly the string cells. */
  lemma {:induction false} PresentMembers(col: seq<Value>)
    ensures forall s :: s in Present(col) <==> Str(s) in col
    decreases |col|
  {
    if col != [] {
      var last := col[|col| - 1];
      PresentMembers(col[..|col| - 1]);
      assert col == col[..|col| - 1] + [last];
    }
  }

  /** `df.isnull().all(axis=1)` at row `i`. */
  predicate RowAllMissing(t: Frame, i: nat)
    requires i < t.rowCount
  {
    forall j :: 0 <= j < |t.columns| ==> t.columns[j][i].Missing?
  }

  /** `df.isnull().all(axis=1).sum()` */
  function CountAllMissingRows(t: Frame, n: nat): (r: nat)
    requires n <= t.rowCount
    ensures r <= n
  {
    if n == 0 then 0
    else CountAllMissingRows(t, n - 1) + (if RowAllMissing(t, n - 1) then 1 else 0)
  }

  /** No row among the first `n` is counted exactly when none of them is all missing. */
  lemma {:induction false} CountAllMissingRowsZero(t: Frame, n: nat)
    requires n <= t.rowCount
    ensures CountAllMissingRows(t, n) == 0 <==> forall i :: 0 <= i < n ==> !RowAllMissing(t, i)
    decreases n
  {
    if n > 0 {
      CountAllMissingRowsZero(t, n - 1);
    }
  }

  /** Row `i` as a pandas Series: (column name, cell) pairs. */
  function RowOf(t: Frame, i: nat): (r: seq<(string, Value)>)
    requires i < t.rowCount
    ensures |r| == |t.names|
  {
    seq(|t.names|, j requires 0 <= j < |t.names| => (t.names[j], t.columns[j][i]))
  }
}
