/** Small value wrappers and the sequence operations the converter relies on:
    Python's `list.count`, order-preserving de-duplication (`Series.unique`,
    assignment to an existing DataFrame column), `Series.duplicated` and
    list comprehensions with a condition. */
module Basics {

  datatype Option<+T> = None | Some(value: T)

  datatype Result<+T, +E> = Ok(value: T) | Err(error: E)

  /** Concatenation regroups freely. */
  lemma AppendAssoc<T>(a: seq<T>, b: seq<T>, c: seq<T>)
    ensures (a + b) + c == a + (b + c)
  {
  }

  /** The empty sequence is a left unit of concatenation. */
  lemma EmptyAppend<T>(s: seq<T>)
    ensures [] + s == s
  {
  }

  /** The empty sequence is a right unit of concatenation. */
  lemma AppendEmpty<T>(s: seq<T>)
    ensures s + [] == s
  {
  }

  /** No element occurs twice. */
  predicate Distinct<T(==)>(s: seq<T>) {
    forall i, j :: 0 <= i < j < |s| ==> s[i] != s[j]
  }

  /** `s.count(x)` */
  function Occurrences<T(==)>(s: seq<T>, x: T): (n: nat)
    ensures n <= |s|
    ensures n == 0 <==> x !in s
  {
    if s == [] then 0
    else Occurrences(s[..|s| - 1], x) + (if s[|s| - 1] == x then 1 else 0)
  }

  lemma {:induction false} OccurrencesAppend<T>(s: seq<T>, t: seq<T>, x: T)
    ensures Occurrences(s + t, x) == Occurrences(s, x) + Occurrences(t, x)
    decreases |t|
  {
    if t == [] {
      assert s + t == s;
    } else {
      assert (s + t)[..|s + t| - 1] == s + t[..|t| - 1];
      OccurrencesAppend(s, t[..|t| - 1], x);
    }
  }

  /** An element found at one position and nowhere else occurs once. */
  lemma OccursOnlyAt<T>(s: seq<T>, i: nat, x: T)
    requires i < |s| && s[i] == x
    requires forall k :: 0 <= k < |s| && k != i ==> s[k] != x
    ensures Occurrences(s, x) == 1
  {
    assert x !in s[..i];
    assert x !in s[i + 1..];
    assert s[..i + 1] == s[..i] + [x];
    OccurrencesAppend(s[..i], [x], x);
    assert s == s[..i + 1] + s[i + 1..];
    OccurrencesAppend(s[..i + 1], s[i + 1..], x);
  }

  /** Two equal elements at two positions make a count of at least two. */
  lemma TwoOccurrences<T>(s: seq<T>, i: nat, j: nat)
    requires i < j < |s| && s[i] == s[j]
    ensures Occurrences(s, s[i]) >= 2
  {
    assert s == s[..j] + s[j..];
    OccurrencesAppend(s[..j], s[j..], s[i]);
    assert s[..j][i] == s[i];
    assert s[j..][0] == s[i];
  }

  /** A distinct sequence holds each of its elements exactly once. */
  lemma {:induction false} DistinctOccursOnce<T>(s: seq<T>, x: T)
    requires Distinct(s) && x in s
    ensures Occurrences(s, x) == 1
    decreases |s|
  {
    var init := s[..|s| - 1];
    assert Distinct(init);
    if s[|s| - 1] == x {
      forall k | 0 <= k < |init|
        ensures init[k] != x
      {
        assert s[k] != s[|s| - 1];
      }
    } else {
      assert x in init by {
        var k :| 0 <= k < |s| && s[k] == x;
        assert k < |s| - 1 && init[k] == x;
      }
      DistinctOccursOnce(init, x);
    }
  }

  /** The elements of `s` that satisfy `p`, in their original order
      (a list comprehension with an `if`). */
  function Filter<T>(s: seq<T>, p: T -> bool): (r: seq<T>)
    ensures |r| <= |s|
  {
    if s == [] then []
    else Filter(s[..|s| - 1], p) + (if p(s[|s| - 1]) then [s[|s| - 1]] else [])
  }

  /** The filtered sequence holds exactly the elements that satisfy `p`. */
  lemma {:induction false} FilterMembers<T(!new)>(s: seq<T>, p: T -> bool)
    ensures forall x :: x in Filter(s, p) <==> x in s && p(x)
    decreases |s|
  {
    if s != [] {
      var last := s[|s| - 1];
      FilterMembers(s[..|s| - 1], p);
      assert s == s[..|s| - 1] + [last];
    }
  }

  /** Filtering keeps every occurrence of a kept element and no occurrence
      of a dropped one. */
  lemma {:induction false} FilterOccurrences<T(!new)>(s: seq<T>, p: T -> bool, x: T)
    ensures Occurrences(Filter(s, p), x) == if p(x) then Occurrences(s, x) else 0
    decreases |s|
  {
    if s != [] {
      var init, last := s[..|s| - 1], s[|s| - 1];
      FilterOccurrences(init, p, x);
      OccurrencesAppend(Filter(init, p), if p(last) then [last] else [], x);
    }
  }

  /** The number of elements of `s` that satisfy `p` (`mask.sum()`). */
  function Count<T>(s: seq<T>, p: T -> bool): nat {
    if s == [] then 0
    else Count(s[..|s| - 1], p) + (if p(s[|s| - 1]) then 1 else 0)
  }

  /** Nothing is counted exactly when no element satisfies `p`. */
  lemma {:induction false} CountZero<T>(s: seq<T>, p: T -> bool)
    ensures Count(s, p) == 0 <==> forall i :: 0 <= i < |s| ==> !p(s[i])
    decreases |s|
  {
    if s != [] {
      CountZero(s[..|s| - 1], p);
      assert forall i :: 0 <= i < |s| - 1 ==> s[..|s| - 1][i] == s[i];
    }
  }

  /** The positions a count adds up. */
  ghost function Positions<T>(s: seq<T>, p: T -> bool): set<nat> {
    set i: nat | i < |s| && p(s[i])
  }

  /** `Count` is the number of positions whose element satisfies `p`. */
  lemma {:induction false} CountIsPositions<T>(s: seq<T>, p: T -> bool)
    ensures Count(s, p) == |Positions(s, p)|
    decreases |s|
  {
    if s != [] {
      var n := |s| - 1;
      var init := s[..n];
      CountIsPositions(init, p);
      if p(s[n]) {
        assert Positions(s, p) == Positions(init, p) + {n};
        assert n !in Positions(init, p);
      } else {
        assert Positions(s, p) == Positions(init, p);
      }
    }
  }

  /** First occurrences of the elements of `s`, in order
      (`Series.unique`, or the column set of a frame built by assigning
      columns one name at a time). */
  function Dedup<T(==)>(s: seq<T>): (r: seq<T>)
    ensures |r| <= |s|
  {
    if s == [] then []
    else
      var d := Dedup(s[..|s| - 1]);
      if s[|s| - 1] in d then d else d + [s[|s| - 1]]
  }

  /** `Dedup` keeps every element once and nothing else. */
  lemma {:induction false} DedupMembers<T(!new)>(s: seq<T>)
    ensures forall x :: x in Dedup(s) <==> x in s
    ensures Distinct(Dedup(s))
    decreases |s|
  {
    if s != [] {
      var last := s[|s| - 1];
      DedupMembers(s[..|s| - 1]);
      assert s == s[..|s| - 1] + [last];
    }
  }

  /** De-duplicating a sequence without repetitions changes nothing. */
  lemma {:induction false} DedupOfDistinct<T(!new)>(s: seq<T>)
    requires Distinct(s)
    ensures Dedup(s) == s
    decreases |s|
  {
    if s != [] {
      var init := s[..|s| - 1];
      assert Distinct(init);
      DedupOfDistinct(init);
      DedupMembers(init);
      assert s[|s| - 1] !in init;
      assert s == init + [s[|s| - 1]];
    }
  }

  /** The number of elements equal to an earlier one
      (`Series.duplicated()` with its default `keep='first'`, summed). */
  function DuplicatedCount<T(==)>(s: seq<T>): nat {
    if s == [] then 0
    else DuplicatedCount(s[..|s| - 1]) + (if s[|s| - 1] in s[..|s| - 1] then 1 else 0)
  }

  /** Every element is either a first occurrence, kept by `Dedup`, or a
      repeat, counted by `DuplicatedCount`. */
  lemma {:induction false} DuplicatedCountSplit<T(!new)>(s: seq<T>)
    ensures DuplicatedCount(s) + |Dedup(s)| == |s|
    decreases |s|
  {
    if s != [] {
      DuplicatedCountSplit(s[..|s| - 1]);
      DedupMembers(s[..|s| - 1]);
    }
  }

  /** No element repeats an earlier one exactly when the sequence is `Distinct`. */
  lemma {:induction false} DuplicatedCountZero<T>(s: seq<T>)
    ensures DuplicatedCount(s) == 0 <==> Distinct(s)
    decreases |s|
  {
    if s != [] {
      var n := |s| - 1;
      var init := s[..n];
      DuplicatedCountZero(init);
      if Distinct(s) {
        assert Distinct(init);
        assert s[n] !in init;
      }
      if DuplicatedCount(s) == 0 {
        forall i, j | 0 <= i < j < |s|
          ensures s[i] != s[j]
        {
          if j < n {
            assert init[i] == s[i] && init[j] == s[j];
          } else {
            assert init[i] == s[i];
          }
        }
      }
    }
  }

  /** The first `n` elements, or all of them (`s[:n]`). */
  function Take<T>(s: seq<T>, n: nat): (r: seq<T>)
    ensures |r| <= n && |r| <= |s|
    ensures r == s[..|r|]
    ensures |s| <= n ==> r == s
  {
    if |s| <= n then s else s[..n]
  }
}
