/** Facts about sequences, finite sets and counting that several models share. */
module Sequences {

  /** The elements of `s` that satisfy `keep`, in order. */
  function Filter<T>(s: seq<T>, keep: T -> bool): seq<T> {
    if s == [] then []
    else (if keep(s[0]) then [s[0]] else []) + Filter(s[1..], keep)
  }

  lemma {:induction false} FilterConcat<T>(a: seq<T>, b: seq<T>, keep: T -> bool)
    ensures Filter(a + b, keep) == Filter(a, keep) + Filter(b, keep)
  {
    if a == [] {
      assert a + b == b;
    } else {
      FilterConcat(a[1..], b, keep);
      var head := if keep(a[0]) then [a[0]] else [];
      assert (a + b)[1..] == a[1..] + b && (a + b)[0] == a[0];
      assert head + (Filter(a[1..], keep) + Filter(b, keep)) == (head + Filter(a[1..], keep)) + Filter(b, keep);
    }
  }

  lemma FilterNone<T>(s: seq<T>, keep: T -> bool)
    requires forall x :: x in s ==> !keep(x)
    ensures Filter(s, keep) == []
  {
  }

  /** `a` can be obtained from `b` by deleting elements. */
  predicate Subseq<T(==)>(a: seq<T>, b: seq<T>) {
    a == [] ||
    (b != [] && ((a[0] == b[0] && Subseq(a[1..], b[1..])) || Subseq(a, b[1..])))
  }

  lemma SubseqReflexive<T>(a: seq<T>)
    ensures Subseq(a, a)
  {
  }

  lemma {:induction false} SubseqPrepend<T>(a: seq<T>, z: seq<T>, y: seq<T>)
    requires Subseq(a, y)
    ensures Subseq(a, z + y)
  {
    if z == [] {
      assert z + y == y;
    } else {
      SubseqPrepend(a, z[1..], y);
      assert (z + y)[1..] == z[1..] + y;
    }
  }

  /** Splicing `z` into `x + y` keeps every subsequence. */
  lemma {:induction false} SubseqSplice<T>(a: seq<T>, x: seq<T>, z: seq<T>, y: seq<T>)
    requires Subseq(a, x + y)
    ensures Subseq(a, x + z + y)
    decreases |x|
  {
    if a == [] {
    } else if x == [] {
      assert x + y == y && x + z + y == z + y;
      SubseqPrepend(a, z, y);
    } else {
      var b, c := x + y, x + z + y;
      assert b[1..] == x[1..] + y && c[1..] == x[1..] + z + y;
      if a[0] == b[0] && Subseq(a[1..], b[1..]) {
        SubseqSplice(a[1..], x[1..], z, y);
      } else {
        SubseqSplice(a, x[1..], z, y);
      }
    }
  }

  /** The first occurrence of every element, in order. */
  function Dedup<T(==)>(s: seq<T>): seq<T> {
    if s == [] then []
    else
      var front := Dedup(s[..|s| - 1]);
      if s[|s| - 1] in s[..|s| - 1] then front else front + [s[|s| - 1]]
  }

  predicate Distinct<T(==)>(s: seq<T>) {
    forall i, j :: 0 <= i < j < |s| ==> s[i] != s[j]
  }

  lemma {:induction false} DedupMeaning<T>(s: seq<T>)
    ensures forall x :: x in Dedup(s) <==> x in s
    ensures Distinct(Dedup(s))
  {
    if s != [] {
      var front, last := s[..|s| - 1], s[|s| - 1];
      DedupMeaning(front);
      assert s == front + [last];
      assert forall x :: x in s <==> x in front || x == last;
    }
  }

  lemma DedupAppend<T>(s: seq<T>, x: T)
    ensures Dedup(s + [x]) == if x in Dedup(s) then Dedup(s) else Dedup(s) + [x]
  {
    assert (s + [x])[..|s|] == s;
    DedupMeaning(s);
  }

  /** The set of elements of a sequence. */
  function Elements<T>(s: seq<T>): set<T> {
    set x | x in s
  }

  /** A sequence has no repetition exactly when it is as long as its set of elements. */
  lemma {:induction false} DistinctCardinality<T>(s: seq<T>)
    ensures |Elements(s)| <= |s|
    ensures Distinct(s) <==> |Elements(s)| == |s|
  {
    if s != [] {
      var front, last := s[..|s| - 1], s[|s| - 1];
      DistinctCardinality(front);
      assert s == front + [last];
      assert Elements(s) == Elements(front) + {last};
      if last in front {
        assert Elements(s) == Elements(front);
        var i :| 0 <= i < |front| && front[i] == last;
        assert s[i] == s[|s| - 1];
      } else {
        if Distinct(front) {
          assert Distinct(s);
        } else {
          assert forall i :: 0 <= i < |front| ==> s[i] == front[i];
        }
      }
    }
  }
}
