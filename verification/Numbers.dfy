/** Clamping, sums and maxima over exact reals that the arithmetic models share. */
module Numbers {

  function MaxOf(x: real, y: real): real { if x >= y then x else y }

  function MinOf(x: real, y: real): real { if x <= y then x else y }

  /** `clamp01` */
  function Clamp01(x: real): real { MaxOf(0.0, MinOf(1.0, x)) }

  lemma Nonnegative(a: real, b: real)
    requires a >= 0.0 && b >= 0.0
    ensures a * b >= 0.0
  {
  }

  lemma Positive(a: real, b: real)
    requires a > 0.0 && b > 0.0
    ensures a * b > 0.0
  {
  }

  lemma Distributes(a: real, b: real, c: real)
    ensures (a + b) * c == a * c + b * c
    ensures (a - b) * c == a * c - b * c
  {
  }

  lemma Monotone(a: real, b: real, c: real)
    requires a <= b && c >= 0.0
    ensures a * c <= b * c
  {
    Nonnegative(b - a, c);
    Distributes(b, a, c);
  }

  lemma StrictlyMonotone(a: real, b: real, c: real)
    requires a < b && c > 0.0
    ensures a * c < b * c
  {
    Positive(b - a, c);
    Distributes(b, a, c);
  }

  /** Comparing a quotient is comparing its numerator. */
  lemma Quotient(x: real, t: real, lo: real, hi: real)
    requires t > 0.0 && lo * t <= x <= hi * t
    ensures lo <= x / t <= hi
    ensures x / t * t == x
  {
    var q := x / t;
    assert q * t == x;
    if q < lo {
      StrictlyMonotone(q, lo, t);
      assert false;
    }
    if q > hi {
      StrictlyMonotone(hi, q, t);
      assert false;
    }
  }

  lemma StrictQuotient(x: real, t: real, lo: real, hi: real)
    requires t > 0.0 && lo * t < x < hi * t
    ensures lo < x / t < hi
  {
    Quotient(x, t, lo, hi);
    var q := x / t;
    assert q * t == x;
    assert q != lo && q != hi;
  }

  function SumBy<T>(s: seq<T>, f: T -> real): real {
    if s == [] then 0.0 else f(s[0]) + SumBy(s[1..], f)
  }

  lemma {:induction false} SumByConcat<T>(a: seq<T>, b: seq<T>, f: T -> real)
    ensures SumBy(a + b, f) == SumBy(a, f) + SumBy(b, f)
  {
    if a == [] {
      assert a + b == b;
    } else {
      assert (a + b)[1..] == a[1..] + b;
      SumByConcat(a[1..], b, f);
    }
  }

  /** Where the head of `a` stands in a permutation `b`. */
  lemma HeadIn<T>(a: seq<T>, b: seq<T>) returns (i: nat)
    requires multiset(a) == multiset(b) && a != []
    ensures i < |b| && b[i] == a[0]
    ensures multiset(a[1..]) == multiset(b[..i] + b[i + 1..])
  {
    assert a[0] in multiset(b);
    i :| 0 <= i < |b| && b[i] == a[0];
    assert b == b[..i] + ([b[i]] + b[i + 1..]);
    assert a == [a[0]] + a[1..];
    assert multiset(a[1..]) == multiset(a) - multiset{a[0]};
  }

  /** A sum does not depend on the order of its terms. */
  lemma {:induction false} SumByPermutation<T>(a: seq<T>, b: seq<T>, f: T -> real)
    requires multiset(a) == multiset(b)
    ensures SumBy(a, f) == SumBy(b, f)
    decreases |a|
  {
    if a == [] {
      assert |multiset(b)| == 0;
      assert b == [];
    } else {
      var i := HeadIn(a, b);
      assert b == b[..i] + ([b[i]] + b[i + 1..]);
      SumByPermutation(a[1..], b[..i] + b[i + 1..], f);
      SumByConcat(b[..i], b[i + 1..], f);
      SumByConcat(b[..i], [b[i]] + b[i + 1..], f);
      SumByConcat([b[i]], b[i + 1..], f);
    }
  }

  lemma {:induction false} SumByScale<T>(a: seq<T>, b: seq<T>, f: T -> real, k: real)
    requires |a| == |b| && forall i :: 0 <= i < |a| ==> f(b[i]) == k * f(a[i])
    ensures SumBy(b, f) == k * SumBy(a, f)
  {
    if a != [] {
      SumByScale(a[1..], b[1..], f, k);
      Distributes(f(a[0]), SumBy(a[1..], f), k);
    }
  }

  /** A mean of terms in [lo, hi] lies in [lo, hi]. */
  lemma {:induction false} SumByBounds<T>(s: seq<T>, f: T -> real, lo: real, hi: real)
    requires forall x :: x in s ==> lo <= f(x) <= hi
    ensures lo * |s| as real <= SumBy(s, f) <= hi * |s| as real
  {
    if s != [] {
      assert s[0] in s;
      SumByBounds(s[1..], f, lo, hi);
      assert |s| as real == 1.0 + |s[1..]| as real;
      assert lo * |s| as real == lo + lo * |s[1..]| as real;
      assert hi * |s| as real == hi + hi * |s[1..]| as real;
    }
  }

  /** `max(..., default=0.0)` over `f`, for terms that are not negative. */
  function MaxBy<T>(s: seq<T>, f: T -> real): real {
    if s == [] then 0.0 else MaxOf(f(s[0]), MaxBy(s[1..], f))
  }

  lemma {:induction false} MaxByMeaning<T>(s: seq<T>, f: T -> real)
    requires forall x :: x in s ==> f(x) >= 0.0
    ensures MaxBy(s, f) >= 0.0
    ensures forall x :: x in s ==> f(x) <= MaxBy(s, f)
    ensures s != [] ==> exists x :: x in s && f(x) == MaxBy(s, f)
    ensures s == [] ==> MaxBy(s, f) == 0.0
  {
    if s != [] {
      assert s[0] in s;
      MaxByMeaning(s[1..], f);
      forall x | x in s ensures f(x) <= MaxBy(s, f) {
        assert x == s[0] || x in s[1..];
      }
      if s[1..] != [] {
        var x :| x in s[1..] && f(x) == MaxBy(s[1..], f);
        assert x in s;
      }
    }
  }
}
