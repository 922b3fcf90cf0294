/** The least-recently-used cache in front of the emotion classifier. */
module LruCache {
  import opened Options

  /** The ordered dictionary, oldest entry first. */
  datatype Entry<K, V> = Entry(key: K, value: V)

  predicate DistinctKeys<K(==), V>(items: seq<Entry<K, V>>) {
    forall i, j :: 0 <= i < j < |items| ==> items[i].key != items[j].key
  }

  function Lookup<K(==), V>(items: seq<Entry<K, V>>, key: K): (r: Option<V>)
    ensures r.Some? ==> Entry(key, r.value) in items
    ensures r.None? ==> forall e :: e in items ==> e.key != key
  {
    if items == [] then None
    else if items[0].key == key then Some(items[0].value)
    else Lookup(items[1..], key)
  }

  function Without<K(==), V>(items: seq<Entry<K, V>>, key: K): (r: seq<Entry<K, V>>)
    ensures |r| <= |items|
  {
    if items == [] then []
    else if items[0].key == key then Without(items[1..], key)
    else [items[0]] + Without(items[1..], key)
  }

  /** Remove and append. */
  function Touch<K(==), V>(items: seq<Entry<K, V>>, key: K, value: V): seq<Entry<K, V>> {
    Without(items, key) + [Entry(key, value)]
  }

  function Last<T>(items: seq<T>, n: nat): seq<T> {
    if |items| <= n then items else items[|items| - n..]
  }

  function GetIn<K(==), V>(items: seq<Entry<K, V>>, key: K): (seq<Entry<K, V>>, Option<V>) {
    match Lookup(items, key)
    case None => (items, None)
    case Some(value) => (Touch(items, key, value), Some(value))
  }

  function SetIn<K(==), V>(items: seq<Entry<K, V>>, key: K, value: V, maxsize: nat): seq<Entry<K, V>> {
    Last(Touch(items, key, value), maxsize)
  }

  class Cache<K(==), V> {
    const maxsize: nat
    var items: seq<Entry<K, V>>

    constructor (size: int)
      ensures maxsize == (if size >= 1 then size else 1) && items == []
    {
      maxsize := if size >= 1 then size else 1;
      items := [];
    }

    method Get(key: K) returns (value: Option<V>)
      modifies this
      ensures (items, value) == GetIn(old(items), key)
    {
      value := Lookup(items, key);
      if value.Some? {
        items := Without(items, key);
        items := items + [Entry(key, value.value)];
      }
    }

    method Set(key: K, value: V)
      modifies this
      ensures items == SetIn(old(items), key, value, maxsize)
    {
      hide Without;
      WithoutMeaning(items, key);
      if Lookup(items, key).Some? {
        items := Without(items, key);
      }
      items := items + [Entry(key, value)];
      ghost var all := items;
      hide Lookup;
      while |items| > maxsize
        invariant |items| >= if |all| <= maxsize then |all| else maxsize
        invariant |items| <= |all| && items == all[|all| - |items|..]
        decreases |items|
      {
        items := items[1..];
      }
    }
  }

  // ---- removal and order -------------------------------------------------------------

  lemma {:induction false} WithoutMeaning<K, V>(items: seq<Entry<K, V>>, key: K)
    ensures var r := Without(items, key);
            && (forall i :: 0 <= i < |r| ==> r[i] in items && r[i].key != key)
            && (forall i :: 0 <= i < |items| && items[i].key != key ==> items[i] in r)
    ensures (forall i :: 0 <= i < |items| ==> items[i].key != key) ==> Without(items, key) == items
  {
    if items != [] {
      WithoutMeaning(items[1..], key);
      assert forall i :: 1 <= i < |items| ==> items[i] == items[1..][i - 1];
    }
  }

  lemma {:induction false} WithoutConcat<K, V>(a: seq<Entry<K, V>>, b: seq<Entry<K, V>>, key: K)
    ensures Without(a + b, key) == Without(a, key) + Without(b, key)
  {
    if a == [] {
      assert a + b == b;
    } else {
      assert (a + b)[1..] == a[1..] + b;
      WithoutConcat(a[1..], b, key);
    }
  }

  lemma {:induction false} WithoutDistinct<K, V>(items: seq<Entry<K, V>>, key: K)
    requires DistinctKeys(items)
    ensures DistinctKeys(Without(items, key))
    ensures |Without(items, key)| == |items| - if Lookup(items, key).Some? then 1 else 0
  {
    if items != [] {
      var rest := items[1..];
      WithoutDistinct(rest, key);
      WithoutMeaning(rest, key);
      if items[0].key == key {
        assert forall e :: e in rest ==> e.key != key;
      } else {
        var w := Without(rest, key);
        forall j | 0 <= j < |w| ensures items[0].key != w[j].key {
          assert w[j] in rest;
        }
      }
    }
  }

  lemma TouchDistinct<K, V>(items: seq<Entry<K, V>>, key: K, value: V)
    requires DistinctKeys(items)
    ensures DistinctKeys(Touch(items, key, value))
  {
    WithoutDistinct(items, key);
    WithoutMeaning(items, key);
    var w := Without(items, key);
    assert forall i :: 0 <= i < |w| ==> w[i] in w;
  }

  lemma TouchConcat<K, V>(a: seq<Entry<K, V>>, b: seq<Entry<K, V>>, key: K, value: V)
    ensures Touch(a + b, key, value) == Without(a, key) + Touch(b, key, value)
  {
    WithoutConcat(a, b, key);
    assert (Without(a, key) + Without(b, key)) + [Entry(key, value)] == Without(a, key) + (Without(b, key) + [Entry(key, value)]);
  }

  /** A touch adds an entry exactly when the key is new. */
  lemma TouchSize<K, V>(items: seq<Entry<K, V>>, key: K, value: V)
    requires DistinctKeys(items)
    ensures |Touch(items, key, value)| == |items| + if Lookup(items, key).Some? then 0 else 1
  {
    WithoutDistinct(items, key);
  }

  /** Truncating before or after a touch makes no difference to the n most recent entries. */
  lemma TouchThenTruncate<K, V>(items: seq<Entry<K, V>>, key: K, value: V, n: nat)
    requires DistinctKeys(items)
    ensures Last(Touch(Last(items, n), key, value), n) == Last(Touch(items, key, value), n)
  {
    hide Touch, Without, Lookup;
    if |items| > n {
      var cut := |items| - n;
      var dropped, kept := items[..cut], items[cut..];
      assert items == dropped + kept;
      TouchConcat(dropped, kept, key, value);
      TouchSize(kept, key, value);
      SuffixOfConcat(Without(dropped, key), Touch(kept, key, value), n);
    }
  }

  lemma SuffixOfConcat<T>(a: seq<T>, b: seq<T>, n: nat)
    requires |b| >= n
    ensures Last(a + b, n) == Last(b, n)
  {
    if |a + b| > n {
      assert (a + b)[|a + b| - n..] == b[|b| - n..];
    } else {
      assert a == [];
    }
  }

  // ---- histories ------------------------------------------------------------------------

  /** Keys in order of their last touch, each with its last value. */
  function MostRecent<K(==), V>(touches: seq<Entry<K, V>>): seq<Entry<K, V>> {
    if touches == [] then []
    else
      var last := touches[|touches| - 1];
      Touch(MostRecent(touches[..|touches| - 1]), last.key, last.value)
  }

  lemma {:induction false} MostRecentDistinct<K, V>(touches: seq<Entry<K, V>>)
    ensures DistinctKeys(MostRecent(touches))
  {
    if touches != [] {
      MostRecentDistinct(touches[..|touches| - 1]);
      var last := touches[|touches| - 1];
      TouchDistinct(MostRecent(touches[..|touches| - 1]), last.key, last.value);
    }
  }

  /** The touch at `i` is the last one of its key. */
  predicate IsLastTouch<K(==), V>(touches: seq<Entry<K, V>>, i: int) {
    0 <= i < |touches| && forall j :: i < j < |touches| ==> touches[j].key != touches[i].key
  }

  lemma LastTouchInFront<K, V>(touches: seq<Entry<K, V>>, i: int)
    requires touches != [] && i < |touches| - 1
    ensures IsLastTouch(touches, i) <==>
            IsLastTouch(touches[..|touches| - 1], i) && touches[i].key != touches[|touches| - 1].key
  {
    var front := touches[..|touches| - 1];
    if IsLastTouch(front, i) && touches[i].key != touches[|touches| - 1].key {
      forall j | i < j < |touches| ensures touches[j].key != touches[i].key {
        if j < |front| {
          assert front[j].key != front[i].key;
        }
      }
    }
    if IsLastTouch(touches, i) {
      forall j | i < j < |front| ensures front[j].key != front[i].key {
        assert touches[j].key != touches[i].key;
      }
    }
  }

  /** `MostRecent` lists exactly the last touches. */
  lemma {:induction false} MostRecentMeaning<K, V>(touches: seq<Entry<K, V>>, e: Entry<K, V>)
    ensures e in MostRecent(touches) <==> exists i :: IsLastTouch(touches, i) && touches[i] == e
  {
    if touches != [] {
      var n := |touches| - 1;
      var front, last := touches[..n], touches[n];
      MostRecentMeaning(front, e);
      MembersOfTouch(MostRecent(front), last.key, last.value, e);
      assert IsLastTouch(touches, n);
      hide IsLastTouch, Touch;
      if e in MostRecent(touches) && e != last {
        var i :| IsLastTouch(front, i) && front[i] == e;
        InRange(front, i);
        LastTouchInFront(touches, i);
        assert touches[i] == e;
      }
      if i :| IsLastTouch(touches, i) && touches[i] == e && e != last {
        InRange(touches, i);
        LastTouchInFront(touches, i);
        assert front[i] == e;
      }
    }
  }

  lemma InRange<K, V>(touches: seq<Entry<K, V>>, i: int)
    requires IsLastTouch(touches, i)
    ensures 0 <= i < |touches|
  {
  }

  lemma MembersOfTouch<K, V>(items: seq<Entry<K, V>>, key: K, value: V, e: Entry<K, V>)
    ensures e in Touch(items, key, value) <==> e == Entry(key, value) || (e in items && e.key != key)
  {
    WithoutMeaning(items, key);
  }

  /** Removal keeps the order of what it leaves. */
  lemma {:induction false} WithoutOrder<K, V>(items: seq<Entry<K, V>>, key: K, p: nat, q: nat) returns (i: nat, j: nat)
    requires p < q < |Without(items, key)|
    ensures i < j < |items|
    ensures items[i] == Without(items, key)[p] && items[j] == Without(items, key)[q]
  {
    var rest, kept := items[1..], Without(items[1..], key);
    assert Without(items, key) == if items[0].key == key then kept else [items[0]] + kept;
    hide Without;
    if items[0].key == key {
      i, j := WithoutOrder(rest, key, p, q);
      i, j := i + 1, j + 1;
    } else if p > 0 {
      i, j := WithoutOrder(rest, key, p - 1, q - 1);
      i, j := i + 1, j + 1;
    } else {
      WithoutMeaning(rest, key);
      assert kept[q - 1] in rest;
      var k :| 0 <= k < |rest| && rest[k] == kept[q - 1];
      i, j := 0, k + 1;
    }
  }

  /** ... in the order in which those last touches happened. */
  lemma {:induction false} MostRecentOrder<K, V>(touches: seq<Entry<K, V>>, p: nat, q: nat, i: nat, j: nat)
    requires p < q < |MostRecent(touches)|
    requires IsLastTouch(touches, i) && touches[i] == MostRecent(touches)[p]
    requires IsLastTouch(touches, j) && touches[j] == MostRecent(touches)[q]
    ensures i < j
  {
    var n := |touches| - 1;
    var front, last, m := touches[..n], touches[n], MostRecent(touches);
    InRange(touches, i);
    InRange(touches, j);
    MostRecentDistinct(touches);
    hide IsLastTouch;
    var kept := Without(MostRecent(front), last.key);
    assert m == kept + [last];
    assert m[p] == kept[p] && m[|kept|] == last;
    assert m[p].key != last.key;
    hide Without, Touch, MostRecent, DistinctKeys;
    if j != n {
      LastTouchInFront(touches, i);
      LastTouchInFront(touches, j);
      assert q < |kept|;
      var k, l := WithoutOrder(MostRecent(front), last.key, p, q);
      MostRecentOrder(front, k, l, i, j);
    }
  }

  datatype Op<K, V> = Get(key: K) | Set(key: K, value: V)

  function Do<K(==), V>(items: seq<Entry<K, V>>, op: Op<K, V>, maxsize: nat): seq<Entry<K, V>> {
    match op
    case Get(key) => GetIn(items, key).0
    case Set(key, value) => SetIn(items, key, value, maxsize)
  }

  function Run<K(==), V>(ops: seq<Op<K, V>>, maxsize: nat): seq<Entry<K, V>> {
    if ops == [] then [] else Do(Run(ops[..|ops| - 1], maxsize), ops[|ops| - 1], maxsize)
  }

  /** What a history touches: every set, and every get that hits. A miss touches nothing. */
  function Touches<K(==), V>(ops: seq<Op<K, V>>, maxsize: nat): seq<Entry<K, V>> {
    if ops == [] then []
    else
      var before := Touches(ops[..|ops| - 1], maxsize);
      match ops[|ops| - 1]
      case Set(key, value) => before + [Entry(key, value)]
      case Get(key) =>
        match Lookup(Run(ops[..|ops| - 1], maxsize), key)
        case None => before
        case Some(value) => before + [Entry(key, value)]
  }

  /** After any history the cache holds exactly the `maxsize` most recently touched keys with their last values. */
  lemma {:induction false} CacheIsMostRecent<K, V>(ops: seq<Op<K, V>>, maxsize: nat)
    requires maxsize >= 1
    ensures Run(ops, maxsize) == Last(MostRecent(Touches(ops, maxsize)), maxsize)
    ensures DistinctKeys(Run(ops, maxsize)) && |Run(ops, maxsize)| <= maxsize
  {
    hide Touch, Last, Lookup, MostRecent;
    if ops == [] {
      NothingRecent<K, V>(maxsize);
    } else {
      var front, op := ops[..|ops| - 1], ops[|ops| - 1];
      CacheIsMostRecent(front, maxsize);
      var touched := Touches(front, maxsize);
      match op
      case Set(key, value) =>
        TouchMoves(touched, Run(front, maxsize), key, value, maxsize);
      case Get(key) =>
        var hit := Lookup(Run(front, maxsize), key);
        if hit.Some? {
          TouchMoves(touched, Run(front, maxsize), key, hit.value, maxsize);
          TouchSize(Run(front, maxsize), key, hit.value);
          SmallEnough(Touch(Run(front, maxsize), key, hit.value), maxsize);
        }
    }
  }

  lemma NothingRecent<K, V>(maxsize: nat)
    ensures Last(MostRecent<K, V>([]), maxsize) == []
  {
  }

  lemma SmallEnough<T>(items: seq<T>, n: nat)
    requires |items| <= n
    ensures Last(items, n) == items
  {
  }

  /** One more touch, in the history and in the cache that shows its last `maxsize` entries. */
  lemma TouchMoves<K, V>(touched: seq<Entry<K, V>>, items: seq<Entry<K, V>>, key: K, value: V, maxsize: nat)
    requires items == Last(MostRecent(touched), maxsize)
    ensures var next := Last(Touch(items, key, value), maxsize);
            && next == Last(MostRecent(touched + [Entry(key, value)]), maxsize)
            && DistinctKeys(next) && |next| <= maxsize
  {
    hide Touch, DistinctKeys;
    var more := touched + [Entry(key, value)];
    assert more[..|more| - 1] == touched;
    MostRecentDistinct(touched);
    MostRecentDistinct(more);
    TouchThenTruncate(MostRecent(touched), key, value, maxsize);
    LastDistinct(MostRecent(more), maxsize);
  }

  // ---- the classifier ---------------------------------------------------------------------

  /** `classify` on a cache; `f` is the uncached classification. */
  function ClassifyIn<K(==), V>(items: seq<Entry<K, V>>, text: K, f: K -> V, maxsize: nat): (seq<Entry<K, V>>, V) {
    match GetIn(items, text)
    case (next, Some(value)) => (next, value)
    case (next, None) => (SetIn(next, text, f(text), maxsize), f(text))
  }

  class Classifier<K(==), V> {
    const classifier: K -> V
    const cache: Cache<K, V>

    constructor (f: K -> V, c: Cache<K, V>)
      ensures classifier == f && cache == c
    {
      classifier, cache := f, c;
    }

    method Classify(text: K) returns (profile: V)
      modifies cache
      ensures (cache.items, profile) == ClassifyIn(old(cache.items), text, classifier, cache.maxsize)
    {
      var cached := cache.Get(text);
      if cached.Some? {
        return cached.value;
      }
      profile := classifier(text);
      cache.Set(text, profile);
    }
  }

  /** Every cached profile is the one an uncached classification gives. */
  predicate Coherent<K(==), V(==)>(items: seq<Entry<K, V>>, f: K -> V) {
    forall e :: e in items ==> e.value == f(e.key)
  }

  lemma {:induction false} LastMembers<T>(items: seq<T>, n: nat, x: T)
    requires x in Last(items, n)
    ensures x in items
  {
  }

  /** Caching is invisible. */
  lemma ClassifyIsUncached<K, V>(items: seq<Entry<K, V>>, text: K, f: K -> V, maxsize: nat)
    requires Coherent(items, f)
    ensures ClassifyIn(items, text, f, maxsize).1 == f(text)
    ensures Coherent(ClassifyIn(items, text, f, maxsize).0, f)
  {
    WithoutMeaning(items, text);
    forall e | e in SetIn(items, text, f(text), maxsize) ensures e.value == f(e.key) {
      LastMembers(Touch(items, text, f(text)), maxsize, e);
    }
  }

  function Classified<K(==), V>(texts: seq<K>, f: K -> V, maxsize: nat): seq<Entry<K, V>> {
    if texts == [] then []
    else ClassifyIn(Classified(texts[..|texts| - 1], f, maxsize), texts[|texts| - 1], f, maxsize).0
  }

  function TextsTouched<K(==), V>(texts: seq<K>, f: K -> V): (r: seq<Entry<K, V>>)
    ensures |r| == |texts|
  {
    if texts == [] then []
    else TextsTouched(texts[..|texts| - 1], f) + [Entry(texts[|texts| - 1], f(texts[|texts| - 1]))]
  }

  /** On classification traces the contents are a window, of the cache's size, on one list that does not depend on the size. */
  lemma {:induction false} ClassifiedIsWindow<K, V>(texts: seq<K>, f: K -> V, maxsize: nat)
    requires maxsize >= 1
    ensures Classified(texts, f, maxsize) == Last(MostRecent(TextsTouched(texts, f)), maxsize)
    ensures Coherent(Classified(texts, f, maxsize), f)
  {
    if texts != [] {
      var front, text := texts[..|texts| - 1], texts[|texts| - 1];
      ClassifiedIsWindow(front, f, maxsize);
      var items := Classified(front, f, maxsize);
      TouchMoves(TextsTouched(front, f), items, text, f(text), maxsize);
      ClassifyIsUncached(items, text, f, maxsize);
      if Lookup(items, text).Some? {
        MostRecentDistinct(TextsTouched(front, f));
        LastDistinct(MostRecent(TextsTouched(front, f)), maxsize);
        TouchSize(items, text, f(text));
      }
    }
  }

  lemma LastDistinct<K, V>(items: seq<Entry<K, V>>, n: nat)
    requires DistinctKeys(items)
    ensures DistinctKeys(Last(items, n))
  {
  }

  /** A larger cache holds everything a smaller one does, in the same order, at the fresh end. */
  lemma LargerCacheContainsSmaller<K, V>(texts: seq<K>, f: K -> V, n: nat, m: nat)
    requires 1 <= n <= m
    ensures Classified(texts, f, n) == Last(Classified(texts, f, m), n)
    ensures forall e :: e in Classified(texts, f, n) ==> e in Classified(texts, f, m)
  {
    hide Last, MostRecent, Classified;
    ClassifiedIsWindow(texts, f, n);
    ClassifiedIsWindow(texts, f, m);
    var recent := MostRecent(TextsTouched(texts, f));
    LastOfLast(recent, n, m);
    forall e | e in Classified(texts, f, n) ensures e in Classified(texts, f, m) {
      LastMembers(Classified(texts, f, m), n, e);
    }
  }

  lemma LastOfLast<T>(items: seq<T>, n: nat, m: nat)
    requires n <= m
    ensures Last(Last(items, m), n) == Last(items, n)
  {
  }

  /** How many classifications of the trace were answered by the cache. */
  function Hits<K(==), V>(texts: seq<K>, f: K -> V, maxsize: nat): nat {
    if texts == [] then 0
    else
      var front := texts[..|texts| - 1];
      Hits(front, f, maxsize) + if Lookup(Classified(front, f, maxsize), texts[|texts| - 1]).Some? then 1 else 0
  }

  /** Enlarging the cache never costs a hit. */
  lemma {:induction false} HitsGrowWithSize<K, V>(texts: seq<K>, f: K -> V, n: nat, m: nat)
    requires 1 <= n <= m
    ensures Hits(texts, f, n) <= Hits(texts, f, m)
  {
    if texts != [] {
      var front, text := texts[..|texts| - 1], texts[|texts| - 1];
      HitsGrowWithSize(front, f, n, m);
      LargerCacheContainsSmaller(front, f, n, m);
    }
  }
}
