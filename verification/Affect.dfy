/**
 * The affect state: pleasure-arousal-dominance coordinates pulled toward a
 * baseline and toward each classified profile, and a decaying momentum per
 * emotion. Classification is an oracle; exact reals stand for floats.
 */
module Affect {
  import opened Numbers

  const DECAY := 0.92
  const MOMENTUM_DECAY := 0.82
  const MOMENTUM_FLOOR := 0.01

  function ClampAxis(x: real): real { MaxOf(-1.0, MinOf(1.0, x)) }

  predicate InBox(x: real) { -1.0 <= x <= 1.0 }

  function AxisDecay(x: real, base: real, factor: real): (r: real)
    ensures InBox(r)
  {
    ClampAxis(base + (x - base) * factor)
  }

  function AxisMerge(x: real, y: real, weight: real): (r: real)
    ensures InBox(r)
  {
    var w := Clamp01(weight);
    ClampAxis(x * (1.0 - w) + y * w)
  }

  datatype Pad = Pad(pleasure: real, arousal: real, dominance: real) {
    /** What the constructor's clamps establish. */
    predicate Valid() { InBox(pleasure) && InBox(arousal) && InBox(dominance) }

    function Decay(factor: real, base: Pad): (r: Pad)
      ensures r.Valid()
    {
      Pad(AxisDecay(pleasure, base.pleasure, factor),
          AxisDecay(arousal, base.arousal, factor),
          AxisDecay(dominance, base.dominance, factor))
    }

    function Merge(other: Pad, weight: real): (r: Pad)
      ensures r.Valid()
    {
      Pad(AxisMerge(pleasure, other.pleasure, weight),
          AxisMerge(arousal, other.arousal, weight),
          AxisMerge(dominance, other.dominance, weight))
    }
  }

  datatype Profile = Profile(pad: Pad, dominant: string, confidence: real) {
    /** What the constructor's clamps establish. */
    predicate Valid() { pad.Valid() && 0.0 <= confidence <= 1.0 }
  }

  datatype Emotional = Emotional(current: Pad, baseline: Pad, momentum: map<string, real>, dominant: string, confidence: real) {
    predicate Valid() { current.Valid() && baseline.Valid() }
  }

  function MergeWeight(confidence: real): real { 0.45 + confidence * 0.25 }

  /** The next coordinates. */
  function NextPad(current: Pad, baseline: Pad, profile: Profile): Pad {
    current.Decay(DECAY, baseline).Merge(profile.pad, MergeWeight(profile.confidence))
  }

  predicate Survives(score: real) { score * MOMENTUM_DECAY > MOMENTUM_FLOOR }

  function Decayed(momentum: map<string, real>): map<string, real> {
    map e | e in momentum && Survives(momentum[e]) :: momentum[e] * MOMENTUM_DECAY
  }

  /** `update_momentum` */
  function UpdateMomentum(momentum: map<string, real>, profile: Profile): map<string, real> {
    var kept := Decayed(momentum);
    var carried := if profile.dominant in kept then kept[profile.dominant] else 0.0;
    kept[profile.dominant := carried + profile.confidence]
  }

  /** The part of `process` that is carried from one input to the next. */
  function Step(e: Emotional, profile: Profile): Emotional {
    Emotional(NextPad(e.current, e.baseline, profile), e.baseline, UpdateMomentum(e.momentum, profile),
              profile.dominant, profile.confidence)
  }

  function After(e: Emotional, profiles: seq<Profile>): Emotional {
    if profiles == [] then e else Step(After(e, profiles[..|profiles| - 1]), profiles[|profiles| - 1])
  }

  predicate AllValid(profiles: seq<Profile>) { forall p :: p in profiles ==> p.Valid() }

  class CognitiveState {
    var emotional: Emotional

    constructor (e: Emotional)
      ensures emotional == e
    {
      emotional := e;
    }
  }

  class DynamicAffectEngine {
    const classify: string -> Profile
    var emotional: Emotional

    constructor (classifier: string -> Profile, e: Emotional)
      ensures classify == classifier && emotional == e
    {
      classify, emotional := classifier, e;
    }

    /** `process`: the state of the given session, or else the engine's own, moves on; both then hold the result. */
    method Process(text: string, session: CognitiveState?) returns (update: Emotional)
      modifies this, session
      ensures update == Step(if session != null then old(session.emotional) else old(emotional), classify(text))
      ensures emotional == update
      ensures session != null ==> session.emotional == update
    {
      var profile := classify(text);
      var source := if session != null then session.emotional else emotional;
      var decayed := source.current.Decay(DECAY, source.baseline);
      var next := decayed.Merge(profile.pad, 0.45 + profile.confidence * 0.25);
      var momentum := UpdateMomentum(source.momentum, profile);
      update := Emotional(next, source.baseline, momentum, profile.dominant, profile.confidence);
      emotional := update;
      if session != null {
        session.emotional := update;
      }
    }
  }

  // ---- one axis ---------------------------------------------------------------------

  /** How far apart two states stay after one input of this confidence. */
  function Factor(confidence: real): real { (1.0 - MergeWeight(confidence)) * DECAY }

  function AxisStep(x: real, base: real, y: real, confidence: real): real {
    AxisMerge(AxisDecay(x, base, DECAY), y, MergeWeight(confidence))
  }

  /** A convex combination stays in the box. */
  lemma Convex(x: real, y: real, v: real, w: real)
    requires InBox(x) && InBox(y) && v + w <= 1.0 && 0.0 <= v && 0.0 <= w
    ensures InBox(x * v + y * w)
  {
    Shrunk(x, v);
    Shrunk(y, w);
    SumInBox(x * v, y * w, v, w);
  }

  lemma Shrunk(x: real, v: real)
    requires InBox(x) && v >= 0.0
    ensures -v <= x * v <= v
  {
    Monotone(x, 1.0, v);
    Monotone(-1.0, x, v);
  }

  lemma SumInBox(a: real, b: real, v: real, w: real)
    requires -v <= a <= v && -w <= b <= w && v + w <= 1.0
    ensures InBox(a + b)
  {
  }

  /** No clamp fires: the step is the unclamped formula. */
  lemma AxisIsExact(x: real, base: real, y: real, confidence: real)
    requires InBox(x) && InBox(base) && InBox(y) && 0.0 <= confidence <= 1.0
    ensures var w := MergeWeight(confidence);
            && AxisStep(x, base, y, confidence) == (base + (x - base) * DECAY) * (1.0 - w) + y * w
            && InBox(AxisStep(x, base, y, confidence))
            && InBox(base + (x - base) * DECAY)
            && 0.45 <= w <= 0.7
  {
    var d := base + (x - base) * DECAY;
    assert d == x * 0.92 + base * 0.08;
    Convex(d, y, 1.0 - MergeWeight(confidence), MergeWeight(confidence));
  }

  /** Two positions move together by exactly the factor. */
  lemma AxisContracts(x: real, z: real, base: real, y: real, confidence: real)
    requires InBox(x) && InBox(z) && InBox(base) && InBox(y) && 0.0 <= confidence <= 1.0
    ensures AxisStep(x, base, y, confidence) - AxisStep(z, base, y, confidence) == Factor(confidence) * (x - z)
  {
    AxisIsExact(x, base, y, confidence);
    AxisIsExact(z, base, y, confidence);
    ContractionAlgebra(x, z, base, y, MergeWeight(confidence));
  }

  lemma ContractionAlgebra(x: real, z: real, base: real, y: real, w: real)
    ensures ((base + (x - base) * DECAY) * (1.0 - w) + y * w) - ((base + (z - base) * DECAY) * (1.0 - w) + y * w)
         == ((1.0 - w) * DECAY) * (x - z)
  {
    var a, b, v := base + (x - base) * DECAY, base + (z - base) * DECAY, 1.0 - w;
    assert a - b == DECAY * (x - z);
    Distributes(a, b, v);
    assert (a - b) * v == (DECAY * (x - z)) * v;
    assert (DECAY * (x - z)) * v == (v * DECAY) * (x - z);
  }

  lemma FactorBounds(confidence: real)
    requires 0.0 <= confidence <= 1.0
    ensures 0.276 <= Factor(confidence) <= 0.506
  {
  }

  /** An input pulls with 45 to 70 percent of its own position, in proportion to its confidence. */
  lemma PullIsLinear(confidence: real)
    requires 0.0 <= confidence <= 1.0
    ensures Factor(0.0) == 0.506 && Factor(1.0) == 0.276
    ensures Factor(confidence) == Factor(0.0) + (Factor(1.0) - Factor(0.0)) * confidence
  {
  }

  // ---- runs -------------------------------------------------------------------------------

  /** The product of the factors along a run. */
  function Shrinkage(profiles: seq<Profile>): real {
    if profiles == [] then 1.0
    else Factor(profiles[|profiles| - 1].confidence) * Shrinkage(profiles[..|profiles| - 1])
  }

  function Power(base: real, n: nat): real { if n == 0 then 1.0 else base * Power(base, n - 1) }

  lemma {:induction false} ShrinkageBounds(profiles: seq<Profile>)
    requires AllValid(profiles)
    ensures 0.0 <= Shrinkage(profiles) <= Power(0.506, |profiles|)
  {
    hide Factor;
    if profiles != [] {
      var front, last := profiles[..|profiles| - 1], profiles[|profiles| - 1];
      assert last in profiles;
      ShrinkageBounds(front);
      FactorBounds(last.confidence);
      ProductBelow(Factor(last.confidence), 0.506, Shrinkage(front), Power(0.506, |front|));
    }
  }

  lemma ProductBelow(a: real, b: real, c: real, d: real)
    requires 0.0 <= a <= b && 0.0 <= c <= d
    ensures 0.0 <= a * c <= b * d
  {
    Nonnegative(a, c);
    Monotone(a, b, c);
    Monotone(c, d, b);
  }

  ghost predicate ApartBy(a: Pad, b: Pad, c: Pad, d: Pad, k: real) {
    && a.pleasure - b.pleasure == k * (c.pleasure - d.pleasure)
    && a.arousal - b.arousal == k * (c.arousal - d.arousal)
    && a.dominance - b.dominance == k * (c.dominance - d.dominance)
  }

  lemma NextPadContracts(a: Pad, b: Pad, baseline: Pad, profile: Profile)
    requires a.Valid() && b.Valid() && baseline.Valid() && profile.Valid()
    ensures ApartBy(NextPad(a, baseline, profile), NextPad(b, baseline, profile), a, b, Factor(profile.confidence))
  {
    hide AxisDecay, AxisMerge, Factor;
    var p, c := profile.pad, profile.confidence;
    AxisContracts(a.pleasure, b.pleasure, baseline.pleasure, p.pleasure, c);
    AxisContracts(a.arousal, b.arousal, baseline.arousal, p.arousal, c);
    AxisContracts(a.dominance, b.dominance, baseline.dominance, p.dominance, c);
  }

  lemma ApartByTrans(a: Pad, b: Pad, c: Pad, d: Pad, e: Pad, f: Pad, k: real, l: real, m: real)
    requires ApartBy(a, b, c, d, k) && ApartBy(c, d, e, f, l) && m == k * l
    ensures ApartBy(a, b, e, f, m)
  {
    Associate(k, l, e.pleasure - f.pleasure);
    Associate(k, l, e.arousal - f.arousal);
    Associate(k, l, e.dominance - f.dominance);
  }

  lemma Associate(k: real, l: real, x: real)
    ensures k * (l * x) == (k * l) * x
  {
  }

  /**
   * Two runs with the same baseline and the same inputs forget where they
   * started: on every axis their distance is the initial one times the
   * product of the step factors, at most 0.506 to the number of inputs.
   */
  lemma {:induction false} RunsContract(a: Emotional, b: Emotional, profiles: seq<Profile>)
    requires a.Valid() && b.Valid() && a.baseline == b.baseline && AllValid(profiles)
    ensures var x, y := After(a, profiles), After(b, profiles);
            && x.Valid() && y.Valid()
            && x.baseline == y.baseline == a.baseline
            && ApartBy(x.current, y.current, a.current, b.current, Shrinkage(profiles))
            && 0.0 <= Shrinkage(profiles) <= Power(0.506, |profiles|)
  {
    hide NextPad, ApartBy, Factor, UpdateMomentum, Power, InBox;
    ShrinkageBounds(profiles);
    if profiles == [] {
      ApartByOne(a.current, b.current);
    } else {
      var front, last := profiles[..|profiles| - 1], profiles[|profiles| - 1];
      assert last in profiles;
      RunsContract(a, b, front);
      var c, d := After(a, front), After(b, front);
      NextPadContracts(c.current, d.current, a.baseline, last);
      NextPadIsValid(c.current, a.baseline, last);
      NextPadIsValid(d.current, a.baseline, last);
      var x, y := After(a, profiles), After(b, profiles);
      assert x.current == NextPad(c.current, a.baseline, last) && y.current == NextPad(d.current, a.baseline, last);
      ApartByTrans(x.current, y.current, c.current, d.current, a.current, b.current,
                   Factor(last.confidence), Shrinkage(front), Shrinkage(profiles));
    }
  }

  lemma ApartByOne(a: Pad, b: Pad)
    ensures ApartBy(a, b, a, b, 1.0)
  {
  }

  lemma NextPadIsValid(a: Pad, baseline: Pad, profile: Profile)
    ensures NextPad(a, baseline, profile).Valid()
  {
  }

  // ---- where repetition leads -----------------------------------------------------------------

  /** The one position on an axis that an input leaves unchanged: baseline and profile, weighted by their pulls. */
  function FixedAxis(base: real, y: real, confidence: real): real
    requires 0.0 <= confidence <= 1.0
  {
    var w := MergeWeight(confidence);
    var pull := (1.0 - w) * (1.0 - DECAY);
    (base * pull + y * w) / (pull + w)
  }

  function FixedPad(baseline: Pad, profile: Profile): Pad
    requires profile.Valid()
  {
    Pad(FixedAxis(baseline.pleasure, profile.pad.pleasure, profile.confidence),
        FixedAxis(baseline.arousal, profile.pad.arousal, profile.confidence),
        FixedAxis(baseline.dominance, profile.pad.dominance, profile.confidence))
  }

  lemma UnitQuotient(x: real, t: real)
    requires t > 0.0 && -t <= x <= t
    ensures InBox(x / t) && (x / t) * t == x
  {
    Quotient(x, t, -1.0, 1.0);
  }

  lemma MeanIsBounded(x: real, y: real, v: real, w: real)
    requires InBox(x) && InBox(y) && v >= 0.0 && w >= 0.0
    ensures -(v + w) <= x * v + y * w <= v + w
  {
    Shrunk(x, v);
    Shrunk(y, w);
  }

  lemma FixedAlgebra(x: real, base: real, y: real, pull: real, w: real)
    requires pull == (1.0 - w) * (1.0 - DECAY) && x * (pull + w) == base * pull + y * w
    ensures (base + (x - base) * DECAY) * (1.0 - w) + y * w == x
  {
    var v := 1.0 - w;
    var p, q, r, s := x * v, base * v, y * w, x * w;
    assert p + s == x by {
      assert x * v + x * w == x * (v + w);
    }
    assert x * (pull + w) == 0.08 * p + s;
    assert base * pull == 0.08 * q;
    assert (base + (x - base) * DECAY) * v == 0.92 * p + 0.08 * q by {
      assert base + (x - base) * DECAY == x * 0.92 + base * 0.08;
      assert (x * 0.92 + base * 0.08) * v == (x * 0.92) * v + (base * 0.08) * v;
    }
  }

  lemma FixedAxisIsFixed(base: real, y: real, confidence: real)
    requires InBox(base) && InBox(y) && 0.0 <= confidence <= 1.0
    ensures var x := FixedAxis(base, y, confidence);
            InBox(x) && AxisStep(x, base, y, confidence) == x
  {
    var w := MergeWeight(confidence);
    var pull := (1.0 - w) * (1.0 - DECAY);
    var x := FixedAxis(base, y, confidence);
    MeanIsBounded(base, y, pull, w);
    UnitQuotient(base * pull + y * w, pull + w);
    FixedAlgebra(x, base, y, pull, w);
    AxisIsExact(x, base, y, confidence);
  }

  /** No other position stays put, because a step brings any two closer. */
  lemma FixedAxisIsUnique(z: real, base: real, y: real, confidence: real)
    requires InBox(z) && InBox(base) && InBox(y) && 0.0 <= confidence <= 1.0
    requires AxisStep(z, base, y, confidence) == z
    ensures z == FixedAxis(base, y, confidence)
  {
    hide AxisStep, FixedAxis, Factor;
    var x := FixedAxis(base, y, confidence);
    FixedAxisIsFixed(base, y, confidence);
    AxisContracts(x, z, base, y, confidence);
    FactorBounds(confidence);
    NoShrinking(x - z, Factor(confidence));
  }

  lemma NoShrinking(d: real, k: real)
    requires d == k * d && k < 1.0
    ensures d == 0.0
  {
    if d > 0.0 {
      StrictlyMonotone(k, 1.0, d);
      assert false;
    } else if d < 0.0 {
      StrictlyMonotone(k, 1.0, -d);
      assert false;
    }
  }

  lemma NextPadByAxes(z: Pad, baseline: Pad, profile: Profile)
    ensures NextPad(z, baseline, profile)
         == Pad(AxisStep(z.pleasure, baseline.pleasure, profile.pad.pleasure, profile.confidence),
                AxisStep(z.arousal, baseline.arousal, profile.pad.arousal, profile.confidence),
                AxisStep(z.dominance, baseline.dominance, profile.pad.dominance, profile.confidence))
  {
  }

  /** A valid profile leaves a position unchanged exactly when it is `FixedPad`. */
  lemma FixedPadIsFixed(z: Pad, baseline: Pad, profile: Profile)
    requires z.Valid() && baseline.Valid() && profile.Valid()
    ensures FixedPad(baseline, profile).Valid()
    ensures NextPad(z, baseline, profile) == z <==> z == FixedPad(baseline, profile)
  {
    hide FixedAxis, AxisStep, NextPad;
    var p, c := profile.pad, profile.confidence;
    NextPadByAxes(z, baseline, profile);
    FixedAxisIsFixed(baseline.pleasure, p.pleasure, c);
    FixedAxisIsFixed(baseline.arousal, p.arousal, c);
    FixedAxisIsFixed(baseline.dominance, p.dominance, c);
    if NextPad(z, baseline, profile) == z {
      FixedAxisIsUnique(z.pleasure, baseline.pleasure, p.pleasure, c);
      FixedAxisIsUnique(z.arousal, baseline.arousal, p.arousal, c);
      FixedAxisIsUnique(z.dominance, baseline.dominance, p.dominance, c);
    }
  }

  lemma {:induction false} ShrinkageOfRepetition(profile: Profile, n: nat)
    ensures Shrinkage(seq(n, _ => profile)) == Power(Factor(profile.confidence), n)
  {
    hide Factor;
    if n > 0 {
      ShrinkageOfRepetition(profile, n - 1);
      assert seq(n, _ => profile)[..n - 1] == seq(n - 1, _ => profile);
    }
  }

  /**
   * Repeating one input drives every start to the same place: the distance to
   * the fixed position is the initial one times the input's factor to the
   * number of repetitions, at most 0.506 to it.
   */
  lemma RepetitionConverges(a: Emotional, profile: Profile, n: nat)
    requires a.Valid() && profile.Valid()
    ensures var goal := FixedPad(a.baseline, profile);
            var k := Power(Factor(profile.confidence), n);
            && goal.Valid() && NextPad(goal, a.baseline, profile) == goal
            && 0.0 <= k <= Power(0.506, n)
            && ApartBy(After(a, seq(n, _ => profile)).current, goal, a.current, goal, k)
  {
    hide NextPad, ApartBy, FixedPad, Power, Factor;
    FixedPadIsFixed(a.current, a.baseline, profile);
    FixedPadIsFixed(FixedPad(a.baseline, profile), a.baseline, profile);
    var fixed := a.(current := FixedPad(a.baseline, profile));
    RunsContract(a, fixed, seq(n, _ => profile));
    FixedStays(fixed, profile, n);
    ShrinkageOfRepetition(profile, n);
  }

  lemma {:induction false} FixedStays(fixed: Emotional, profile: Profile, n: nat)
    requires NextPad(fixed.current, fixed.baseline, profile) == fixed.current
    ensures After(fixed, seq(n, _ => profile)).current == fixed.current
    ensures After(fixed, seq(n, _ => profile)).baseline == fixed.baseline
  {
    hide NextPad;
    if n > 0 {
      FixedStays(fixed, profile, n - 1);
      assert seq(n, _ => profile)[..n - 1] == seq(n - 1, _ => profile);
    }
  }

  // ---- momentum ---------------------------------------------------------------------------------

  /** 1 / (1 - 0.82) */
  const MOMENTUM_LIMIT := 50.0 / 9.0

  predicate Bounded(momentum: map<string, real>) {
    forall e :: e in momentum ==> 0.0 <= momentum[e] <= MOMENTUM_LIMIT
  }

  lemma MomentumStep(momentum: map<string, real>, profile: Profile)
    requires Bounded(momentum) && profile.Valid()
    ensures Bounded(UpdateMomentum(momentum, profile))
    ensures profile.dominant in UpdateMomentum(momentum, profile)
  {
    assert MOMENTUM_LIMIT * MOMENTUM_DECAY + 1.0 == MOMENTUM_LIMIT;
  }

  /** Momentum that starts at or below the limit stays there, whatever is said. */
  lemma {:induction false} MomentumStaysBounded(e: Emotional, profiles: seq<Profile>)
    requires Bounded(e.momentum) && AllValid(profiles)
    ensures Bounded(After(e, profiles).momentum)
  {
    hide NextPad, UpdateMomentum, Bounded;
    if profiles != [] {
      assert profiles[|profiles| - 1] in profiles;
      MomentumStaysBounded(e, profiles[..|profiles| - 1]);
      MomentumStep(After(e, profiles[..|profiles| - 1]).momentum, profiles[|profiles| - 1]);
    }
  }

  /** The named emotion gains the input's confidence on top of what is left of its momentum; every other only decays. */
  lemma MomentumIsCarried(momentum: map<string, real>, profile: Profile, emotion: string)
    ensures var next := UpdateMomentum(momentum, profile);
            var left := if emotion in momentum && momentum[emotion] * 0.82 > 0.01 then momentum[emotion] * 0.82 else 0.0;
            && (emotion == profile.dominant ==> emotion in next && next[emotion] == left + profile.confidence)
            && (emotion != profile.dominant ==>
                  (emotion in next <==> emotion in momentum && momentum[emotion] * 0.82 > 0.01)
                  && (emotion in next ==> next[emotion] == left))
  {
  }

  /** The state names the last input's emotion and confidence and keeps its baseline. */
  lemma StateReportsLastInput(e: Emotional, profiles: seq<Profile>)
    requires profiles != []
    ensures var n, last := After(e, profiles), profiles[|profiles| - 1];
            n.dominant == last.dominant && n.confidence == last.confidence && last.dominant in n.momentum
  {
    MomentumIsCarried(After(e, profiles[..|profiles| - 1]).momentum, profiles[|profiles| - 1], profiles[|profiles| - 1].dominant);
    hide NextPad, UpdateMomentum;
  }

  /** While an emotion is not dominant its momentum only decays, and is dropped for good exactly when it would reach the floor. */
  lemma {:induction false} UnusedMomentumDecays(e: Emotional, profiles: seq<Profile>, emotion: string)
    requires forall p :: p in profiles ==> p.dominant != emotion
    ensures var m := After(e, profiles).momentum;
            && (emotion in m ==>
                  && emotion in e.momentum
                  && m[emotion] == e.momentum[emotion] * Power(MOMENTUM_DECAY, |profiles|)
                  && (profiles != [] ==> m[emotion] > MOMENTUM_FLOOR))
            && (emotion in e.momentum && (profiles == [] || e.momentum[emotion] * Power(MOMENTUM_DECAY, |profiles|) > MOMENTUM_FLOOR)
                ==> emotion in m)
  {
    hide NextPad, UpdateMomentum;
    if profiles != [] {
      var front, last := profiles[..|profiles| - 1], profiles[|profiles| - 1];
      assert last in profiles;
      UnusedMomentumDecays(e, front, emotion);
      MomentumIsCarried(After(e, front).momentum, last, emotion);
      if emotion in e.momentum {
        PowerStep(e.momentum[emotion], MOMENTUM_DECAY, |front|);
        StillAbove(e.momentum[emotion] * Power(MOMENTUM_DECAY, |front|));
      }
    }
  }

  lemma StillAbove(x: real)
    ensures x * MOMENTUM_DECAY > MOMENTUM_FLOOR ==> x > MOMENTUM_FLOOR
  {
  }

  lemma PowerStep(x: real, base: real, n: nat)
    ensures (x * Power(base, n)) * base == x * Power(base, n + 1)
  {
    Associate(x, Power(base, n), base);
  }

  lemma {:induction false} PowerAdds(base: real, m: nat, n: nat)
    ensures Power(base, m + n) == Power(base, m) * Power(base, n)
  {
    if m > 0 {
      PowerAdds(base, m - 1, n);
      Associate(base, Power(base, m - 1), Power(base, n));
    }
  }

  lemma SquareBelow(x: real, bound: real)
    requires 0.0 <= x <= bound
    ensures x * x <= bound * bound
  {
    Monotone(x, bound, x);
    Monotone(x, bound, bound);
  }

  lemma PowerOf32()
    ensures 0.0 <= Power(MOMENTUM_DECAY, 32) <= 0.00179
  {
    hide Power;
    var p2, p4, p8, p16 := Power(MOMENTUM_DECAY, 2), Power(MOMENTUM_DECAY, 4), Power(MOMENTUM_DECAY, 8), Power(MOMENTUM_DECAY, 16);
    PowerOfTwo();
    PowerAdds(MOMENTUM_DECAY, 2, 2);
    PowerAdds(MOMENTUM_DECAY, 4, 4);
    PowerAdds(MOMENTUM_DECAY, 8, 8);
    PowerAdds(MOMENTUM_DECAY, 16, 16);
    assert p4 == 0.45212176;
    SquareBelow(p4, 0.4522);
    Nonnegative(p4, p4);
    SquareBelow(p8, 0.2045);
    Nonnegative(p8, p8);
    SquareBelow(p16, 0.0419);
    Nonnegative(p16, p16);
  }

  lemma PowerOfTwo()
    ensures Power(MOMENTUM_DECAY, 2) == 0.6724
  {
    assert Power(MOMENTUM_DECAY, 0) == 1.0;
    assert Power(MOMENTUM_DECAY, 1) == 0.82;
  }

  lemma {:induction false} PowerShrinks(n: nat)
    requires n >= 32
    ensures 0.0 <= Power(MOMENTUM_DECAY, n) <= 0.00179
  {
    if n == 32 {
      PowerOf32();
    } else {
      PowerShrinks(n - 1);
    }
  }

  /** An emotion that was not dominant for 32 inputs is forgotten entirely. */
  lemma ForgottenAfter32(e: Emotional, profiles: seq<Profile>, emotion: string)
    requires Bounded(e.momentum) && |profiles| >= 32
    requires forall p :: p in profiles ==> p.dominant != emotion
    ensures emotion !in After(e, profiles).momentum
  {
    hide After, Power, Step;
    UnusedMomentumDecays(e, profiles, emotion);
    if emotion in After(e, profiles).momentum {
      PowerShrinks(|profiles|);
      ProductBelow(e.momentum[emotion], MOMENTUM_LIMIT, Power(MOMENTUM_DECAY, |profiles|), 0.00179);
      assert false;
    }
  }
}
