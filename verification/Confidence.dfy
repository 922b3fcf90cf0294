/**
 * Weighted aggregation of confidence signals into one estimate. Exact reals
 * stand for floats; the calibrator, the square root and the sigmoid are
 * parameters.
 */
module Confidence {
  import opened Options
  import opened Numbers

  datatype Source = Retrieval | Reflection | Affect | Planner | State | Policy

  datatype Trend = Improving | Degrading | Stable | Unknown

  datatype Signal = Signal(
    source: Source,
    confidence: real,
    uncertainty: real,
    weight: real,
    reliability: real,
    evidence: int,
    trend: Trend
  ) {
    /** What the constructor's clamps establish. */
    predicate Valid() {
      0.0 <= confidence <= 1.0 && 0.0 <= uncertainty <= 1.0 && weight >= 0.0 && 0.0 <= reliability <= 1.0 && evidence >= 0
    }

    /** The constructor. */
    function Normal(): (r: Signal)
      ensures r.Valid()
      ensures Valid() ==> r == this
    {
      Signal(source, Clamp01(confidence), Clamp01(uncertainty), MaxOf(0.0, weight), Clamp01(reliability),
             if evidence >= 0 then evidence else 0, trend)
    }
  }

  function EvidenceFactor(evidence: int): real {
    if evidence != 0 then MinOf(1.0, evidence as real / 5.0) else 0.25
  }

  function EffectiveWeight(s: Signal): real {
    s.weight * s.reliability * MaxOf(0.25, EvidenceFactor(s.evidence))
  }

  /** A weight is never negative and never more than the declared one. */
  lemma EffectiveWeightBounds(s: Signal)
    requires s.Valid()
    ensures 0.0 <= EffectiveWeight(s) <= s.weight
  {
    var w, r, f := s.weight, s.reliability, MaxOf(0.25, EvidenceFactor(s.evidence));
    WeightAlgebra(w, r, f);
    assert EffectiveWeight(s) == w * r * f;
  }

  lemma WeightAlgebra(w: real, r: real, f: real)
    requires 0.0 <= w && 0.0 <= r <= 1.0 && 0.0 <= f <= 1.0
    ensures 0.0 <= w * r * f <= w
  {
    UnitProduct(r, w);
    UnitProduct(f, r * w);
    assert f * (r * w) == w * r * f;
  }

  lemma UnitProduct(c: real, w: real)
    requires 0.0 <= c <= 1.0 && w >= 0.0
    ensures 0.0 <= c * w <= w
  {
    Nonnegative(c, w);
    Monotone(c, 1.0, w);
  }

  /** A calibration: new confidence, uncertainty and, possibly, reliability. */
  datatype Calibration = Calibration(confidence: real, uncertainty: real, reliability: Option<real>)

  datatype Environment = Environment(
    sourceWeight: Source -> real,
    calibrate: Signal -> Calibration,
    root: real -> real,
    sigmoid: real -> real,
    continueMidpoint: real,
    reflectMidpoint: real,
    retryMidpoint: real,
    askMidpoint: real,
    temperature: real
  ) {
    /** `root` is the square root on what is not negative; `sigmoid` is positive. */
    ghost predicate Valid() {
      && (forall x :: x >= 0.0 ==> root(x) >= 0.0 && root(x) * root(x) == x)
      && (forall x :: sigmoid(x) > 0.0)
    }
  }

  function Weigh(env: Environment, s: Signal): (r: Signal)
    ensures r.Valid()
  {
    s.(weight := s.weight * env.sourceWeight(s.source)).Normal()
  }

  function Calibrated(env: Environment, s: Signal): (r: Signal)
    ensures r.Valid()
  {
    var c := env.calibrate(s);
    s.(confidence := c.confidence, uncertainty := c.uncertainty,
       reliability := if c.reliability.Some? then c.reliability.value else s.reliability).Normal()
  }

  function Prepare(env: Environment, signals: seq<Signal>): (r: seq<Signal>)
    ensures |r| == |signals|
    ensures forall s :: s in r ==> s.Valid()
  {
    if signals == [] then [] else [Calibrated(env, Weigh(env, signals[0]))] + Prepare(env, signals[1..])
  }

  function ConfidenceTerm(s: Signal): real { s.confidence * EffectiveWeight(s) }

  function UncertaintyTerm(s: Signal): real { s.uncertainty * EffectiveWeight(s) }

  function SquareTerm(s: Signal): real { s.confidence * s.confidence * EffectiveWeight(s) }

  function DeviationTerm(mean: real): Signal -> real {
    (s: Signal) => (s.confidence - mean) * (s.confidence - mean) * EffectiveWeight(s)
  }

  function Total(ss: seq<Signal>): real { SumBy(ss, EffectiveWeight) }

  function Mean(ss: seq<Signal>): real
    requires Total(ss) > 0.0
  {
    SumBy(ss, ConfidenceTerm) / Total(ss)
  }

  function MeanUncertainty(ss: seq<Signal>): real
    requires Total(ss) > 0.0
  {
    SumBy(ss, UncertaintyTerm) / Total(ss)
  }

  function Variance(ss: seq<Signal>): real
    requires Total(ss) > 0.0
  {
    SumBy(ss, DeviationTerm(Mean(ss))) / Total(ss)
  }

  function Disagreement(env: Environment, ss: seq<Signal>): real
    requires Total(ss) > 0.0
  {
    Clamp01(env.root(Variance(ss)) * 2.0)
  }

  function EvidenceTerm(s: Signal): real {
    (if s.evidence >= 1 then s.evidence else 1) as real
  }

  function Width(env: Environment, uncertainty: real, ss: seq<Signal>): real {
    Clamp01(uncertainty * 0.45 + (1.0 / MaxOf(2.0, env.root(SumBy(ss, EvidenceTerm)))) * 0.2)
  }

  function From(ss: seq<Signal>, source: Source): seq<Signal> {
    if ss == [] then []
    else (if ss[0].source == source then [ss[0]] else []) + From(ss[1..], source)
  }

  function SourceUncertainty(ss: seq<Signal>, source: Source): real {
    var matching := From(ss, source);
    if Total(matching) <= 0.0 then 0.0 else Clamp01(MeanUncertainty(matching))
  }

  function TrendTerm(s: Signal): real {
    match s.trend
    case Degrading => 1.0
    case Improving => -0.5
    case _ => 0.0
  }

  function TrendPressure(ss: seq<Signal>): real {
    if ss == [] then 0.0 else Clamp01(SumBy(ss, TrendTerm) / |ss| as real)
  }

  function Sigmoid(env: Environment, value: real): real {
    env.sigmoid(value / MaxOf(0.01, env.temperature))
  }

  datatype Decision = Continue | Reflect | Retry | AskUser

  datatype Probabilities = Probabilities(carryOn: real, reflect: real, retry: real, ask: real) {
    function Of(d: Decision): real {
      match d
      case Continue => carryOn
      case Reflect => reflect
      case Retry => retry
      case AskUser => ask
    }

    function Sum(): real { carryOn + reflect + retry + ask }

    /** The first decision of greatest probability. */
    function Best(): Decision {
      if carryOn >= reflect && carryOn >= retry && carryOn >= ask then Continue
      else if reflect >= retry && reflect >= ask then Reflect
      else if retry >= ask then Retry
      else AskUser
    }
  }

  /** The four pressures before normalisation. */
  function Scores(env: Environment, confidence: real, uncertainty: real, ss: seq<Signal>): Probabilities {
    var reflection, retrieval := SourceUncertainty(ss, Reflection), SourceUncertainty(ss, Retrieval);
    var planner, affect := SourceUncertainty(ss, Planner), SourceUncertainty(ss, Affect);
    Probabilities(
      Sigmoid(env, confidence - env.continueMidpoint),
      Sigmoid(env, uncertainty + reflection * 0.25 + affect * 0.15 - env.reflectMidpoint),
      Sigmoid(env, uncertainty + retrieval * 0.2 + planner * 0.2 + TrendPressure(ss) * 0.15 - env.retryMidpoint),
      Sigmoid(env, uncertainty + retrieval * 0.15 + planner * 0.1 - env.askMidpoint))
  }

  function Normalise(p: Probabilities): Probabilities {
    var total := if p.Sum() <= 0.0 then 1.0 else p.Sum();
    Probabilities(Clamp01(p.carryOn / total), Clamp01(p.reflect / total), Clamp01(p.retry / total), Clamp01(p.ask / total))
  }

  datatype Estimate = Estimate(
    confidence: real,
    uncertainty: real,
    lower: real,
    upper: real,
    probabilities: Probabilities,
    recommended: Decision
  )

  const EMPTY := Estimate(0.0, 1.0, 0.0, 0.25, Probabilities(0.1, 0.35, 0.25, 0.3), Reflect)

  /** Disagreement takes at most 15 percent of the mean confidence. */
  function Discounted(mean: real, disagreement: real): real {
    mean * (1.0 - disagreement * 0.15)
  }

  function Blended(uncertainty: real, disagreement: real): real {
    uncertainty * 0.75 + disagreement * 0.25
  }

  /** `aggregate`, on signals that are already weighted and calibrated. */
  function Combine(env: Environment, ss: seq<Signal>): Estimate {
    if ss == [] || Total(ss) <= 0.0 then EMPTY
    else
      var disagreement := Disagreement(env, ss);
      var uncertainty := Clamp01(Blended(MeanUncertainty(ss), disagreement));
      var confidence := Clamp01(Discounted(Mean(ss), disagreement));
      var width := Width(env, uncertainty, ss);
      var probabilities := Normalise(Scores(env, confidence, uncertainty, ss));
      Estimate(confidence, uncertainty, Clamp01(confidence - width), Clamp01(confidence + width),
               probabilities, probabilities.Best())
  }

  function Aggregate(env: Environment, signals: seq<Signal>): Estimate {
    Combine(env, Prepare(env, signals))
  }

  // ---- moments ------------------------------------------------------------------------

  predicate AllValid(ss: seq<Signal>) { forall s :: s in ss ==> s.Valid() }

  /** 0 <= sum c^2 w <= sum c w <= sum w, and likewise for uncertainty. */
  lemma {:induction false} MomentBounds(ss: seq<Signal>)
    requires AllValid(ss)
    ensures 0.0 <= SumBy(ss, SquareTerm) <= SumBy(ss, ConfidenceTerm) <= Total(ss)
    ensures 0.0 <= SumBy(ss, UncertaintyTerm) <= Total(ss)
  {
    if ss != [] {
      var s := ss[0];
      assert s in ss;
      TermBounds(s);
      MomentBounds(ss[1..]);
    }
  }

  lemma TermBounds(s: Signal)
    requires s.Valid()
    ensures 0.0 <= SquareTerm(s) <= ConfidenceTerm(s) <= EffectiveWeight(s)
    ensures 0.0 <= UncertaintyTerm(s) <= EffectiveWeight(s)
  {
    hide EffectiveWeight;
    EffectiveWeightBounds(s);
    var c, w := s.confidence, EffectiveWeight(s);
    UnitProduct(c, w);
    UnitProduct(c, c * w);
    assert c * c * w == c * (c * w);
    UnitProduct(s.uncertainty, w);
  }

  function Expanded(m: real, square: real, first: real, total: real): real {
    square - 2.0 * m * first + m * m * total
  }

  /** The deviations around `m` expand into the moments. */
  lemma {:induction false} DeviationExpands(ss: seq<Signal>, m: real)
    ensures SumBy(ss, DeviationTerm(m)) == Expanded(m, SumBy(ss, SquareTerm), SumBy(ss, ConfidenceTerm), Total(ss))
  {
    hide EffectiveWeight, SquareTerm, ConfidenceTerm, DeviationTerm;
    if ss != [] {
      hide Expanded;
      DeviationExpands(ss[1..], m);
      ExpansionStep(ss[0], m, SumBy(ss[1..], SquareTerm), SumBy(ss[1..], ConfidenceTerm), Total(ss[1..]));
    }
  }

  lemma ExpansionStep(s: Signal, m: real, square: real, first: real, total: real)
    ensures DeviationTerm(m)(s) + Expanded(m, square, first, total)
         == Expanded(m, SquareTerm(s) + square, ConfidenceTerm(s) + first, EffectiveWeight(s) + total)
  {
    hide EffectiveWeight;
    ExpansionAlgebra(s.confidence, m, EffectiveWeight(s), square, first, total);
  }

  lemma ExpansionAlgebra(c: real, m: real, w: real, square: real, first: real, total: real)
    ensures (c - m) * (c - m) * w + (square - 2.0 * m * first + m * m * total)
         == (c * c * w + square) - 2.0 * m * (c * w + first) + m * m * (w + total)
  {
    assert (c - m) * (c - m) == c * c - 2.0 * m * c + m * m;
    assert (c * c - 2.0 * m * c + m * m) * w == c * c * w - 2.0 * m * (c * w) + m * m * w;
    assert 2.0 * m * (c * w + first) == 2.0 * m * (c * w) + 2.0 * m * first;
    assert m * m * (w + total) == m * m * w + m * m * total;
  }

  /** The weighted variance of confidences in [0, 1] with mean m is at most m(1 - m), hence at most 1/4. */
  lemma VarianceIsBounded(ss: seq<Signal>)
    requires AllValid(ss) && Total(ss) > 0.0
    ensures 0.0 <= Mean(ss) <= 1.0
    ensures 0.0 <= MeanUncertainty(ss) <= 1.0
    ensures 0.0 <= Variance(ss) <= Mean(ss) * (1.0 - Mean(ss)) <= 0.25
  {
    hide SumBy, Total;
    var t, m := Total(ss), Mean(ss);
    MomentBounds(ss);
    Quotient(SumBy(ss, ConfidenceTerm), t, 0.0, 1.0);
    Quotient(SumBy(ss, UncertaintyTerm), t, 0.0, 1.0);
    DeviationExpands(ss, m);
    DeviationsNotNegative(ss, m);
    Spread(SumBy(ss, SquareTerm), m, t);
    Quotient(SumBy(ss, DeviationTerm(m)), t, 0.0, m * (1.0 - m));
  }

  /** With sum c^2 w <= sum c w = m t, the deviations sum to at most m(1 - m) t. */
  lemma Spread(square: real, m: real, t: real)
    requires square <= m * t
    ensures square - 2.0 * m * (m * t) + m * m * t <= (m * (1.0 - m)) * t
    ensures m * (1.0 - m) <= 0.25
  {
    assert 2.0 * m * (m * t) == 2.0 * (m * m * t);
    assert (m * (1.0 - m)) * t == m * t - m * m * t;
    assert m * (1.0 - m) == 0.25 - (m - 0.5) * (m - 0.5);
    assert (m - 0.5) * (m - 0.5) >= 0.0;
  }

  lemma {:induction false} DeviationsNotNegative(ss: seq<Signal>, m: real)
    requires AllValid(ss)
    ensures SumBy(ss, DeviationTerm(m)) >= 0.0
  {
    if ss != [] {
      var s := ss[0];
      assert s in ss;
      var d := s.confidence - m;
      assert d * d >= 0.0;
      EffectiveWeightBounds(s);
      Nonnegative(d * d, EffectiveWeight(s));
      DeviationsNotNegative(ss[1..], m);
    }
  }

  /** So the disagreement never reaches its clamp. */
  lemma DisagreementIsExact(env: Environment, ss: seq<Signal>)
    requires env.Valid() && AllValid(ss) && Total(ss) > 0.0
    ensures Disagreement(env, ss) == env.root(Variance(ss)) * 2.0
    ensures 0.0 <= Disagreement(env, ss) <= 1.0
    ensures Disagreement(env, ss) * Disagreement(env, ss) == 4.0 * Variance(ss)
  {
    hide Variance, Total;
    VarianceIsBounded(ss);
    var d := env.root(Variance(ss));
    assert d * d == Variance(ss) <= 0.25;
    if d > 0.5 {
      StrictlyMonotone(0.5, d, d);
      assert false;
    }
    assert (d * 2.0) * (d * 2.0) == 4.0 * (d * d);
  }

  // ---- the estimate ---------------------------------------------------------------------

  ghost predicate Sound(p: Probabilities, best: Decision) {
    && p.Sum() == 1.0
    && (forall d: Decision :: 0.0 < p.Of(d) < 1.0)
    && (forall d: Decision :: p.Of(d) <= p.Of(best))
  }

  /** Positive scores normalise to a distribution; the fallback divisor and the clamps are never used. */
  lemma NormaliseIsDistribution(p: Probabilities)
    requires forall d: Decision :: p.Of(d) > 0.0
    ensures Sound(Normalise(p), Normalise(p).Best())
    ensures p.Sum() > 0.0 && forall d: Decision :: Normalise(p).Of(d) == p.Of(d) / p.Sum()
  {
    var t := p.Sum();
    assert p.Of(Continue) > 0.0 && p.Of(Reflect) > 0.0 && p.Of(Retry) > 0.0 && p.Of(AskUser) > 0.0;
    StrictQuotient(p.carryOn, t, 0.0, 1.0);
    StrictQuotient(p.reflect, t, 0.0, 1.0);
    StrictQuotient(p.retry, t, 0.0, 1.0);
    StrictQuotient(p.ask, t, 0.0, 1.0);
    SharesSum(p.carryOn, p.reflect, p.retry, p.ask, t);
  }

  lemma SharesSum(a: real, b: real, c: real, d: real, t: real)
    requires t == a + b + c + d && t > 0.0
    ensures a / t + b / t + c / t + d / t == 1.0
  {
    var x, y, z, w := a / t, b / t, c / t, d / t;
    assert x * t == a && y * t == b && z * t == c && w * t == d;
    SumTimes(x, y, z, w, t);
    var sum := x + y + z + w;
    if sum < 1.0 {
      StrictlyMonotone(sum, 1.0, t);
      assert false;
    }
    if sum > 1.0 {
      StrictlyMonotone(1.0, sum, t);
      assert false;
    }
  }

  lemma SumTimes(x: real, y: real, z: real, w: real, t: real)
    ensures (x + y + z + w) * t == x * t + y * t + z * t + w * t
  {
    Distributes(x, y, t);
    Distributes(x + y, z, t);
    Distributes(x + y + z, w, t);
  }

  /**
   * Every estimate of positive total weight: the confidence lies within
   * 15 percent below the weighted mean, the interval contains it and is at
   * most 1.1 wide, and no clamp but the interval's changes a value.
   */
  lemma EstimateIsSound(env: Environment, ss: seq<Signal>)
    requires env.Valid() && AllValid(ss) && Total(ss) > 0.0
    ensures var e := Combine(env, ss);
            var d := env.root(Variance(ss)) * 2.0;
            && e.confidence == Discounted(Mean(ss), d)
            && e.uncertainty == Blended(MeanUncertainty(ss), d)
            && 0.85 * Mean(ss) <= e.confidence <= Mean(ss)
            && 0.0 <= e.lower <= e.confidence <= e.upper <= 1.0
            && e.upper - e.lower <= 2.0 * (e.uncertainty * 0.45 + 0.1) <= 1.1
            && Sound(e.probabilities, e.recommended)
  {
    hide Variance, Mean, MeanUncertainty, Total, Width, Scores, Normalise, Sound, Disagreement, Clamp01, Discounted, Blended;
    if ss == [] {
      TotalOfNothing();
      assert false;
    }
    VarianceIsBounded(ss);
    DisagreementIsExact(env, ss);
    var d := Disagreement(env, ss);
    Discount(Mean(ss), d);
    Blend(MeanUncertainty(ss), d);
    var e := Combine(env, ss);
    WidthIsExact(env, e.uncertainty, ss);
    Interval(e.confidence, Width(env, e.uncertainty, ss));
    ScoresArePositive(env, e.confidence, e.uncertainty, ss);
    NormaliseIsDistribution(Scores(env, e.confidence, e.uncertainty, ss));
  }

  lemma Blend(u: real, d: real)
    requires 0.0 <= u <= 1.0 && 0.0 <= d <= 1.0
    ensures Clamp01(Blended(u, d)) == Blended(u, d)
    ensures 0.0 <= Blended(u, d) <= 1.0
  {
  }

  lemma Interval(c: real, w: real)
    requires 0.0 <= c <= 1.0 && 0.0 <= w
    ensures 0.0 <= Clamp01(c - w) <= c <= Clamp01(c + w) <= 1.0
    ensures Clamp01(c + w) - Clamp01(c - w) <= 2.0 * w
  {
  }

  lemma Discount(m: real, d: real)
    requires 0.0 <= m <= 1.0 && 0.0 <= d <= 1.0
    ensures var c := Discounted(m, d); 0.85 * m <= c <= m && Clamp01(c) == c
  {
    Nonnegative(d, m);
    Monotone(d, 1.0, m);
    DiscountAlgebra(m, d);
  }

  lemma DiscountAlgebra(m: real, d: real)
    ensures m * (1.0 - d * 0.15) == m - 0.15 * (d * m)
  {
  }

  lemma ScoresArePositive(env: Environment, confidence: real, uncertainty: real, ss: seq<Signal>)
    requires env.Valid()
    ensures forall d: Decision :: Scores(env, confidence, uncertainty, ss).Of(d) > 0.0
  {
    hide SourceUncertainty, TrendPressure;
  }

  lemma TotalOfNothing()
    ensures Total([]) == 0.0
  {
  }

  lemma WidthIsExact(env: Environment, uncertainty: real, ss: seq<Signal>)
    requires 0.0 <= uncertainty <= 1.0
    ensures 0.0 <= Width(env, uncertainty, ss) <= uncertainty * 0.45 + 0.1 <= 0.55
    ensures Width(env, uncertainty, ss) > 0.0
  {
    var n := MaxOf(2.0, env.root(SumBy(ss, EvidenceTerm)));
    assert 0.0 < 1.0 / n;
    Quotient(1.0, n, 0.0, 0.5);
  }

  /** Whatever the signals, the calibration and the weights: a distribution with its maximum recommended. */
  lemma AggregateIsDistribution(env: Environment, signals: seq<Signal>)
    requires env.Valid()
    ensures var e := Aggregate(env, signals);
            Sound(e.probabilities, e.recommended) && 0.0 <= e.lower <= e.confidence <= e.upper <= 1.0
  {
    var ss := Prepare(env, signals);
    if ss != [] && Total(ss) > 0.0 {
      EstimateIsSound(env, ss);
    }
  }

  // ---- invariances -------------------------------------------------------------------------

  /** `From` keeps every signal of the source as often as it occurs, and no other. */
  lemma {:induction false} FromCounts(ss: seq<Signal>, source: Source, s: Signal)
    ensures multiset(From(ss, source))[s] == if s.source == source then multiset(ss)[s] else 0
  {
    if ss != [] {
      assert ss == [ss[0]] + ss[1..];
      FromCounts(ss[1..], source, s);
      var head := if ss[0].source == source then [ss[0]] else [];
      assert multiset(From(ss, source)) == multiset(head) + multiset(From(ss[1..], source));
    }
  }

  lemma FromPermutation(a: seq<Signal>, b: seq<Signal>, source: Source)
    requires multiset(a) == multiset(b)
    ensures multiset(From(a, source)) == multiset(From(b, source))
  {
    forall s ensures multiset(From(a, source))[s] == multiset(From(b, source))[s] {
      FromCounts(a, source, s);
      FromCounts(b, source, s);
    }
  }

  lemma SourceUncertaintyPermutation(a: seq<Signal>, b: seq<Signal>, source: Source)
    requires multiset(a) == multiset(b)
    ensures SourceUncertainty(a, source) == SourceUncertainty(b, source)
  {
    FromPermutation(a, b, source);
    SumByPermutation(From(a, source), From(b, source), EffectiveWeight);
    SumByPermutation(From(a, source), From(b, source), UncertaintyTerm);
  }

  lemma StatisticsPermutation(a: seq<Signal>, b: seq<Signal>)
    requires multiset(a) == multiset(b)
    ensures |a| == |b| && Total(a) == Total(b)
    ensures Total(a) > 0.0 ==> Mean(a) == Mean(b) && MeanUncertainty(a) == MeanUncertainty(b) && Variance(a) == Variance(b)
    ensures SumBy(a, EvidenceTerm) == SumBy(b, EvidenceTerm)
    ensures TrendPressure(a) == TrendPressure(b)
  {
    hide SumBy, Clamp01, DeviationTerm;
    assert |a| == |multiset(a)| == |multiset(b)| == |b|;
    SumByPermutation(a, b, EffectiveWeight);
    SumByPermutation(a, b, ConfidenceTerm);
    SumByPermutation(a, b, UncertaintyTerm);
    SumByPermutation(a, b, EvidenceTerm);
    SumByPermutation(a, b, TrendTerm);
    if Total(a) > 0.0 {
      SumByPermutation(a, b, DeviationTerm(Mean(a)));
    }
  }

  lemma ScoresPermutation(env: Environment, confidence: real, uncertainty: real, a: seq<Signal>, b: seq<Signal>)
    requires multiset(a) == multiset(b)
    ensures Scores(env, confidence, uncertainty, a) == Scores(env, confidence, uncertainty, b)
  {
    hide SourceUncertainty, TrendPressure, Sigmoid;
    StatisticsPermutation(a, b);
    SourceUncertaintyPermutation(a, b, Reflection);
    SourceUncertaintyPermutation(a, b, Retrieval);
    SourceUncertaintyPermutation(a, b, Planner);
    SourceUncertaintyPermutation(a, b, Affect);
  }

  /** The order in which subsystems report does not influence the estimate. */
  lemma OrderDoesNotMatter(env: Environment, a: seq<Signal>, b: seq<Signal>)
    requires multiset(a) == multiset(b)
    ensures Combine(env, a) == Combine(env, b)
  {
    hide Total, Mean, MeanUncertainty, Variance, SumBy, Normalise, Scores, Clamp01, Discounted, Blended;
    StatisticsPermutation(a, b);
    if a != [] && Total(a) > 0.0 {
      var e := Combine(env, a);
      ScoresPermutation(env, e.confidence, e.uncertainty, a, b);
    }
  }

  lemma {:induction false} PrepareConcat(env: Environment, a: seq<Signal>, b: seq<Signal>)
    ensures Prepare(env, a + b) == Prepare(env, a) + Prepare(env, b)
  {
    if a == [] {
      assert a + b == b;
    } else {
      assert (a + b)[1..] == a[1..] + b;
      PrepareConcat(env, a[1..], b);
    }
  }

  lemma {:induction false} PreparePermutation(env: Environment, a: seq<Signal>, b: seq<Signal>)
    requires multiset(a) == multiset(b)
    ensures multiset(Prepare(env, a)) == multiset(Prepare(env, b))
    decreases |a|
  {
    hide Calibrated, Weigh;
    if a == [] {
      assert |multiset(b)| == 0;
    } else {
      var i := HeadIn(a, b);
      var front, back := b[..i], b[i + 1..];
      assert b == front + ([b[i]] + back);
      PreparePermutation(env, a[1..], front + back);
      PrepareConcat(env, front, back);
      PrepareConcat(env, front, [b[i]] + back);
      PrepareConcat(env, [b[i]], back);
    }
  }

  lemma AggregateIgnoresOrder(env: Environment, a: seq<Signal>, b: seq<Signal>)
    requires multiset(a) == multiset(b)
    ensures Aggregate(env, a) == Aggregate(env, b)
  {
    hide Combine, Prepare;
    PreparePermutation(env, a, b);
    OrderDoesNotMatter(env, Prepare(env, a), Prepare(env, b));
  }

  /** All weights multiplied by `k`. */
  function Scaled(k: real, ss: seq<Signal>): (r: seq<Signal>)
    ensures |r| == |ss| && forall i :: 0 <= i < |ss| ==> r[i] == Rescale(k, ss[i])
  {
    if ss == [] then [] else [Rescale(k, ss[0])] + Scaled(k, ss[1..])
  }

  function Rescale(k: real, s: Signal): Signal { s.(weight := k * s.weight) }

  lemma TermScales(k: real, s: Signal, m: real)
    ensures var t := Rescale(k, s);
            && EffectiveWeight(t) == k * EffectiveWeight(s)
            && ConfidenceTerm(t) == k * ConfidenceTerm(s)
            && UncertaintyTerm(t) == k * UncertaintyTerm(s)
            && DeviationTerm(m)(t) == k * DeviationTerm(m)(s)
  {
    var t := Rescale(k, s);
    ScaleAlgebra(k, s.weight, s.reliability, MaxOf(0.25, EvidenceFactor(s.evidence)));
    assert EffectiveWeight(t) == k * EffectiveWeight(s);
    hide EffectiveWeight;
    PullOut(k, s.confidence, EffectiveWeight(s));
    PullOut(k, s.uncertainty, EffectiveWeight(s));
    PullOut(k, (s.confidence - m) * (s.confidence - m), EffectiveWeight(s));
  }

  lemma ScaleAlgebra(k: real, w: real, r: real, f: real)
    ensures (k * w) * r * f == k * (w * r * f)
  {
  }

  lemma PullOut(k: real, c: real, w: real)
    ensures c * (k * w) == k * (c * w)
  {
  }

  lemma SumsScale(k: real, ss: seq<Signal>, m: real)
    ensures Total(Scaled(k, ss)) == k * Total(ss)
    ensures SumBy(Scaled(k, ss), ConfidenceTerm) == k * SumBy(ss, ConfidenceTerm)
    ensures SumBy(Scaled(k, ss), UncertaintyTerm) == k * SumBy(ss, UncertaintyTerm)
    ensures SumBy(Scaled(k, ss), DeviationTerm(m)) == k * SumBy(ss, DeviationTerm(m))
  {
    hide SumBy, EffectiveWeight, ConfidenceTerm, UncertaintyTerm, DeviationTerm, Scaled, Rescale;
    var r := Scaled(k, ss);
    forall i | 0 <= i < |ss|
      ensures EffectiveWeight(r[i]) == k * EffectiveWeight(ss[i])
      ensures ConfidenceTerm(r[i]) == k * ConfidenceTerm(ss[i])
      ensures UncertaintyTerm(r[i]) == k * UncertaintyTerm(ss[i])
      ensures DeviationTerm(m)(r[i]) == k * DeviationTerm(m)(ss[i])
    {
      TermScales(k, ss[i], m);
    }
    SumByScale(ss, r, EffectiveWeight, k);
    SumByScale(ss, r, ConfidenceTerm, k);
    SumByScale(ss, r, UncertaintyTerm, k);
    SumByScale(ss, r, DeviationTerm(m), k);
  }

  /** Evidence and trend are not weighted. */
  lemma {:induction false} CountsDoNotScale(k: real, ss: seq<Signal>)
    ensures SumBy(Scaled(k, ss), EvidenceTerm) == SumBy(ss, EvidenceTerm)
    ensures SumBy(Scaled(k, ss), TrendTerm) == SumBy(ss, TrendTerm)
  {
    if ss != [] {
      CountsDoNotScale(k, ss[1..]);
      assert Scaled(k, ss)[1..] == Scaled(k, ss[1..]);
    }
  }

  lemma Cancel(k: real, x: real, t: real)
    requires k > 0.0 && t > 0.0
    ensures k * t > 0.0 && (k * x) / (k * t) == x / t
  {
    Positive(k, t);
    var q := x / t;
    assert q * t == x;
    assert q * (k * t) == k * (q * t);
    Quotient(k * x, k * t, q, q);
  }

  lemma {:induction false} FromScales(k: real, ss: seq<Signal>, source: Source)
    ensures From(Scaled(k, ss), source) == Scaled(k, From(ss, source))
  {
    if ss != [] {
      FromScales(k, ss[1..], source);
      assert Scaled(k, ss)[1..] == Scaled(k, ss[1..]);
      if ss[0].source == source {
        assert From(ss, source)[1..] == From(ss[1..], source);
      } else {
        assert From(ss, source) == From(ss[1..], source);
      }
    }
  }

  lemma SourceUncertaintyScales(k: real, ss: seq<Signal>, source: Source)
    requires k > 0.0
    ensures SourceUncertainty(Scaled(k, ss), source) == SourceUncertainty(ss, source)
  {
    hide SumBy, Total, MeanUncertainty, Clamp01, From;
    FromScales(k, ss, source);
    StatisticsScale(k, From(ss, source));
  }

  lemma PositiveScales(k: real, t: real)
    requires k > 0.0
    ensures k * t > 0.0 <==> t > 0.0
  {
    if t > 0.0 {
      Positive(k, t);
    } else {
      Nonnegative(k, -t);
      assert k * -t == -(k * t);
    }
  }

  lemma StatisticsScale(k: real, ss: seq<Signal>)
    requires k > 0.0
    ensures Total(Scaled(k, ss)) > 0.0 <==> Total(ss) > 0.0
    ensures Total(ss) > 0.0 ==>
              && Mean(Scaled(k, ss)) == Mean(ss)
              && MeanUncertainty(Scaled(k, ss)) == MeanUncertainty(ss)
              && Variance(Scaled(k, ss)) == Variance(ss)
  {
    hide SumBy, Total, DeviationTerm;
    PositiveScales(k, Total(ss));
    SumsScale(k, ss, 0.0);
    if Total(ss) > 0.0 {
      SumsScale(k, ss, Mean(ss));
      Cancel(k, SumBy(ss, ConfidenceTerm), Total(ss));
      Cancel(k, SumBy(ss, UncertaintyTerm), Total(ss));
      Cancel(k, SumBy(ss, DeviationTerm(Mean(ss))), Total(ss));
    }
  }

  lemma ScoresScale(env: Environment, confidence: real, uncertainty: real, k: real, ss: seq<Signal>)
    requires k > 0.0
    ensures Scores(env, confidence, uncertainty, Scaled(k, ss)) == Scores(env, confidence, uncertainty, ss)
    ensures Width(env, uncertainty, Scaled(k, ss)) == Width(env, uncertainty, ss)
  {
    hide SourceUncertainty, Sigmoid, SumBy, Clamp01;
    CountsDoNotScale(k, ss);
    SourceUncertaintyScales(k, ss, Reflection);
    SourceUncertaintyScales(k, ss, Retrieval);
    SourceUncertaintyScales(k, ss, Planner);
    SourceUncertaintyScales(k, ss, Affect);
  }

  /** Only the ratios of the weights matter: scaling all of them changes nothing. */
  lemma OnlyRelativeWeightsMatter(env: Environment, k: real, ss: seq<Signal>)
    requires k > 0.0
    ensures Combine(env, Scaled(k, ss)) == Combine(env, ss)
  {
    hide Total, Mean, MeanUncertainty, Variance, SumBy, Normalise, Scores, Clamp01, Discounted, Blended, Width;
    StatisticsScale(k, ss);
    if ss != [] && Total(ss) > 0.0 {
      var e := Combine(env, ss);
      ScoresScale(env, e.confidence, e.uncertainty, k, ss);
    }
  }

  // ---- what the decisions respond to -------------------------------------------------------

  ghost predicate Increasing(env: Environment) {
    forall x, y :: x < y ==> env.sigmoid(x) < env.sigmoid(y)
  }

  lemma QuotientOrder(a: real, b: real, t: real)
    requires t > 0.0
    ensures a < b <==> a / t < b / t
  {
    var x, y := a / t, b / t;
    assert x * t == a && y * t == b;
    if x < y {
      StrictlyMonotone(x, y, t);
    } else {
      Monotone(y, x, t);
    }
  }

  lemma SigmoidOrder(env: Environment, a: real, b: real)
    requires Increasing(env)
    ensures Sigmoid(env, a) < Sigmoid(env, b) <==> a < b
  {
    var t := MaxOf(0.01, env.temperature);
    QuotientOrder(a, b, t);
    QuotientOrder(b, a, t);
    assert a / t < b / t ==> env.sigmoid(a / t) < env.sigmoid(b / t);
    assert b / t < a / t ==> env.sigmoid(b / t) < env.sigmoid(a / t);
  }

  /** How far a decision's pressure is above its midpoint, given the doubts of the sources and the trend. */
  function Excess(
    env: Environment, d: Decision, confidence: real, uncertainty: real, retrieval: real, reflection: real, planner: real,
    affect: real, trend: real): real
  {
    match d
    case Continue => confidence - env.continueMidpoint
    case Reflect => uncertainty + (5.0 * reflection + 3.0 * affect) / 20.0 - env.reflectMidpoint
    case Retry => uncertainty + (4.0 * retrieval + 4.0 * planner + 3.0 * trend) / 20.0 - env.retryMidpoint
    case AskUser => uncertainty + (3.0 * retrieval + 2.0 * planner) / 20.0 - env.askMidpoint
  }

  function ExcessOf(env: Environment, d: Decision, confidence: real, uncertainty: real, ss: seq<Signal>): real {
    Excess(env, d, confidence, uncertainty, SourceUncertainty(ss, Retrieval), SourceUncertainty(ss, Reflection),
           SourceUncertainty(ss, Planner), SourceUncertainty(ss, Affect), TrendPressure(ss))
  }

  /** A source's doubt is the weighted mean uncertainty of its own signals, and none if they have no weight. */
  lemma DoubtIsOfItsSource(ss: seq<Signal>, source: Source)
    requires AllValid(ss)
    ensures var own, doubt := From(ss, source), SourceUncertainty(ss, source);
            && 0.0 <= doubt <= 1.0
            && (Total(own) <= 0.0 ==> doubt == 0.0)
            && (Total(own) > 0.0 ==> doubt * Total(own) == SumBy(own, UncertaintyTerm))
  {
    var own := From(ss, source);
    OwnIsValid(ss, source);
    hide SumBy, From, AllValid;
    if Total(own) > 0.0 {
      MeanUncertaintyTimes(own);
    }
  }

  lemma {:induction false} OwnIsValid(ss: seq<Signal>, source: Source)
    requires AllValid(ss)
    ensures AllValid(From(ss, source))
  {
    if ss != [] {
      assert ss[0] in ss;
      OwnIsValid(ss[1..], source);
    }
  }

  lemma MeanUncertaintyTimes(ss: seq<Signal>)
    requires AllValid(ss) && Total(ss) > 0.0
    ensures MeanUncertainty(ss) * Total(ss) == SumBy(ss, UncertaintyTerm)
    ensures 0.0 <= MeanUncertainty(ss) <= 1.0
  {
    VarianceIsBounded(ss);
    hide SumBy, Total, Variance, Mean, AllValid;
  }

  function Trends(ss: seq<Signal>, trend: Trend): nat {
    if ss == [] then 0 else (if ss[0].trend == trend then 1 else 0) + Trends(ss[1..], trend)
  }

  lemma {:induction false} TrendTerms(ss: seq<Signal>)
    ensures SumBy(ss, TrendTerm) == Trends(ss, Degrading) as real - 0.5 * Trends(ss, Improving) as real
  {
    if ss != [] {
      TrendTerms(ss[1..]);
    }
  }

  /** The trend weighs a degrading signal twice as much as an improving one. */
  lemma TrendPressureIs(ss: seq<Signal>)
    requires ss != []
    ensures TrendPressure(ss)
         == Clamp01((Trends(ss, Degrading) as real - 0.5 * Trends(ss, Improving) as real) / |ss| as real)
  {
    TrendTerms(ss);
  }

  lemma ScoreIs(env: Environment, confidence: real, uncertainty: real, ss: seq<Signal>, d: Decision)
    ensures Scores(env, confidence, uncertainty, ss).Of(d) == Sigmoid(env, ExcessOf(env, d, confidence, uncertainty, ss))
  {
    hide SourceUncertainty, TrendPressure, Sigmoid;
  }

  /**
   * With an increasing sigmoid every decision's score rises with its own
   * excess and with nothing else: continuing with confidence, the others with
   * uncertainty and with the doubts and the trend they are about.
   */
  lemma ScoresFollowExcess(
    env: Environment, c1: real, u1: real, ss: seq<Signal>, c2: real, u2: real, tt: seq<Signal>, d: Decision)
    requires Increasing(env)
    ensures Scores(env, c1, u1, ss).Of(d) < Scores(env, c2, u2, tt).Of(d)
       <==> ExcessOf(env, d, c1, u1, ss) < ExcessOf(env, d, c2, u2, tt)
  {
    hide Scores, Sigmoid, ExcessOf;
    ScoreIs(env, c1, u1, ss, d);
    ScoreIs(env, c2, u2, tt, d);
    SigmoidOrder(env, ExcessOf(env, d, c1, u1, ss), ExcessOf(env, d, c2, u2, tt));
  }

  /** So the recommended decision is one with the greatest excess. */
  lemma RecommendationHasGreatestExcess(env: Environment, ss: seq<Signal>, d: Decision)
    requires env.Valid() && Increasing(env) && AllValid(ss) && Total(ss) > 0.0
    ensures var e := Combine(env, ss);
            ExcessOf(env, d, e.confidence, e.uncertainty, ss) <= ExcessOf(env, e.recommended, e.confidence, e.uncertainty, ss)
  {
    hide Variance, Mean, MeanUncertainty, Total, Width, Scores, Normalise, Disagreement, Clamp01, Discounted, Blended, ExcessOf, Sigmoid;
    if ss == [] {
      TotalOfNothing();
      assert false;
    }
    EstimateIsSound(env, ss);
    var e := Combine(env, ss);
    var p := Scores(env, e.confidence, e.uncertainty, ss);
    ScoresArePositive(env, e.confidence, e.uncertainty, ss);
    NormaliseIsDistribution(p);
    QuotientOrder(p.Of(e.recommended), p.Of(d), p.Sum());
    ScoreIs(env, e.confidence, e.uncertainty, ss, d);
    ScoreIs(env, e.confidence, e.uncertainty, ss, e.recommended);
    SigmoidOrder(env, ExcessOf(env, e.recommended, e.confidence, e.uncertainty, ss), ExcessOf(env, d, e.confidence, e.uncertainty, ss));
  }

  /** A prepared signal: the declared weight times the source's, and the calibrator's values. */
  ghost predicate IsPrepared(env: Environment, s: Signal, r: Signal) {
    var c := env.calibrate(s.(weight := s.weight * env.sourceWeight(s.source)));
    && r.source == s.source && r.evidence == s.evidence && r.trend == s.trend
    && r.weight == s.weight * env.sourceWeight(s.source)
    && (0.0 <= c.confidence <= 1.0 ==> r.confidence == c.confidence)
    && (0.0 <= c.uncertainty <= 1.0 ==> r.uncertainty == c.uncertainty)
    && (c.reliability == None ==> r.reliability == s.reliability)
    && (c.reliability.Some? && 0.0 <= c.reliability.value <= 1.0 ==> r.reliability == c.reliability.value)
  }

  lemma PreparedOne(env: Environment, s: Signal)
    requires s.Valid() && env.sourceWeight(s.source) >= 0.0
    ensures IsPrepared(env, s, Calibrated(env, Weigh(env, s)))
  {
    Nonnegative(s.weight, env.sourceWeight(s.source));
  }

  /** Preparation weighs and calibrates every signal in its place. */
  lemma {:induction false} SignalsArePrepared(env: Environment, signals: seq<Signal>)
    requires AllValid(signals) && forall source :: env.sourceWeight(source) >= 0.0
    ensures |Prepare(env, signals)| == |signals|
    ensures forall i :: 0 <= i < |signals| ==> IsPrepared(env, signals[i], Prepare(env, signals)[i])
  {
    hide Calibrated, Weigh, IsPrepared;
    if signals != [] {
      assert signals[0] in signals;
      PreparedOne(env, signals[0]);
      SignalsArePrepared(env, signals[1..]);
    }
  }
}
