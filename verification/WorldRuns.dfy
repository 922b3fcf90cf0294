/** What holds of every simulation. */
module WorldRuns {
  import opened Options
  import opened Sequences
  import opened Text
  import opened Numbers
  import opened World

  /** No rule writes the keys that `confidence()` reads. */
  predicate Quiet(rules: map<string, Rule>) {
    forall k :: k in rules ==>
      "overall_confidence" !in rules[k].transition.confidence && "confidence" !in rules[k].transition.confidence
  }

  lemma DefaultRulesAreQuiet()
    ensures Quiet(DefaultRules())
  {
  }

  lemma PredictKeepsConfidence(m: Model, constraints: seq<Constraint>, s: WorldState, action: Action)
    requires Quiet(m.rules)
    ensures ConfidenceOf(m.parse, Predict(m, constraints, s, action).after) == ConfidenceOf(m.parse, s)
  {
    hide ActionRisk, ActionFailure, ConstraintRisk, Dedup;
    var d := TransitionFor(m, action, s);
    assert "overall_confidence" !in d.confidence && "confidence" !in d.confidence;
  }

  /** Under quiet rules every action is judged with the confidence of the initial state. */
  lemma {:induction false} ConfidenceIsConstant(
    m: Model, constraints: seq<Constraint>, s: WorldState, actions: seq<Action>)
    requires Quiet(m.rules)
    ensures var ps := PredictAll(m, constraints, s, actions);
            var c := ConfidenceOf(m.parse, s);
            && (forall i :: 0 <= i < |ps| ==>
                  && ps[i].risk == ActionRisk(m, constraints, c)(actions[i])
                  && ps[i].failure == ActionFailure(m, constraints, c)(actions[i])
                  && ps[i].constraintRisk == ConstraintRisk(m, constraints, c)(actions[i]))
            && ConfidenceOf(m.parse, Reached(s, ps)) == c
    decreases |actions|
  {
    hide ActionRisk, ActionFailure, ConstraintRisk, ConfidenceOf, Merge, TransitionFor;
    if actions != [] {
      var p := Predict(m, constraints, s, actions[0]);
      PredictKeepsConfidence(m, constraints, s, actions[0]);
      ConfidenceIsConstant(m, constraints, p.after, actions[1..]);
      var rest := PredictAll(m, constraints, p.after, actions[1..]);
      var ps := PredictAll(m, constraints, s, actions);
      assert ps == [p] + rest;
      assert forall i :: 1 <= i < |ps| ==> ps[i] == rest[i - 1] && actions[i] == actions[1..][i - 1];
      if rest != [] {
        assert ps[|ps| - 1] == rest[|rest| - 1];
      }
    }
  }

  // ---- order ------------------------------------------------------------------------------

  lemma {:induction false} SumByImage<S, T>(s: seq<S>, t: seq<T>, f: S -> real, g: T -> real)
    requires |s| == |t| && forall i :: 0 <= i < |s| ==> f(s[i]) == g(t[i])
    ensures SumBy(s, f) == SumBy(t, g) && MaxBy(s, f) == MaxBy(t, g)
  {
    if s != [] {
      SumByImage(s[1..], t[1..], f, g);
    }
  }

  lemma MaxByPermutation<T>(a: seq<T>, b: seq<T>, f: T -> real)
    requires multiset(a) == multiset(b) && forall x :: x in a ==> f(x) >= 0.0
    ensures MaxBy(a, f) == MaxBy(b, f)
  {
    assert forall x :: x in a <==> x in multiset(a);
    assert forall x :: x in b <==> x in multiset(b);
    MaxByMeaning(a, f);
    MaxByMeaning(b, f);
    assert a == [] <==> b == [] by {
      assert |a| == |multiset(a)| && |b| == |multiset(b)|;
    }
  }

  lemma ConstraintRiskBounds(m: Model, constraints: seq<Constraint>, c: real, a: Action)
    ensures 0.0 <= ConstraintRisk(m, constraints, c)(a) <= 1.0
  {
    hide ViolationProbability;
    MaxByMeaning(constraints, Contribution(m, a.kind, c));
  }

  /** The aggregates as functions of the actions and one confidence. */
  function RiskAt(m: Model, constraints: seq<Constraint>, c: real, actions: seq<Action>, planConfidence: real): real {
    Clamp01(RiskMix(if actions == [] then 0.15 else MeanBy(actions, ActionRisk(m, constraints, c)),
                    MaxBy(actions, ConstraintRisk(m, constraints, c)), planConfidence))
  }

  function FailureAt(m: Model, constraints: seq<Constraint>, c: real, actions: seq<Action>, planConfidence: real): real {
    Clamp01(FailureMix(if actions == [] then 0.2 else MeanBy(actions, ActionFailure(m, constraints, c)),
                       RiskAt(m, constraints, c, actions, planConfidence), planConfidence))
  }

  /** The fold over states collapses: risk and failure need no state but the initial confidence. */
  lemma RiskNeedsNoStates(
    m: Model, constraints: seq<Constraint>, s: WorldState, actions: seq<Action>, planConfidence: real)
    requires Quiet(m.rules)
    ensures var out := Simulate(m, constraints, s, actions, planConfidence);
            var c := ConfidenceOf(m.parse, s);
            && out.risk == RiskAt(m, constraints, c, actions, planConfidence)
            && out.failure == FailureAt(m, constraints, c, actions, planConfidence)
  {
    hide ActionRisk, ActionFailure, ConstraintRisk, SumBy, MaxBy, ConfidenceOf, PredictAll, RiskMix, FailureMix;
    var c := ConfidenceOf(m.parse, s);
    var ps := PredictAll(m, constraints, s, actions);
    ConfidenceIsConstant(m, constraints, s, actions);
    SumByImage(ps, actions, RiskOf, ActionRisk(m, constraints, c));
    SumByImage(ps, actions, FailureOf, ActionFailure(m, constraints, c));
    SumByImage(ps, actions, ConstraintRiskOf, ConstraintRisk(m, constraints, c));
  }

  /** Reordering a plan changes neither its risk nor its failure probability. */
  lemma RiskIgnoresOrder(
    m: Model, constraints: seq<Constraint>, s: WorldState, a: seq<Action>, b: seq<Action>, planConfidence: real)
    requires Quiet(m.rules) && multiset(a) == multiset(b)
    ensures Simulate(m, constraints, s, a, planConfidence).risk == Simulate(m, constraints, s, b, planConfidence).risk
    ensures Simulate(m, constraints, s, a, planConfidence).failure == Simulate(m, constraints, s, b, planConfidence).failure
  {
    hide ActionRisk, ActionFailure, ConstraintRisk, SumBy, MaxBy, ConfidenceOf, Simulate, RiskMix, FailureMix;
    var c := ConfidenceOf(m.parse, s);
    assert |a| == |multiset(a)| == |multiset(b)| == |b|;
    RiskNeedsNoStates(m, constraints, s, a, planConfidence);
    RiskNeedsNoStates(m, constraints, s, b, planConfidence);
    SumByPermutation(a, b, ActionRisk(m, constraints, c));
    SumByPermutation(a, b, ActionFailure(m, constraints, c));
    forall x ensures ConstraintRisk(m, constraints, c)(x) >= 0.0 {
      ConstraintRiskBounds(m, constraints, c, x);
    }
    MaxByPermutation(a, b, ConstraintRisk(m, constraints, c));
  }

  lemma TwoRisks(a: Prediction, b: Prediction)
    requires a.constraintRisk == 0.0 == b.constraintRisk
    requires 0.0 <= a.risk <= 1.0 && 0.0 <= b.risk <= 1.0
    ensures AggregateRisk([a, b], 1.0) == (a.risk + b.risk) / 2.0 * 0.55
  {
    assert [a, b][1..] == [b] && [b][1..] == [];
    assert SumBy([a, b], RiskOf) == a.risk + SumBy([b], RiskOf) == a.risk + (b.risk + SumBy([], RiskOf));
    assert MaxBy([a, b], ConstraintRiskOf) == MaxOf(0.0, MaxBy([b], ConstraintRiskOf)) == 0.0;
  }

  lemma PlanOfTwo(m: Model, s: WorldState, a: Action, b: Action)
    ensures var p := Predict(m, [], s, a);
            var q := Predict(m, [], p.after, b);
            Simulate(m, [], s, [a, b], 1.0).risk == (p.risk + q.risk) / 2.0 * 0.55
  {
    hide RiskFor, TransitionFor, Merge, ConfidenceOf, AggregateRisk, AggregateFailure;
    var p := Predict(m, [], s, a);
    var q := Predict(m, [], p.after, b);
    assert [a, b][1..] == [b] && [b][1..] == [];
    assert PredictAll(m, [], p.after, [b]) == [q] + PredictAll(m, [], q.after, []);
    assert PredictAll(m, [], s, [a, b]) == [p] + PredictAll(m, [], p.after, [b]) == [p, q];
    TwoRisks(p, q);
  }

  const EMPTY_STATE := WorldState(map[], map[], map[], map[], map[], map[], [], map[])

  function LoudRules(): map<string, Rule> {
    map["loud" := Rule(NOTHING.(confidence := map["confidence" := Number(1.0)]), 0.0, 0.0),
        "still" := Rule(NOTHING, 0.5, 0.0)]
  }

  /** An example: with a rule that writes the confidence, order changes the risk. */
  lemma LoudRulesNotice(m: Model)
    requires m.rules == LoudRules()
    ensures var loud, still := Action("loud", "1", map[], false), Action("still", "2", map[], true);
            && !Quiet(m.rules)
            && Simulate(m, [], EMPTY_STATE, [loud, still], 1.0).risk < Simulate(m, [], EMPTY_STATE, [still, loud], 1.0).risk
  {
    var loud, still := Action("loud", "1", map[], false), Action("still", "2", map[], true);
    assert "confidence" in m.rules["loud"].transition.confidence;
    var p, q := Predict(m, [], EMPTY_STATE, loud), Predict(m, [], EMPTY_STATE, still);
    LoudAction(m, EMPTY_STATE, loud);
    LoudAction(m, q.after, loud);
    StillAction(m, EMPTY_STATE, still);
    StillAction(m, p.after, still);
    assert ConfidenceOf(m.parse, EMPTY_STATE) == 0.0;
    hide *;
    PlanOfTwo(m, EMPTY_STATE, loud, still);
    PlanOfTwo(m, EMPTY_STATE, still, loud);
  }

  lemma LoudAction(m: Model, s: WorldState, a: Action)
    requires m.rules == LoudRules() && a == Action("loud", "1", map[], false) && "overall_confidence" !in s.confidence
    ensures Predict(m, [], s, a).risk == (1.0 - ConfidenceOf(m.parse, s)) * 0.2
    ensures ConfidenceOf(m.parse, Predict(m, [], s, a).after) == 1.0
  {
    hide ActionFailure, Dedup;
  }

  lemma StillAction(m: Model, s: WorldState, a: Action)
    requires m.rules == LoudRules() && a == Action("still", "2", map[], true)
    ensures Predict(m, [], s, a).risk == 0.75 + (1.0 - ConfidenceOf(m.parse, s)) * 0.2
    ensures ConfidenceOf(m.parse, Predict(m, [], s, a).after) == ConfidenceOf(m.parse, s)
    ensures "overall_confidence" !in s.confidence ==> "overall_confidence" !in Predict(m, [], s, a).after.confidence
  {
    hide ActionFailure, Dedup;
  }

  /** No permutation of any plan, under any constraints and from any state, changes risk or failure probability. */
  ghost predicate IgnoresOrder(m: Model) {
    forall constraints, s, a, b, planConfidence :: multiset(a) == multiset(b) ==>
      && Simulate(m, constraints, s, a, planConfidence).risk == Simulate(m, constraints, s, b, planConfidence).risk
      && Simulate(m, constraints, s, a, planConfidence).failure == Simulate(m, constraints, s, b, planConfidence).failure
  }

  /** A kind of action no rule is about. */
  lemma {:induction false} FreshKind(kinds: set<string>) returns (kind: string)
    ensures forall k :: k in kinds ==> |k| < |kind|
    ensures kind !in kinds
  {
    if kinds == {} {
      kind := "";
    } else {
      var k :| k in kinds;
      var shorter := FreshKind(kinds - {k});
      kind := shorter + k + "x";
    }
  }

  function WithConfidence(key: string, r: real): WorldState {
    WorldState(map[], map[], map[key := Number(r)], map[], map[], map[], [], map[])
  }

  function Plain(kind: string): Action { Action(kind, "", map[], false) }

  lemma LoudStep(m: Model, kind: string, key: string, r: real)
    requires kind in m.rules && key in m.rules[kind].transition.confidence && 0.0 <= r <= 1.0
    requires key == "overall_confidence"
             || (key == "confidence" && "overall_confidence" !in m.rules[kind].transition.confidence)
    ensures var s := WithConfidence(key, r);
            && ConfidenceOf(m.parse, s) == r
            && ConfidenceOf(m.parse, Predict(m, [], s, Plain(kind)).after)
            == Score(m.parse, m.rules[kind].transition.confidence[key])
  {
    hide ActionRisk, ActionFailure, ConstraintRisk, Dedup;
    var s := WithConfidence(key, r);
    var d := TransitionFor(m, Plain(kind), s);
    assert d.confidence[key] == m.rules[kind].transition.confidence[key];
  }

  lemma UnknownStep(m: Model, kind: string, s: WorldState)
    requires kind !in m.rules
    ensures var p, c := Predict(m, [], s, Plain(kind)), ConfidenceOf(m.parse, s);
            && ConfidenceOf(m.parse, p.after) == c
            && p.risk == 0.3 + (1.0 - c) * 0.2
  {
    hide ActionFailure, Dedup;
    assert s.confidence + map[] == s.confidence;
  }

  lemma RiskNeedsConfidenceOnly(m: Model, s: WorldState, t: WorldState, a: Action)
    requires ConfidenceOf(m.parse, s) == ConfidenceOf(m.parse, t)
    ensures Predict(m, [], s, a).risk == Predict(m, [], t, a).risk
  {
  }

  lemma OrdersDiffer(m: Model, s: WorldState, l: Action, x: Action)
    requires Predict(m, [], Predict(m, [], s, x).after, l).risk == Predict(m, [], s, l).risk
    requires Predict(m, [], Predict(m, [], s, l).after, x).risk != Predict(m, [], s, x).risk
    ensures !IgnoresOrder(m)
  {
    PlanOfTwo(m, s, l, x);
    PlanOfTwo(m, s, x, l);
    hide Predict, Simulate;
    assert Simulate(m, [], s, [l, x], 1.0).risk != Simulate(m, [], s, [x, l], 1.0).risk;
    assert multiset([l, x]) == multiset([x, l]);
  }

  /** An unknown action before or after the loud one is judged with two different confidences. */
  lemma LoudRuleIsNoticed(m: Model, kind: string, key: string)
    requires kind in m.rules && key in m.rules[kind].transition.confidence
    requires key == "overall_confidence"
             || (key == "confidence" && "overall_confidence" !in m.rules[kind].transition.confidence)
    ensures !IgnoresOrder(m)
  {
    hide Predict, Simulate, ConfidenceOf, WithConfidence, Plain, Score, IgnoresOrder;
    var score := Score(m.parse, m.rules[kind].transition.confidence[key]);
    var r := if score >= 0.5 then 0.0 else 1.0;
    var s := WithConfidence(key, r);
    var other := FreshKind(m.rules.Keys);
    var l, x := Plain(kind), Plain(other);
    LoudStep(m, kind, key, r);
    UnknownStep(m, other, s);
    UnknownStep(m, other, Predict(m, [], s, l).after);
    RiskNeedsConfidenceOnly(m, s, Predict(m, [], s, x).after, l);
    OrdersDiffer(m, s, l, x);
  }

  /** Order never matters exactly when no rule writes a key that `confidence()` reads. */
  lemma OrderIgnoredIff(m: Model)
    ensures IgnoresOrder(m) <==> Quiet(m.rules)
  {
    hide Simulate;
    if Quiet(m.rules) {
      forall constraints, s, a, b, planConfidence | multiset(a) == multiset(b)
        ensures && Simulate(m, constraints, s, a, planConfidence).risk == Simulate(m, constraints, s, b, planConfidence).risk
                && Simulate(m, constraints, s, a, planConfidence).failure == Simulate(m, constraints, s, b, planConfidence).failure
      {
        RiskIgnoresOrder(m, constraints, s, a, b, planConfidence);
      }
    } else {
      var k :| k in m.rules &&
        ("overall_confidence" in m.rules[k].transition.confidence || "confidence" in m.rules[k].transition.confidence);
      LoudRuleIsNoticed(m, k, if "overall_confidence" in m.rules[k].transition.confidence then "overall_confidence" else "confidence");
    }
  }

  // ---- what the confidence is ------------------------------------------------------------

  /** A stored score is read back, clamped, from the first of its two keys; without one, or where it is no number, it is zero. */
  lemma ConfidenceIsReadBack(parse: string -> Option<real>, s: WorldState, r: real, b: bool, record: Section)
    ensures var first := (v: Value) => ConfidenceOf(parse, s.(confidence := s.confidence["overall_confidence" := v]));
            var second := (v: Value) => ConfidenceOf(parse, s.(confidence := s.confidence["confidence" := v]));
            var rest := s.confidence - {"overall_confidence", "confidence"};
            && (0.0 <= r <= 1.0 ==> first(Number(r)) == r)
            && (r < 0.0 ==> first(Number(r)) == 0.0)
            && (r > 1.0 ==> first(Number(r)) == 1.0)
            && (b ==> first(Truth(b)) == 1.0)
            && (!b ==> first(Truth(b)) == 0.0)
            && first(Record(record)) == 0.0
            && ("overall_confidence" !in s.confidence ==> second(Number(r)) == first(Number(r)))
            && ("overall_confidence" in s.confidence ==> second(Number(r)) == ConfidenceOf(parse, s))
            && ConfidenceOf(parse, s.(confidence := rest)) == 0.0
  {
  }

  // ---- what moves the risk ---------------------------------------------------------------

  lemma {:induction false} BelowBy<T>(s: seq<T>, f: T -> real, g: T -> real)
    requires forall x :: x in s ==> f(x) <= g(x)
    ensures SumBy(s, f) <= SumBy(s, g) && MaxBy(s, f) <= MaxBy(s, g)
  {
    if s != [] {
      assert s[0] in s;
      BelowBy(s[1..], f, g);
    }
  }

  lemma {:induction false} MaxByGrows<T>(s: seq<T>, more: T, f: T -> real)
    ensures MaxBy(s, f) <= MaxBy(s + [more], f)
  {
    if s == [] {
      assert s + [more] == [more];
    } else {
      assert (s + [more])[1..] == s[1..] + [more];
      MaxByGrows(s[1..], more, f);
    }
  }

  /** Whatever a constraint says, more confidence never makes its violation more likely. */
  lemma ViolationFallsWithConfidence(m: Model, description: string, kind: string, low: real, high: real)
    requires low <= high
    ensures ViolationProbability(m, description, kind, high) <= ViolationProbability(m, description, kind, low)
  {
    hide Mentions, Lower;
  }

  /** None of the words that matter. */
  predicate SaysNothing(d: string) {
    && !Mentions(d, "must not execute external tools") && !Mentions(d, "must not invoke language models")
    && !Mentions(d, "uncertainty") && !Mentions(d, "unsupported") && !Mentions(d, "reflection") && !Mentions(d, "workflow")
  }

  /** The words of a constraint that raise its violation probability, each above the 0.08 of any constraint. */
  lemma ViolationHeedsWords(m: Model, description: string, kind: string, c: real)
    requires 0.0 <= c <= 1.0
    ensures var p, d := ViolationProbability(m, description, kind, c), Lower(m.charset, description);
            && 0.08 <= p <= 1.0
            && (Mentions(d, "must not execute external tools") ==>
                  p >= if kind == "review_state" || kind == "request_reflection" then 0.13 else 0.48)
            && (Mentions(d, "must not invoke language models") ==> p >= 0.13)
            && (Mentions(d, "uncertainty") || Mentions(d, "unsupported") ==> p >= 0.08 + (1.0 - c) * 0.3)
            && (Mentions(d, "reflection") && kind != "request_reflection" ==> p >= 0.23)
            && (Mentions(d, "workflow") ==> p >= 0.12)
            && (SaysNothing(d) ==> p == 0.08)
  {
    hide Mentions, Lower;
  }

  /** The topics a constraint's wording touches. */
  datatype Topics = Topics(tools: bool, models: bool, doubt: bool, reflection: bool, workflow: bool)

  function TopicsOf(m: Model, description: string): Topics {
    var d := Lower(m.charset, description);
    Topics(Mentions(d, "must not execute external tools"), Mentions(d, "must not invoke language models"),
           Mentions(d, "uncertainty") || Mentions(d, "unsupported"), Mentions(d, "reflection"), Mentions(d, "workflow"))
  }

  /** Of two constraints that differ in one topic, the one that touches it is likelier to be violated by that topic's weight. */
  lemma EachTopicHasItsWeight(m: Model, plain: string, said: string, kind: string, c: real)
    requires 0.0 <= c <= 1.0
    ensures var was, topics := TopicsOf(m, plain), TopicsOf(m, said);
            var p, q := ViolationProbability(m, plain, kind, c), ViolationProbability(m, said, kind, c);
            && (topics == was ==> q == p)
            && (!was.tools && topics == was.(tools := true) ==>
                  q == MinOf(1.0, p + if kind in {"review_state", "request_reflection"} then 0.05 else 0.4))
            && (!was.models && topics == was.(models := true) ==> q == MinOf(1.0, p + 0.05))
            && (!was.doubt && topics == was.(doubt := true) ==> q == MinOf(1.0, p + 0.3 - 0.3 * c))
            && (!was.reflection && topics == was.(reflection := true) ==>
                  q == if kind == "request_reflection" then p else MinOf(1.0, p + 0.15))
            && (!was.workflow && topics == was.(workflow := true) ==> q == MinOf(1.0, p + 0.04))
  {
    hide Mentions, Lower;
  }

  /** Four fifths of a required constraint's violation probability press on an action, and seven twentieths of an optional one's. */
  lemma RequiredWeighsMore(m: Model, kind: string, c: real, k: Constraint)
    requires 0.0 <= c <= 1.0
    ensures var p := ViolationProbability(m, k.description, kind, c);
            && 5.0 * Contribution(m, kind, c)(k.(required := true)) == 4.0 * p
            && 20.0 * Contribution(m, kind, c)(k.(required := false)) == 7.0 * p
            && Contribution(m, kind, c)(k.(required := false)) < Contribution(m, kind, c)(k.(required := true))
  {
    ViolationHeedsWords(m, k.description, kind, c);
    TwoShares(ViolationProbability(m, k.description, kind, c));
    hide ViolationProbability, Clamp01, Mentions, Lower;
  }

  lemma TwoShares(p: real)
    requires 0.08 <= p <= 1.0
    ensures 20.0 * Clamp01(p * 0.35) == 7.0 * p && 5.0 * Clamp01(p * 0.8) == 4.0 * p
  {
  }

  /** Ten constraints press on an action's own risk by a fortieth each; eight required ones on its failure, the last by half as much. */
  lemma ConstraintsPress(m: Model, a: Action, c: real, constraints: seq<Constraint>, more: Constraint)
    requires 0.0 <= c <= 1.0
    requires a.kind in m.rules ==> m.rules[a.kind].risk >= 0.0 && m.rules[a.kind].failure >= 0.0
    ensures RiskFor(m, a, c, constraints + [more])
         == if |constraints| < 10 then MinOf(1.0, RiskFor(m, a, c, constraints) + 0.025) else RiskFor(m, a, c, constraints)
    ensures FailureFor(m, a, c, constraints + [more])
         == if !more.required || RequiredCount(constraints) > 7 then FailureFor(m, a, c, constraints)
            else MinOf(1.0, FailureFor(m, a, c, constraints) + if RequiredCount(constraints) < 7 then 0.04 else 0.02)
  {
    RequiredCountAppend(constraints, more);
    hide RequiredCount;
    var n := RequiredCount(constraints);
    assert (n + 1) as real == n as real + 1.0;
    assert |constraints + [more]| as real == |constraints| as real + 1.0;
  }

  /** The worst constraint bounds an action's risk from below in full, its failure in seventeen twentieths; otherwise its own score counts. */
  lemma WorstConstraintCounts(m: Model, constraints: seq<Constraint>, a: Action, c: real)
    ensures var risk, failure := ActionRisk(m, constraints, c)(a), ActionFailure(m, constraints, c)(a);
            var worst := ConstraintRisk(m, constraints, c)(a);
            && risk >= worst && risk >= RiskFor(m, a, c, constraints)
            && (risk > worst ==> risk == RiskFor(m, a, c, constraints))
            && 20.0 * failure >= 17.0 * worst && failure >= FailureFor(m, a, c, constraints)
            && (20.0 * failure > 17.0 * worst ==> failure == FailureFor(m, a, c, constraints))
  {
    hide ViolationProbability, RequiredCount, ConstraintRisk;
    ConstraintRiskBounds(m, constraints, c, a);
  }

  lemma ActionFallsWithConfidence(m: Model, constraints: seq<Constraint>, a: Action, low: real, high: real)
    requires low <= high
    ensures ConstraintRisk(m, constraints, high)(a) <= ConstraintRisk(m, constraints, low)(a)
    ensures ActionRisk(m, constraints, high)(a) <= ActionRisk(m, constraints, low)(a)
    ensures ActionFailure(m, constraints, high)(a) <= ActionFailure(m, constraints, low)(a)
  {
    hide ViolationProbability, RequiredCount;
    forall k | k in constraints ensures Contribution(m, a.kind, high)(k) <= Contribution(m, a.kind, low)(k) {
      ViolationFallsWithConfidence(m, k.description, a.kind, low, high);
    }
    BelowBy(constraints, Contribution(m, a.kind, high), Contribution(m, a.kind, low));
  }

  lemma {:induction false} RequiredCountAppend(constraints: seq<Constraint>, more: Constraint)
    ensures RequiredCount(constraints + [more]) == RequiredCount(constraints) + if more.required then 1 else 0
  {
    if constraints == [] {
      assert constraints + [more] == [more] && [more][1..] == [];
    } else {
      assert (constraints + [more])[1..] == constraints[1..] + [more];
      RequiredCountAppend(constraints[1..], more);
    }
  }

  lemma ActionRisesWithConstraint(m: Model, constraints: seq<Constraint>, more: Constraint, a: Action, c: real)
    ensures ConstraintRisk(m, constraints, c)(a) <= ConstraintRisk(m, constraints + [more], c)(a)
    ensures ActionRisk(m, constraints, c)(a) <= ActionRisk(m, constraints + [more], c)(a)
    ensures ActionFailure(m, constraints, c)(a) <= ActionFailure(m, constraints + [more], c)(a)
  {
    hide ViolationProbability, RiskFor, FailureFor;
    MaxByGrows(constraints, more, Contribution(m, a.kind, c));
    OwnRiskRises(m, constraints, more, a, c);
    OwnFailureRises(m, constraints, more, a, c);
  }

  lemma OwnRiskRises(m: Model, constraints: seq<Constraint>, more: Constraint, a: Action, c: real)
    ensures RiskFor(m, a, c, constraints) <= RiskFor(m, a, c, constraints + [more])
  {
    assert |constraints + [more]| as real == |constraints| as real + 1.0;
  }

  lemma OwnFailureRises(m: Model, constraints: seq<Constraint>, more: Constraint, a: Action, c: real)
    ensures FailureFor(m, a, c, constraints) <= FailureFor(m, a, c, constraints + [more])
  {
    RequiredCountAppend(constraints, more);
    hide RequiredCount;
    var n := RequiredCount(constraints);
    assert (n + 1) as real == n as real + 1.0;
  }

  /** Without constraints an action is judged by its rule, the missing confidence, and its need of an external tool. */
  lemma UnconstrainedAction(m: Model, a: Action, c: real)
    requires 0.0 <= c <= 1.0
    ensures ConstraintRisk(m, [], c)(a) == 0.0
    ensures ActionRisk(m, [], c)(a)
         == Clamp01((if a.kind in m.rules then m.rules[a.kind].risk else 0.3) + (1.0 - c) / 5.0
                    + if a.externalTool then 0.25 else 0.0)
    ensures ActionFailure(m, [], c)(a)
         == Clamp01((if a.kind in m.rules then m.rules[a.kind].failure else 0.28) + (1.0 - c) / 4.0)
  {
  }

  /** Actions that are pointwise riskier make a riskier plan. */
  lemma AggregatesAreMonotone(
    m: Model, k1: seq<Constraint>, c1: real, k2: seq<Constraint>, c2: real, actions: seq<Action>, planConfidence: real)
    requires forall a :: a in actions ==>
               && ConstraintRisk(m, k1, c1)(a) <= ConstraintRisk(m, k2, c2)(a)
               && ActionRisk(m, k1, c1)(a) <= ActionRisk(m, k2, c2)(a)
               && ActionFailure(m, k1, c1)(a) <= ActionFailure(m, k2, c2)(a)
    ensures RiskAt(m, k1, c1, actions, planConfidence) <= RiskAt(m, k2, c2, actions, planConfidence)
    ensures FailureAt(m, k1, c1, actions, planConfidence) <= FailureAt(m, k2, c2, actions, planConfidence)
  {
    hide ActionRisk, ActionFailure, ConstraintRisk, SumBy, MaxBy;
    BelowBy(actions, ConstraintRisk(m, k1, c1), ConstraintRisk(m, k2, c2));
    BelowBy(actions, ActionRisk(m, k1, c1), ActionRisk(m, k2, c2));
    BelowBy(actions, ActionFailure(m, k1, c1), ActionFailure(m, k2, c2));
    if actions != [] {
      MeanIsMonotone(SumBy(actions, ActionRisk(m, k1, c1)), SumBy(actions, ActionRisk(m, k2, c2)), |actions|);
      MeanIsMonotone(SumBy(actions, ActionFailure(m, k1, c1)), SumBy(actions, ActionFailure(m, k2, c2)), |actions|);
    }
  }

  lemma MeanIsMonotone(x: real, y: real, n: nat)
    requires x <= y && n > 0
    ensures x / n as real <= y / n as real
  {
    var t := n as real;
    var p, q := x / t, y / t;
    assert p * t == x && q * t == y;
    if q < p {
      StrictlyMonotone(q, p, t);
      assert false;
    }
  }

  /** A more confident state never makes a plan riskier or likelier to fail. */
  lemma RiskFallsWithConfidence(
    m: Model, constraints: seq<Constraint>, s: WorldState, t: WorldState, actions: seq<Action>, planConfidence: real)
    requires Quiet(m.rules) && ConfidenceOf(m.parse, s) <= ConfidenceOf(m.parse, t)
    ensures Simulate(m, constraints, t, actions, planConfidence).risk <= Simulate(m, constraints, s, actions, planConfidence).risk
    ensures Simulate(m, constraints, t, actions, planConfidence).failure <= Simulate(m, constraints, s, actions, planConfidence).failure
  {
    hide ActionRisk, ActionFailure, ConstraintRisk, ConfidenceOf, Simulate, RiskAt, FailureAt;
    var low, high := ConfidenceOf(m.parse, s), ConfidenceOf(m.parse, t);
    forall a | a in actions
      ensures && ConstraintRisk(m, constraints, high)(a) <= ConstraintRisk(m, constraints, low)(a)
              && ActionRisk(m, constraints, high)(a) <= ActionRisk(m, constraints, low)(a)
              && ActionFailure(m, constraints, high)(a) <= ActionFailure(m, constraints, low)(a)
    {
      ActionFallsWithConfidence(m, constraints, a, low, high);
    }
    AggregatesAreMonotone(m, constraints, high, constraints, low, actions, planConfidence);
    RiskNeedsNoStates(m, constraints, s, actions, planConfidence);
    RiskNeedsNoStates(m, constraints, t, actions, planConfidence);
  }

  /** Neither does dropping a constraint. */
  lemma RiskRisesWithConstraints(
    m: Model, constraints: seq<Constraint>, more: Constraint, s: WorldState, actions: seq<Action>, planConfidence: real)
    requires Quiet(m.rules)
    ensures Simulate(m, constraints, s, actions, planConfidence).risk
         <= Simulate(m, constraints + [more], s, actions, planConfidence).risk
    ensures Simulate(m, constraints, s, actions, planConfidence).failure
         <= Simulate(m, constraints + [more], s, actions, planConfidence).failure
  {
    hide ActionRisk, ActionFailure, ConstraintRisk, ConfidenceOf, Simulate, RiskAt, FailureAt;
    var c := ConfidenceOf(m.parse, s);
    forall a | a in actions
      ensures && ConstraintRisk(m, constraints, c)(a) <= ConstraintRisk(m, constraints + [more], c)(a)
              && ActionRisk(m, constraints, c)(a) <= ActionRisk(m, constraints + [more], c)(a)
              && ActionFailure(m, constraints, c)(a) <= ActionFailure(m, constraints + [more], c)(a)
    {
      ActionRisesWithConstraint(m, constraints, more, a, c);
    }
    AggregatesAreMonotone(m, constraints, c, constraints + [more], c, actions, planConfidence);
    RiskNeedsNoStates(m, constraints, s, actions, planConfidence);
    RiskNeedsNoStates(m, constraints + [more], s, actions, planConfidence);
  }

  // ---- what a step writes -------------------------------------------------------------------

  /** `n` has the keys of both, and the update's value wherever it has one. */
  predicate Updated(was: Section, update: Section, n: Section) {
    && n.Keys == was.Keys + update.Keys
    && forall k :: k in n ==> n[k] == if k in update then update[k] else was[k]
  }

  /** Merging updates every section with its own part of the delta; constraints are joined without repetition, the old ones first. */
  lemma MergeMeaning(s: WorldState, d: Delta)
    ensures var n := Merge(s, d);
            && Updated(s.goal, d.goal, n.goal) && Updated(s.task, d.task, n.task)
            && Updated(s.confidence, d.confidence, n.confidence) && Updated(s.emotional, d.emotional, n.emotional)
            && Updated(s.environment, d.environment, n.environment) && Updated(s.execution, d.execution, n.execution)
            && Updated(s.metadata, d.metadata, n.metadata)
            && Distinct(n.constraints) && (forall c :: c in n.constraints <==> c in s.constraints || c in d.constraints)
            && Dedup(s.constraints) <= n.constraints
  {
    DedupMeaning(s.constraints + d.constraints);
    DedupPrefix(s.constraints, d.constraints);
    hide Dedup;
  }

  lemma {:induction false} DedupPrefix(a: seq<string>, b: seq<string>)
    ensures Dedup(a) <= Dedup(a + b)
    decreases |b|
  {
    if b == [] {
      assert a + b == a;
    } else {
      var front, last := b[..|b| - 1], b[|b| - 1];
      assert a + b == (a + front) + [last];
      DedupPrefix(a, front);
      DedupAppend(a + front, last);
    }
  }

  /** A known action's transition is its rule's, with a note of the action's own metadata and of the confidence before it, where there is any. */
  lemma TransitionMeaning(m: Model, action: Action, s: WorldState)
    ensures var d, c := TransitionFor(m, action, s), ConfidenceOf(m.parse, s);
            && (action.kind !in m.rules ==> d == NOTHING.(execution := map["unknown_action_predicted" := Str(action.kind)]))
            && (action.kind in m.rules ==>
                  var base := m.rules[action.kind].transition;
                  && d == base.(metadata := d.metadata, confidence := d.confidence)
                  && Updated(base.metadata,
                             if action.metadata != map[] then map["action_" + action.id := Record(action.metadata)] else map[],
                             d.metadata)
                  && Updated(base.confidence, if c != 0.0 then map["pre_execution_confidence" := Number(c)] else map[],
                             d.confidence))
  {
  }

  /** The outcome carries the plan's risk, its failure probability and the number of its actions. */
  lemma OutcomeCarriesSummary(
    m: Model, constraints: seq<Constraint>, s: WorldState, actions: seq<Action>, planConfidence: real)
    ensures var out := Simulate(m, constraints, s, actions, planConfidence);
            var e := out.expected;
            && out.initial == s
            && "world_model_risk" in e.confidence && e.confidence["world_model_risk"] == Number(out.risk)
            && "world_model_failure_probability" in e.confidence
            && e.confidence["world_model_failure_probability"] == Number(out.failure)
            && "predicted_action_count" in e.execution && e.execution["predicted_action_count"] == Number(|actions| as real)
            && "world_model_simulated" in e.execution && e.execution["world_model_simulated"] == Truth(true)
            && "symbolic_world_model" in e.metadata && e.metadata["symbolic_world_model"] == Truth(true)
            && "deterministic" in e.metadata && e.metadata["deterministic"] == Truth(true)
  {
    hide AggregateRisk, AggregateFailure, PredictAll, Dedup;
  }

  // ---- replay --------------------------------------------------------------------------------

  function Replay(s: WorldState, deltas: seq<Delta>): WorldState
    decreases |deltas|
  {
    if deltas == [] then s else Replay(Merge(s, deltas[0]), deltas[1..])
  }

  function Deltas(ps: seq<Prediction>): (r: seq<Delta>)
    ensures |r| == |ps|
  {
    if ps == [] then [] else [ps[0].delta] + Deltas(ps[1..])
  }

  /** The recorded transitions chain, and replaying their deltas reproduces the expected state before the summary. */
  lemma {:induction false} ReplayReproduces(m: Model, constraints: seq<Constraint>, s: WorldState, actions: seq<Action>)
    ensures var ps := PredictAll(m, constraints, s, actions);
            && Replay(s, Deltas(ps)) == Reached(s, ps)
            && (ps != [] ==> ps[0].before == s)
            && (forall i :: 0 < i < |ps| ==> ps[i].before == ps[i - 1].after)
            && (forall i :: 0 <= i < |ps| ==> ps[i].after == Merge(ps[i].before, ps[i].delta))
    decreases |actions|
  {
    hide ActionRisk, ActionFailure, ConstraintRisk, ConfidenceOf, TransitionFor, Merge;
    if actions != [] {
      var p := Predict(m, constraints, s, actions[0]);
      ReplayReproduces(m, constraints, p.after, actions[1..]);
      var rest := PredictAll(m, constraints, p.after, actions[1..]);
      var ps := PredictAll(m, constraints, s, actions);
      assert ps == [p] + rest && ps[1..] == rest;
      assert Deltas(ps)[1..] == Deltas(rest);
      assert forall i :: 1 <= i < |ps| ==> ps[i] == rest[i - 1];
      if rest != [] {
        assert ps[|ps| - 1] == rest[|rest| - 1];
      }
    }
  }

  /** Only the summary separates the outcome from the replayed deltas. */
  lemma OutcomeIsReplayPlusSummary(
    m: Model, constraints: seq<Constraint>, s: WorldState, actions: seq<Action>, planConfidence: real)
    ensures var out := Simulate(m, constraints, s, actions, planConfidence);
            out.expected == Merge(Replay(s, Deltas(out.predictions)), Summary(out.risk, out.failure, |actions|))
  {
    hide Merge, Summary, Replay, Deltas, PredictAll, AggregateRisk, AggregateFailure;
    ReplayReproduces(m, constraints, s, actions);
  }

  /** The default rules never touch goals, tasks, emotions or the environment. */
  predicate Local(rules: map<string, Rule>) {
    forall k :: k in rules ==>
      var t := rules[k].transition;
      t.goal == map[] && t.task == map[] && t.emotional == map[] && t.environment == map[] && t.constraints == []
  }

  lemma DefaultRulesAreLocal()
    ensures Local(DefaultRules())
  {
  }

  /** Each of them marks its own step as done, and as the last one. */
  lemma DefaultRulesRecordStep(kind: string)
    requires kind in DefaultRules()
    ensures var e := DefaultRules()[kind].transition.execution;
            && "last_symbolic_step" in e && e["last_symbolic_step"] == Str(kind)
            && forall k :: k in e && k != "last_symbolic_step" ==> e[k] == Truth(true)
    ensures exists k :: k in DefaultRules()[kind].transition.execution && k != "last_symbolic_step"
  {
    var flag := match kind
      case "review_state" => "state_reviewed"
      case "integrate_memory" => "memory_integrated"
      case "apply_affective_priors" => "affect_priors_applied"
      case "resolve_uncertainty" => "uncertainty_addressed"
      case "request_reflection" => "reflection_checkpoint_predicted"
      case "plan_state_transition" => "state_transition_planned"
      case _ => "response_prepared";
    assert flag in DefaultRules()[kind].transition.execution;
  }

  predicate SameFrame(s: WorldState, t: WorldState) {
    && t.goal == s.goal && t.task == s.task && t.emotional == s.emotional && t.environment == s.environment
    && Elements(t.constraints) == Elements(s.constraints)
  }

  lemma MergeKeepsFrame(s: WorldState, d: Delta)
    requires d.goal == map[] && d.task == map[] && d.emotional == map[] && d.environment == map[] && d.constraints == []
    ensures SameFrame(s, Merge(s, d))
    ensures Distinct(Merge(s, d).constraints)
  {
    assert s.constraints + [] == s.constraints;
    DedupMeaning(s.constraints);
  }

  /** A simulation predicts execution, confidence and metadata only; constraints lose their duplicates and nothing else. */
  lemma {:induction false} SimulationIsLocal(
    m: Model, constraints: seq<Constraint>, s: WorldState, actions: seq<Action>, planConfidence: real)
    requires Local(m.rules)
    ensures SameFrame(s, Simulate(m, constraints, s, actions, planConfidence).expected)
    ensures Distinct(Simulate(m, constraints, s, actions, planConfidence).expected.constraints)
  {
    hide Merge, AggregateRisk, AggregateFailure, PredictAll, SameFrame, Reached;
    var out := Simulate(m, constraints, s, actions, planConfidence);
    ReachedKeepsFrame(m, constraints, s, actions);
    MergeKeepsFrame(Reached(s, out.predictions), Summary(out.risk, out.failure, |actions|));
    SameFrameTrans(s, Reached(s, out.predictions), out.expected);
  }

  lemma SameFrameTrans(a: WorldState, b: WorldState, c: WorldState)
    requires SameFrame(a, b) && SameFrame(b, c)
    ensures SameFrame(a, c)
  {
  }

  lemma {:induction false} ReachedKeepsFrame(m: Model, constraints: seq<Constraint>, s: WorldState, actions: seq<Action>)
    requires Local(m.rules)
    ensures SameFrame(s, Reached(s, PredictAll(m, constraints, s, actions)))
    decreases |actions|
  {
    hide Merge, ActionRisk, ActionFailure, ConstraintRisk, ConfidenceOf;
    if actions != [] {
      var p := Predict(m, constraints, s, actions[0]);
      MergeKeepsFrame(s, TransitionFor(m, actions[0], s));
      ReachedKeepsFrame(m, constraints, p.after, actions[1..]);
      var rest := PredictAll(m, constraints, p.after, actions[1..]);
      assert PredictAll(m, constraints, s, actions) == [p] + rest;
      SameFrameTrans(s, p.after, Reached(p.after, rest));
    }
  }

  // ---- aggregates -----------------------------------------------------------------------------

  lemma {:induction false} PredictionsAreScores(m: Model, constraints: seq<Constraint>, s: WorldState, actions: seq<Action>)
    ensures forall p :: p in PredictAll(m, constraints, s, actions) ==>
              0.0 <= p.risk <= 1.0 && 0.0 <= p.failure <= 1.0 && 0.0 <= p.constraintRisk <= p.risk
    decreases |actions|
  {
    hide RiskFor, FailureFor, ConfidenceOf, TransitionFor, Merge, MaxBy;
    if actions != [] {
      var p := Predict(m, constraints, s, actions[0]);
      ConstraintRiskBounds(m, constraints, ConfidenceOf(m.parse, s), actions[0]);
      PredictionsAreScores(m, constraints, p.after, actions[1..]);
    }
  }

  lemma MeanBounds<T>(s: seq<T>, f: T -> real, lo: real, hi: real)
    requires s != [] && forall x :: x in s ==> lo <= f(x) <= hi
    ensures lo <= MeanBy(s, f) <= hi
  {
    SumByBounds(s, f, lo, hi);
    Quotient(SumBy(s, f), |s| as real, lo, hi);
  }

  /**
   * Both aggregates are convex combinations of scores, so their clamps never
   * change them; and the risk is at most the worst of mean action risk,
   * constraint risk and missing plan confidence.
   */
  lemma AggregatesAreConvex(
    m: Model, constraints: seq<Constraint>, s: WorldState, actions: seq<Action>, planConfidence: real)
    requires 0.0 <= planConfidence <= 1.0
    ensures var out := Simulate(m, constraints, s, actions, planConfidence);
            var ps := out.predictions;
            && out.risk == RiskMix(if ps == [] then 0.15 else MeanBy(ps, RiskOf), MaxBy(ps, ConstraintRiskOf), planConfidence)
            && out.failure == FailureMix(if ps == [] then 0.2 else MeanBy(ps, FailureOf), out.risk, planConfidence)
            && 0.0 <= out.risk <= 1.0 && 0.0 <= out.failure <= 1.0
            && out.risk <= MaxOf(MaxOf(if ps == [] then 0.15 else MeanBy(ps, RiskOf), MaxBy(ps, ConstraintRiskOf)), 1.0 - planConfidence)
  {
    hide PredictAll, SumBy, MaxBy, MeanBy, Merge, Summary, Reached;
    var ps := PredictAll(m, constraints, s, actions);
    PredictionsAreScores(m, constraints, s, actions);
    if ps != [] {
      MeanBounds(ps, RiskOf, 0.0, 1.0);
      MeanBounds(ps, FailureOf, 0.0, 1.0);
    }
    MaxByMeaning(ps, ConstraintRiskOf);
    assert MaxBy(ps, ConstraintRiskOf) <= 1.0;
  }
}
