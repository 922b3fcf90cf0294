/**
 * The symbolic world simulator: plan actions fold deltas into a world state
 * and collect risk. Exact reals stand for floats; parsing a number out of a
 * string is a parameter.
 */
module World {
  import opened Options
  import opened Sequences
  import opened Text
  import opened Numbers

  datatype Value = Number(r: real) | Truth(b: bool) | Str(s: string) | Record(m: map<string, Value>)

  type Section = map<string, Value>

  /** Python's `float(value)`, `None` where it raises. */
  function Numeric(parse: string -> Option<real>, v: Value): Option<real> {
    match v
    case Number(r) => Some(r)
    case Truth(b) => Some(if b then 1.0 else 0.0)
    case Str(s) => parse(s)
    case Record(_) => None
  }

  /** A symbolic transition: the sections to update; an absent one is empty. */
  datatype Delta = Delta(
    goal: Section,
    task: Section,
    confidence: Section,
    emotional: Section,
    environment: Section,
    execution: Section,
    constraints: seq<string>,
    metadata: Section
  )

  const NOTHING := Delta(map[], map[], map[], map[], map[], map[], [], map[])

  datatype WorldState = WorldState(
    goal: Section,
    task: Section,
    confidence: Section,
    emotional: Section,
    environment: Section,
    execution: Section,
    constraints: seq<string>,
    metadata: Section
  )

  /** `merge_transition` */
  function Merge(s: WorldState, d: Delta): WorldState {
    WorldState(s.goal + d.goal, s.task + d.task, s.confidence + d.confidence, s.emotional + d.emotional,
               s.environment + d.environment, s.execution + d.execution,
               Dedup(s.constraints + d.constraints), s.metadata + d.metadata)
  }

  /** The confidence a stored value stands for. */
  function Score(parse: string -> Option<real>, v: Value): (score: real)
    ensures 0.0 <= score <= 1.0
  {
    match Numeric(parse, v)
    case Some(r) => Clamp01(r)
    case None => 0.0
  }

  /** `confidence()` */
  function ConfidenceOf(parse: string -> Option<real>, s: WorldState): real {
    var value := if "overall_confidence" in s.confidence then s.confidence["overall_confidence"]
                 else if "confidence" in s.confidence then s.confidence["confidence"]
                 else Number(0.0);
    Score(parse, value)
  }

  // ---- predictive model -----------------------------------------------------------------

  datatype Action = Action(kind: string, id: string, metadata: Section, externalTool: bool)

  datatype Constraint = Constraint(id: string, description: string, required: bool)

  datatype Rule = Rule(transition: Delta, risk: real, failure: real)

  datatype Model = Model(rules: map<string, Rule>, parse: string -> Option<real>, charset: Charset)

  function Executing(flag: string, step: string): Delta {
    NOTHING.(execution := map[flag := Truth(true), "last_symbolic_step" := Str(step)])
  }

  function DefaultRules(): map<string, Rule> {
    map[
      "review_state" := Rule(Executing("state_reviewed", "review_state"), 0.03, 0.02),
      "integrate_memory" := Rule(
        Executing("memory_integrated", "integrate_memory").(confidence := map["memory_grounding_predicted" := Truth(true)]),
        0.12, 0.08),
      "apply_affective_priors" := Rule(Executing("affect_priors_applied", "apply_affective_priors"), 0.08, 0.05),
      "resolve_uncertainty" := Rule(Executing("uncertainty_addressed", "resolve_uncertainty"), 0.16, 0.12),
      "request_reflection" := Rule(
        Executing("reflection_checkpoint_predicted", "request_reflection")
          .(confidence := map["reflection_needed_predicted" := Truth(true)]),
        0.1, 0.08),
      "plan_state_transition" := Rule(Executing("state_transition_planned", "plan_state_transition"), 0.14, 0.1),
      "prepare_response" := Rule(Executing("response_prepared", "prepare_response"), 0.18, 0.14)
    ]
  }

  /** `transition_for` */
  function TransitionFor(m: Model, action: Action, s: WorldState): Delta {
    if action.kind !in m.rules then
      NOTHING.(execution := map["unknown_action_predicted" := Str(action.kind)])
    else
      var base := m.rules[action.kind].transition;
      var noted := if action.metadata == map[] then base
                   else base.(metadata := base.metadata["action_" + action.id := Record(action.metadata)]);
      var c := ConfidenceOf(m.parse, s);
      if c == 0.0 then noted
      else noted.(confidence := noted.confidence["pre_execution_confidence" := Number(c)])
  }

  /** `risk_for`, given the state's confidence. */
  function RiskFor(m: Model, action: Action, confidence: real, constraints: seq<Constraint>): real {
    var base := if action.kind in m.rules then m.rules[action.kind].risk else 0.3;
    Clamp01(base + (1.0 - confidence) * 0.2 + MinOf(0.25, |constraints| as real * 0.025)
            + if action.externalTool then 0.25 else 0.0)
  }

  function RequiredCount(constraints: seq<Constraint>): nat {
    if constraints == [] then 0 else (if constraints[0].required then 1 else 0) + RequiredCount(constraints[1..])
  }

  /** `failure_probability_for` */
  function FailureFor(m: Model, action: Action, confidence: real, constraints: seq<Constraint>): real {
    var base := if action.kind in m.rules then m.rules[action.kind].failure else 0.28;
    Clamp01(base + (1.0 - confidence) * 0.25 + MinOf(0.3, RequiredCount(constraints) as real * 0.04))
  }

  /** `_constraint_violation_probability` */
  function ViolationProbability(m: Model, description: string, kind: string, confidence: real): real {
    var lowered := Lower(m.charset, description);
    Clamp01(
      0.08
      + (if !Mentions(lowered, "must not execute external tools") then 0.0
         else if kind != "review_state" && kind != "request_reflection" then 0.4 else 0.05)
      + (if Mentions(lowered, "must not invoke language models") then 0.05 else 0.0)
      + (if Mentions(lowered, "uncertainty") || Mentions(lowered, "unsupported") then (1.0 - confidence) * 0.3 else 0.0)
      + (if Mentions(lowered, "reflection") && kind != "request_reflection" then 0.15 else 0.0)
      + (if Mentions(lowered, "workflow") then 0.04 else 0.0))
  }

  /** `risk_contribution` of one predicted constraint. */
  function Contribution(m: Model, kind: string, confidence: real): Constraint -> real {
    (c: Constraint) => Clamp01(ViolationProbability(m, c.description, kind, confidence) * if c.required then 0.8 else 0.35)
  }

  /** The largest contribution of any constraint to one action. */
  function ConstraintRisk(m: Model, constraints: seq<Constraint>, confidence: real): Action -> real {
    (a: Action) => MaxBy(constraints, Contribution(m, a.kind, confidence))
  }

  function ActionRisk(m: Model, constraints: seq<Constraint>, confidence: real): Action -> real {
    (a: Action) => Clamp01(MaxOf(RiskFor(m, a, confidence, constraints), ConstraintRisk(m, constraints, confidence)(a)))
  }

  function ActionFailure(m: Model, constraints: seq<Constraint>, confidence: real): Action -> real {
    (a: Action) =>
      Clamp01(MaxOf(FailureFor(m, a, confidence, constraints), ConstraintRisk(m, constraints, confidence)(a) * 0.85))
  }

  // ---- simulator -----------------------------------------------------------------------------

  /** One action's prediction, with the transition record's delta and states. */
  datatype Prediction = Prediction(
    before: WorldState,
    delta: Delta,
    after: WorldState,
    risk: real,
    failure: real,
    constraintRisk: real
  )

  /** `predict_action` */
  function Predict(m: Model, constraints: seq<Constraint>, s: WorldState, action: Action): Prediction {
    var c := ConfidenceOf(m.parse, s);
    var delta := TransitionFor(m, action, s);
    Prediction(s, delta, Merge(s, delta), ActionRisk(m, constraints, c)(action), ActionFailure(m, constraints, c)(action),
               ConstraintRisk(m, constraints, c)(action))
  }

  function PredictAll(m: Model, constraints: seq<Constraint>, s: WorldState, actions: seq<Action>): (r: seq<Prediction>)
    ensures |r| == |actions|
    decreases |actions|
  {
    if actions == [] then []
    else
      var p := Predict(m, constraints, s, actions[0]);
      [p] + PredictAll(m, constraints, p.after, actions[1..])
  }

  function Reached(s: WorldState, predictions: seq<Prediction>): WorldState {
    if predictions == [] then s else predictions[|predictions| - 1].after
  }

  function RiskOf(p: Prediction): real { p.risk }

  function FailureOf(p: Prediction): real { p.failure }

  function ConstraintRiskOf(p: Prediction): real { p.constraintRisk }

  function MeanBy<T>(s: seq<T>, f: T -> real): real
    requires s != []
  {
    SumBy(s, f) / |s| as real
  }

  function RiskMix(actionRisk: real, constraintRisk: real, planConfidence: real): real {
    actionRisk * 0.55 + constraintRisk * 0.25 + (1.0 - planConfidence) * 0.2
  }

  function FailureMix(actionFailure: real, risk: real, planConfidence: real): real {
    actionFailure * 0.55 + risk * 0.3 + (1.0 - planConfidence) * 0.15
  }

  /** `_aggregate_risk` */
  function AggregateRisk(ps: seq<Prediction>, planConfidence: real): real {
    Clamp01(RiskMix(if ps == [] then 0.15 else MeanBy(ps, RiskOf), MaxBy(ps, ConstraintRiskOf), planConfidence))
  }

  /** `_aggregate_failure` */
  function AggregateFailure(ps: seq<Prediction>, risk: real, planConfidence: real): real {
    Clamp01(FailureMix(if ps == [] then 0.2 else MeanBy(ps, FailureOf), risk, planConfidence))
  }

  function Summary(risk: real, failure: real, count: nat): Delta {
    NOTHING.(
      confidence := map["world_model_risk" := Number(risk), "world_model_failure_probability" := Number(failure)],
      execution := map["world_model_simulated" := Truth(true), "predicted_action_count" := Number(count as real)],
      metadata := map["symbolic_world_model" := Truth(true), "deterministic" := Truth(true)])
  }

  datatype Outcome = Outcome(initial: WorldState, expected: WorldState, predictions: seq<Prediction>, risk: real, failure: real)

  function Simulate(
    m: Model, constraints: seq<Constraint>, s: WorldState, actions: seq<Action>, planConfidence: real): Outcome
  {
    var ps := PredictAll(m, constraints, s, actions);
    var risk := AggregateRisk(ps, planConfidence);
    var failure := AggregateFailure(ps, risk, planConfidence);
    Outcome(s, Merge(Reached(s, ps), Summary(risk, failure, |actions|)), ps, risk, failure)
  }

  /** The source's loop over the actions. */
  method RunSimulation(m: Model, constraints: seq<Constraint>, s: WorldState, actions: seq<Action>, planConfidence: real)
    returns (out: Outcome)
    ensures out == Simulate(m, constraints, s, actions, planConfidence)
  {
    hide Predict, Merge, AggregateRisk, AggregateFailure, Summary;
    var current := s;
    var ps: seq<Prediction> := [];
    for i := 0 to |actions|
      invariant PredictAll(m, constraints, s, actions) == ps + PredictAll(m, constraints, current, actions[i..])
      invariant current == Reached(s, ps)
      invariant |ps| == i
    {
      var p := Predict(m, constraints, current, actions[i]);
      assert actions[i..][1..] == actions[i + 1..] && actions[i..][0] == actions[i];
      assert ps + ([p] + PredictAll(m, constraints, p.after, actions[i + 1..]))
          == (ps + [p]) + PredictAll(m, constraints, p.after, actions[i + 1..]);
      ps := ps + [p];
      current := p.after;
    }
    assert ps + [] == ps;
    var risk := AggregateRisk(ps, planConfidence);
    var failure := AggregateFailure(ps, risk, planConfidence);
    out := Outcome(s, Merge(current, Summary(risk, failure, |actions|)), ps, risk, failure);
  }
}
