/**
 * The cognitive control bus as a step machine: a work list of phases that
 * grows while it runs, per-phase retries, cancellation, an event log, and the
 * correction loop that decides which splices are granted.
 *
 * A phase controller together with the routing of its output is one oracle: it
 * may replace everything the loop does not own (`View`), raise, or have its
 * task cancelled. It never touches the loop's own counters (`Ledger`).
 */
module WorkflowModel {
  import opened Options
  import opened Text

  datatype Phase =
    | Input | StateLoad | Affect | MemoryRetrieval | EvidenceAcquisition | Planning
    | WorldSimulation | UncertaintyEstimation | ExecutionDecision | Reflection | Action
    | AnswerGeneration | OutputValidation | DocumentIngestion | Output | StateCommit
    | MemoryCommit | MaintenanceEnqueue

  datatype Status = Pending | Running | Completed | Failed | Cancelled

  datatype Decision = Continue | Reflect | RetryRetrieval | AskForClarification | Abstain

  datatype Correction =
    | ReviseQuery | BroadenQuery | PivotEntity | Replan | RetryTransientFailure
    | Regenerate | AskUser | AbstainAnswer | NoAction

  datatype Advice = Advice(trigger: bool, action: Correction, suggestedQuery: string, confidence: real, leaks: bool)

  /** The execution gate's result: its decision and its own retry threshold. */
  datatype Gate = Gate(decision: Option<Decision>, maxRetrievalRetries: int)

  datatype Budget = Budget(
    maxRetrievalRetries: int,
    maxReplans: int,
    maxInterventions: int,
    maxGenerations: int,
    threshold: real
  ) {
    predicate Valid() {
      && maxRetrievalRetries >= 0 && maxReplans >= 0 && maxInterventions >= 0
      && maxGenerations >= 1 && 0.0 <= threshold <= 1.0
    }
  }

  datatype Config = Config(budget: Budget, maxRetries: int, text: Charset)

  datatype Stage = PreExecution | PostExecution

  datatype Reason =
    | Accepted | NoIntervention | EvaluationLeakage | LowAdviceConfidence | DuplicateAdvice
    | ReflectionBudgetExhausted | MissingQuery | RetrievalBudgetExhausted
    | ReplanBudgetExhausted | GenerationBudgetExhausted

  datatype Snapshot = Snapshot(query: string, plan: Option<string>, answer: string, confidence: real)

  datatype Attempt = Attempt(
    index: nat,
    stage: Stage,
    advice: Advice,
    candidate: string,
    reason: Reason,
    before: Snapshot,
    after: Snapshot,
    delta: real,
    utility: real
  ) {
    predicate IsAccepted() { reason == Accepted }
  }

  /** Everything of the execution context that controllers may write. */
  datatype View = View(
    userInput: string,
    fullProfile: bool,
    toolTask: bool,
    queryOverride: Option<string>,
    terminalAction: Option<Correction>,
    gate: Option<Gate>,
    reflectionAdvice: Option<Advice>,
    validationAdvice: Option<Advice>,
    hasActionResult: bool,
    plan: Option<string>,
    answer: string,
    confidence: real,
    cancelRequested: bool
  )

  /** The counters and records only the engine and the correction loop write. */
  datatype Ledger = Ledger(
    generations: nat,
    gateRetries: nat,
    interventions: nat,
    signatures: set<(Correction, string)>,
    correctionRetries: nat,
    queries: seq<string>,
    replans: nat,
    attempts: seq<Attempt>
  )

  const FRESH_LEDGER := Ledger(0, 0, 0, {}, 0, [], 0, [])

  datatype ErrorEntry = PhaseError(phase: Phase) | WorkflowError

  datatype Tracker = Tracker(
    status: Status,
    currentPhase: Phase,
    completed: seq<Phase>,
    retryCounts: map<Phase, nat>,
    errors: seq<ErrorEntry>
  ) {
    function Retries(p: Phase): nat {
      if p in retryCounts then retryCounts[p] else 0
    }

    function MarkPhaseComplete(p: Phase): Tracker {
      if p in completed then this else this.(completed := completed + [p])
    }

    function IncrementRetry(p: Phase): Tracker {
      this.(retryCounts := retryCounts[p := Retries(p) + 1])
    }
  }

  datatype EventKind =
    | WorkflowStarted | PhaseStarted | PhaseCompleted | PhaseRetry | PhaseFailed
    | WorkflowCompleted | WorkflowCancelled | WorkflowFailed

  datatype Event = Event(kind: EventKind, phase: Option<Phase>, status: Status)

  /** What one controller call does. `asCancel`: the exception is the engine's own cancellation error. */
  datatype Reply =
    | Return(view: View)
    | Raise(view: View, asCancel: bool)
    | TaskCancelled(view: View)

  datatype Machine = Machine(
    view: View,
    ledger: Ledger,
    tracker: Tracker,
    events: seq<Event>,
    phases: seq<Phase>,
    index: nat,
    calls: nat
  ) {
    predicate IsRunning() { tracker.status == Running }
    predicate InRange() { index <= |phases| }
    function Todo(): seq<Phase> requires InRange() { phases[index..] }
  }

  // ---- correction loop -------------------------------------------------

  predicate IsQueryAction(a: Correction) {
    a == ReviseQuery || a == BroadenQuery || a == PivotEntity
  }

  predicate IsRetrievalAction(a: Correction) {
    IsQueryAction(a) || a == RetryTransientFailure
  }

  function CurrentQuery(v: View): string {
    match v.queryOverride
    case Some(q) => q
    case None => v.userInput
  }

  function Observe(v: View): Snapshot {
    Snapshot(CurrentQuery(v), v.plan, v.answer, v.confidence)
  }

  function Signature(cs: Charset, a: Correction, candidate: string): (Correction, string) {
    (a, Lower(cs, candidate))
  }

  function LoweredQueries(cs: Charset, query: string, queries: seq<string>): set<string> {
    {Lower(cs, query)} + set q | q in queries :: Lower(cs, q)
  }

  /** `_rejection_reason`, in the order of its tests. */
  function Verdict(cfg: Config, v: View, l: Ledger, advice: Advice, candidate: string): Reason {
    var b := cfg.budget;
    if !advice.trigger || advice.action == NoAction then NoIntervention
    else if advice.leaks then EvaluationLeakage
    else if advice.confidence < b.threshold then LowAdviceConfidence
    else if Signature(cfg.text, advice.action, candidate) in l.signatures then DuplicateAdvice
    else if l.interventions >= b.maxInterventions then ReflectionBudgetExhausted
    else if IsQueryAction(advice.action) && candidate == "" then MissingQuery
    else if IsQueryAction(advice.action)
            && Lower(cfg.text, candidate) in LoweredQueries(cfg.text, CurrentQuery(v), l.queries) then DuplicateAdvice
    else if IsRetrievalAction(advice.action) && l.correctionRetries + l.gateRetries >= b.maxRetrievalRetries
    then RetrievalBudgetExhausted
    else if advice.action == Replan && l.replans >= b.maxReplans then ReplanBudgetExhausted
    else if advice.action == Regenerate && l.generations >= b.maxGenerations then GenerationBudgetExhausted
    else Accepted
  }

  /** `_consume_budget` */
  function Consume(cs: Charset, l: Ledger, a: Correction, candidate: string): Ledger {
    var l1 := l.(interventions := l.interventions + 1, signatures := l.signatures + {Signature(cs, a, candidate)});
    if IsRetrievalAction(a) then l1.(correctionRetries := l.correctionRetries + 1, queries := l.queries + [candidate])
    else if a == Replan then l1.(replans := l.replans + 1)
    else l1
  }

  /** The record `review` appends for a proposal with the given verdict. */
  function Record(v: View, n: nat, advice: Advice, stage: Stage, candidate: string, reason: Reason): Attempt {
    var before := Observe(v);
    var after := before.(query := if reason == Accepted && candidate != "" then candidate else before.query);
    Attempt(n + 1, stage, advice, candidate, reason, before, after, 0.0, 0.0)
  }

  /** `CorrectionLoop.review` */
  function Review(cfg: Config, v: View, l: Ledger, advice: Advice, stage: Stage): (Ledger, Attempt) {
    var candidate := Collapse(cfg.text, advice.suggestedQuery);
    var reason := Verdict(cfg, v, l, advice, candidate);
    var l1 := if reason == Accepted then Consume(cfg.text, l, advice.action, candidate) else l;
    var attempt := Record(v, |l.attempts|, advice, stage, candidate, reason);
    (l1.(attempts := l1.attempts + [attempt]), attempt)
  }

  function Max(a: real, b: real): real { if a >= b then a else b }

  /** What `complete` makes of one attempt when the workflow now looks like `now`. */
  function Completion(now: Snapshot, a: Attempt): Attempt {
    if !a.IsAccepted() then a
    else
      var delta := now.confidence - a.before.confidence;
      var changed := a.before.query != now.query || a.before.plan != now.plan || a.before.answer != now.answer;
      a.(after := now, delta := delta, utility := Max(Max(0.0, delta), if changed then 0.25 else 0.0))
  }

  function CompleteAll(now: Snapshot, attempts: seq<Attempt>): (r: seq<Attempt>)
    ensures |r| == |attempts|
    ensures forall i :: 0 <= i < |r| ==> r[i] == Completion(now, attempts[i])
  {
    if attempts == [] then [] else [Completion(now, attempts[0])] + CompleteAll(now, attempts[1..])
  }

  // ---- splices ---------------------------------------------------------

  const GATE_RETRY_ROUTE :=
    [EvidenceAcquisition, Planning, WorldSimulation, UncertaintyEstimation, ExecutionDecision]

  function ExecutionTail(v: View): seq<Phase> {
    [Action] + (if v.toolTask then [] else [AnswerGeneration]) + [OutputValidation]
  }

  function QueryRoute(v: View, stage: Stage): seq<Phase> {
    if !v.fullProfile then [EvidenceAcquisition, AnswerGeneration, OutputValidation]
    else GATE_RETRY_ROUTE + [Reflection] + (if stage == PostExecution then ExecutionTail(v) else [])
  }

  function ReplanRoute(v: View, stage: Stage): seq<Phase> {
    GATE_RETRY_ROUTE[1..] + [Reflection] + (if stage == PostExecution then ExecutionTail(v) else [])
  }

  /** The phases an accepted correction asks for, and the view it leaves behind. */
  function Grant(v: View, a: Attempt): (View, seq<Phase>) {
    var action := a.advice.action;
    if IsQueryAction(action) then (v.(queryOverride := Some(a.after.query)), QueryRoute(v, a.stage))
    else match action
      case Replan => (v, ReplanRoute(v, a.stage))
      case Regenerate => (v, [AnswerGeneration, OutputValidation])
      case RetryTransientFailure =>
        if a.stage == PostExecution && v.hasActionResult then (v, [Action, OutputValidation])
        else (v.(queryOverride := Some(a.after.query)), QueryRoute(v, a.stage))
      case AskUser => (v.(terminalAction := Some(AskUser)), [])
      case AbstainAnswer => (v.(terminalAction := Some(AbstainAnswer)), [])
      case _ => (v, [])
  }

  // ---- engine ----------------------------------------------------------

  function GateDecision(v: View): Option<Decision> {
    match v.gate
    case Some(g) => g.decision
    case None => None
  }

  /** `_skip_phase` */
  predicate Skips(v: View, p: Phase) {
    match p
    case Reflection => v.gate.Some? && GateDecision(v) != Some(Reflect)
    case Action => Silenced(v)
    case AnswerGeneration => Silenced(v)
    case _ => false
  }

  predicate Silenced(v: View) {
    || v.terminalAction == Some(AskUser)
    || v.terminalAction == Some(AbstainAnswer)
    || GateDecision(v) in {Some(AskForClarification), Some(Abstain), Some(RetryRetrieval)}
  }

  /** `_requests_retrieval_retry`: it does not look at the corrections' own retries. */
  predicate WantsGateRetry(cfg: Config, v: View, l: Ledger) {
    v.gate.Some? && v.gate.value.decision == Some(RetryRetrieval)
    && l.gateRetries < v.gate.value.maxRetrievalRetries
    && l.gateRetries < cfg.budget.maxRetrievalRetries
  }

  function PhaseAdvice(v: View, p: Phase): Option<Advice> {
    if p == Reflection then v.reflectionAdvice
    else if p == OutputValidation then v.validationAdvice
    else None
  }

  datatype PhaseEnd = Done | CancelledOut | FailedOut

  datatype PhaseRun = PhaseRun(end: PhaseEnd, view: View, tracker: Tracker, events: seq<Event>, calls: nat)

  /** `_execute_phase_with_retries` after `attempts` failed attempts. */
  function RunPhase(cfg: Config, script: nat -> Reply, p: Phase, t: Tracker, es: seq<Event>, calls: nat, attempts: nat): PhaseRun
    decreases cfg.maxRetries - attempts
  {
    match script(calls)
    case Return(v) => PhaseRun(Done, v, t, es, calls + 1)
    case TaskCancelled(v) => PhaseRun(CancelledOut, v.(cancelRequested := true), t, es, calls + 1)
    case Raise(v, asCancel) =>
      var t1 := t.IncrementRetry(p).(errors := t.errors + [PhaseError(p)]);
      if attempts + 1 > cfg.maxRetries then
        PhaseRun(if asCancel then CancelledOut else FailedOut, v, t1,
                 es + [Event(PhaseFailed, Some(p), t.status)], calls + 1)
      else
        RunPhase(cfg, script, p, t1, es + [Event(PhaseRetry, Some(p), t.status)], calls + 1, attempts + 1)
  }

  function Splice(m: Machine, stages: seq<Phase>): Machine
    requires m.InRange()
  {
    m.(phases := m.phases[..m.index] + stages + m.phases[m.index..])
  }

  function CountGeneration(m: Machine, p: Phase): Machine {
    if p != AnswerGeneration then m
    else m.(ledger := m.ledger.(generations := m.ledger.generations + 1))
  }

  function GateRetry(cfg: Config, m: Machine, p: Phase): Machine
    requires m.InRange()
  {
    if p == ExecutionDecision && WantsGateRetry(cfg, m.view, m.ledger) then
      Splice(m.(ledger := m.ledger.(gateRetries := m.ledger.gateRetries + 1)), GATE_RETRY_ROUTE)
    else m
  }

  function Correct(cfg: Config, m: Machine, p: Phase): Machine
    requires m.InRange()
  {
    match PhaseAdvice(m.view, p)
    case None => m
    case Some(advice) =>
      var stage := if p == OutputValidation then PostExecution else PreExecution;
      var (l, attempt) := Review(cfg, m.view, m.ledger, advice, stage);
      var m1 := m.(ledger := l);
      if !attempt.IsAccepted() then m1
      else
        var (v, stages) := Grant(m.view, attempt);
        Splice(m1.(view := v), stages)
  }

  function CloseAttempts(m: Machine, p: Phase): Machine {
    if p != OutputValidation && p != Output then m
    else m.(ledger := m.ledger.(attempts := CompleteAll(Observe(m.view), m.ledger.attempts)))
  }

  /** The bookkeeping after a phase returned. */
  function AfterPhase(cfg: Config, m: Machine, p: Phase): Machine
    requires m.InRange()
  {
    var m1 := m.(tracker := m.tracker.MarkPhaseComplete(p),
                 events := m.events + [Event(PhaseCompleted, Some(p), m.tracker.status)]);
    CloseAttempts(Correct(cfg, GateRetry(cfg, CountGeneration(m1, p), p), p), p)
  }

  function Finish(m: Machine, status: Status, kind: EventKind, phase: Option<Phase>): Machine {
    m.(tracker := m.tracker.(status := status), events := m.events + [Event(kind, phase, status)])
  }

  function Cancel(m: Machine): Machine {
    Finish(m, Cancelled, WorkflowCancelled, Some(m.tracker.currentPhase))
  }

  function Fail(m: Machine): Machine {
    Finish(m.(tracker := m.tracker.(errors := m.tracker.errors + [WorkflowError])), Failed, WorkflowFailed,
           Some(m.tracker.currentPhase))
  }

  /** Take `p` off the work list and record its start. */
  function BeginPhase(m: Machine): Machine
    requires m.index < |m.phases|
  {
    var p := m.phases[m.index];
    m.(index := m.index + 1, tracker := m.tracker.(currentPhase := p),
       events := m.events + [Event(PhaseStarted, Some(p), m.tracker.status)])
  }

  /** The rest of a phase's turn, once its controller calls are over. */
  function EndPhase(cfg: Config, m: Machine, p: Phase, r: PhaseRun): Machine
    requires m.InRange()
  {
    var m1 := m.(view := r.view, tracker := r.tracker, events := r.events, calls := r.calls);
    match r.end
    case Done => AfterPhase(cfg, m1, p)
    case CancelledOut => Cancel(m1)
    case FailedOut => Fail(m1)
  }

  /** One iteration of `execute`'s while loop, or its normal exit. */
  function Step(cfg: Config, script: nat -> Reply, m: Machine): Machine
    requires m.InRange() && m.IsRunning()
  {
    if m.index == |m.phases| then Finish(m, Completed, WorkflowCompleted, None)
    else
      var p := m.phases[m.index];
      if Skips(m.view, p) then m.(index := m.index + 1)
      else if m.view.cancelRequested then Cancel(m.(index := m.index + 1))
      else
        var m1 := BeginPhase(m);
        EndPhase(cfg, m1, p, RunPhase(cfg, script, p, m1.tracker, m1.events, m1.calls, 0))
  }

  function Room(limit: int, used: nat): nat {
    if used < limit then limit - used else 0
  }

  /** Work list length plus every phase the remaining budgets could still add. */
  function Quota(cfg: Config, m: Machine): nat {
    |m.phases| + 5 * Room(cfg.budget.maxRetrievalRetries, m.ledger.gateRetries)
    + 9 * Room(cfg.budget.maxInterventions, m.ledger.interventions)
  }

  lemma GrantLength(v: View, a: Attempt)
    ensures |Grant(v, a).1| <= 9
  {
  }

  lemma GateRetryQuota(cfg: Config, m: Machine, p: Phase)
    requires m.InRange()
    ensures var n := GateRetry(cfg, m, p);
            && n.index == m.index && n.InRange() && n.tracker == m.tracker
            && Quota(cfg, n) <= Quota(cfg, m)
  {
  }

  lemma ReviewSpendsIntervention(cfg: Config, v: View, l: Ledger, advice: Advice, stage: Stage)
    ensures var (n, a) := Review(cfg, v, l, advice, stage);
            && n.gateRetries == l.gateRetries
            && n.interventions == l.interventions + (if a.IsAccepted() then 1 else 0)
            && (a.IsAccepted() ==> l.interventions < cfg.budget.maxInterventions)
  {
  }

  lemma CorrectQuota(cfg: Config, m: Machine, p: Phase)
    requires m.InRange()
    ensures var n := Correct(cfg, m, p);
            && n.index == m.index && n.InRange() && n.tracker == m.tracker
            && Quota(cfg, n) <= Quota(cfg, m)
  {
    hide Review, Grant;
    if PhaseAdvice(m.view, p).Some? {
      var stage := if p == OutputValidation then PostExecution else PreExecution;
      ReviewSpendsIntervention(cfg, m.view, m.ledger, PhaseAdvice(m.view, p).value, stage);
      GrantLength(m.view, Review(cfg, m.view, m.ledger, PhaseAdvice(m.view, p).value, stage).1);
    }
  }

  lemma AfterPhaseQuota(cfg: Config, m: Machine, p: Phase)
    requires m.InRange()
    ensures var n := AfterPhase(cfg, m, p);
            n.index == m.index && n.InRange() && Quota(cfg, n) <= Quota(cfg, m) && n.tracker.status == m.tracker.status
  {
    hide GateRetry, Correct, CompleteAll, Observe;
    var m1 := CountGeneration(m.(tracker := m.tracker.MarkPhaseComplete(p),
                                 events := m.events + [Event(PhaseCompleted, Some(p), m.tracker.status)]), p);
    GateRetryQuota(cfg, m1, p);
    CorrectQuota(cfg, GateRetry(cfg, m1, p), p);
  }

  lemma RunPhaseFrame(cfg: Config, script: nat -> Reply, p: Phase, t: Tracker, es: seq<Event>, calls: nat, attempts: nat)
    ensures RunPhase(cfg, script, p, t, es, calls, attempts).tracker.status == t.status
    ensures RunPhase(cfg, script, p, t, es, calls, attempts).tracker.currentPhase == t.currentPhase
    ensures RunPhase(cfg, script, p, t, es, calls, attempts).tracker.completed == t.completed
    decreases cfg.maxRetries - attempts
  {
  }

  /** A step uses up work or ends the run, and never gains quota. */
  lemma StepQuota(cfg: Config, script: nat -> Reply, m: Machine)
    requires m.InRange() && m.IsRunning()
    ensures var n := Step(cfg, script, m);
            && n.InRange()
            && Quota(cfg, n) <= Quota(cfg, m)
            && n.index == (if m.index < |m.phases| then m.index + 1 else m.index)
            && (m.index == |m.phases| ==> n.calls == m.calls && !n.IsRunning())
            && (n.tracker.status == Completed ==> n.index == |n.phases|)
  {
    if m.index < |m.phases| {
      var p := m.phases[m.index];
      if !Skips(m.view, p) && !m.view.cancelRequested {
        var m1 := BeginPhase(m);
        var r := RunPhase(cfg, script, p, m1.tracker, m1.events, m1.calls, 0);
        RunPhaseFrame(cfg, script, p, m1.tracker, m1.events, m1.calls, 0);
        AfterPhaseQuota(cfg, m1.(view := r.view, tracker := r.tracker, events := r.events, calls := r.calls), p);
      }
    }
  }

  /** The whole while loop. */
  function Loop(cfg: Config, script: nat -> Reply, m: Machine): Machine
    requires m.InRange()
    decreases Quota(cfg, m) - m.index, if m.IsRunning() then 1 else 0
  {
    if !m.IsRunning() then m
    else
      StepQuota(cfg, script, m);
      Loop(cfg, script, Step(cfg, script, m))
  }

  function Begin(v: View, l: Ledger, current: Phase, route: seq<Phase>): Machine {
    Machine(v, l, Tracker(Running, current, [], map[], []), [Event(WorkflowStarted, None, Running)], route, 0, 0)
  }

  /** `execute` on a fresh workflow state. No usable route is the router's `ValueError`. */
  function Execute(cfg: Config, script: nat -> Reply, v: View, l: Ledger, route: Option<seq<Phase>>): Machine {
    if route.None? || route.value == [] then Fail(Begin(v, l, Input, []))
    else Loop(cfg, script, Begin(v, l, Input, route.value))
  }
}
