/**
 * One turn of the work list told from the outside: which phases start, what
 * the controller's answer changes, which corrections are taken and what they
 * bring; and the same of every turn of every run.
 */
module WorkflowTurns {
  import opened Options
  import opened Text
  import opened WorkflowModel
  import opened WorkflowTheorems
  import opened WorkflowRuns
  import opened WorkflowScenes

  // ---- which phases are held back ------------------------------------------------------

  /** Action and generation wait for a gate or a correction that ended the attempt; reflection for a gate that asked for something else. */
  predicate Held(v: View, p: Phase) {
    if p == Action || p == AnswerGeneration then
      || v.terminalAction in {Some(AskUser), Some(AbstainAnswer)}
      || (v.gate.Some? && v.gate.value.decision in {Some(AskForClarification), Some(Abstain), Some(RetryRetrieval)})
    else p == Reflection && v.gate.Some? && v.gate.value.decision != Some(Reflect)
  }

  // ---- reviews ---------------------------------------------------------------------------

  /** What the workflow shows at the moment. */
  function Seen(v: View): Snapshot {
    Snapshot(if v.queryOverride.Some? then v.queryOverride.value else v.userInput, v.plan, v.answer, v.confidence)
  }

  predicate AsksAgain(a: Correction) { a in {ReviseQuery, BroadenQuery, PivotEntity} }

  predicate Retrieves(a: Correction) { AsksAgain(a) || a == RetryTransientFailure }

  /** The query is nobody's yet, in whatever case. */
  ghost predicate IsNewQuery(cs: Charset, v: View, l: Ledger, query: string) {
    && query != "" && Lower(cs, query) != Lower(cs, Seen(v).query)
    && forall q :: q in l.queries ==> Lower(cs, q) != Lower(cs, query)
  }

  ghost predicate IsUsed(cs: Charset, l: Ledger, a: Correction, candidate: string) {
    (a, Lower(cs, candidate)) in l.signatures
  }

  /** All that advice has to satisfy. */
  ghost predicate Acceptable(cfg: Config, v: View, l: Ledger, advice: Advice, candidate: string) {
    var a, b := advice.action, cfg.budget;
    && advice.trigger && a != NoAction && !advice.leaks && advice.confidence >= b.threshold
    && !IsUsed(cfg.text, l, a, candidate)
    && l.interventions < b.maxInterventions
    && (AsksAgain(a) ==> IsNewQuery(cfg.text, v, l, candidate))
    && (Retrieves(a) ==> l.correctionRetries + l.gateRetries < b.maxRetrievalRetries)
    && (a == Replan ==> l.replans < b.maxReplans)
    && (a == Regenerate ==> l.generations < b.maxGenerations)
  }

  /** The reason given is one that holds. */
  ghost predicate Applies(cfg: Config, v: View, l: Ledger, advice: Advice, candidate: string, reason: Reason) {
    var a, b := advice.action, cfg.budget;
    match reason
    case Accepted => Acceptable(cfg, v, l, advice, candidate)
    case NoIntervention => !advice.trigger || a == NoAction
    case EvaluationLeakage => advice.leaks
    case LowAdviceConfidence => advice.confidence < b.threshold
    case DuplicateAdvice =>
      IsUsed(cfg.text, l, a, candidate) || (AsksAgain(a) && candidate != "" && !IsNewQuery(cfg.text, v, l, candidate))
    case ReflectionBudgetExhausted => l.interventions >= b.maxInterventions
    case MissingQuery => AsksAgain(a) && candidate == ""
    case RetrievalBudgetExhausted => Retrieves(a) && l.correctionRetries + l.gateRetries >= b.maxRetrievalRetries
    case ReplanBudgetExhausted => a == Replan && l.replans >= b.maxReplans
    case GenerationBudgetExhausted => a == Regenerate && l.generations >= b.maxGenerations
  }

  lemma VerdictApplies(cfg: Config, v: View, l: Ledger, advice: Advice, candidate: string)
    ensures Applies(cfg, v, l, advice, candidate, Verdict(cfg, v, l, advice, candidate))
    ensures Verdict(cfg, v, l, advice, candidate) == Accepted <==> Acceptable(cfg, v, l, advice, candidate)
  {
    if candidate != "" {
      KnownQueries(cfg.text, v, l, candidate);
    }
    hide Lower, LoweredQueries, IsNewQuery;
  }

  lemma KnownQueries(cs: Charset, v: View, l: Ledger, candidate: string)
    requires candidate != ""
    ensures IsNewQuery(cs, v, l, candidate) <==> Lower(cs, candidate) !in LoweredQueries(cs, CurrentQuery(v), l.queries)
  {
    hide Lower;
    assert forall q :: q in l.queries ==> Lower(cs, q) in LoweredQueries(cs, CurrentQuery(v), l.queries);
  }

  /** A new query's phases, by profile, task and stage. */
  function QueryPhases(v: View, stage: Stage): seq<Phase> {
    if !v.fullProfile then [EvidenceAcquisition, AnswerGeneration, OutputValidation]
    else [EvidenceAcquisition] + PlanPhases(v, stage)
  }

  function PlanPhases(v: View, stage: Stage): seq<Phase> {
    match (stage, v.toolTask)
    case (PreExecution, _) => [Planning, WorldSimulation, UncertaintyEstimation, ExecutionDecision, Reflection]
    case (PostExecution, true) =>
      [Planning, WorldSimulation, UncertaintyEstimation, ExecutionDecision, Reflection, Action, OutputValidation]
    case (PostExecution, false) =>
      [Planning, WorldSimulation, UncertaintyEstimation, ExecutionDecision, Reflection, Action, AnswerGeneration, OutputValidation]
  }

  /** What an accepted correction does: the view `w` it leaves and the phases it brings. */
  ghost predicate Takes(v: View, action: Correction, stage: Stage, query: string, w: View, stages: seq<Phase>) {
    match action
    case Replan => w == v && stages == PlanPhases(v, stage)
    case Regenerate => w == v && stages == [AnswerGeneration, OutputValidation]
    case RetryTransientFailure =>
      if stage == PostExecution && v.hasActionResult then w == v && stages == [Action, OutputValidation]
      else w == v.(queryOverride := Some(query)) && stages == QueryPhases(v, stage)
    case AskUser => w == v.(terminalAction := Some(AskUser)) && stages == []
    case AbstainAnswer => w == v.(terminalAction := Some(AbstainAnswer)) && stages == []
    case NoAction => false
    case _ => w == v.(queryOverride := Some(query)) && stages == QueryPhases(v, stage)
  }

  /** The record a review leaves. */
  ghost predicate IsRecord(cfg: Config, v: View, was: Ledger, advice: Advice, stage: Stage, r: Attempt) {
    var candidate := Collapse(cfg.text, advice.suggestedQuery);
    && r.index == |was.attempts| + 1 && r.stage == stage && r.advice == advice && r.candidate == candidate
    && Applies(cfg, v, was, advice, candidate, r.reason)
    && (r.reason == Accepted <==> Acceptable(cfg, v, was, advice, candidate))
    && r.before == Seen(v) && r.delta == 0.0 && r.utility == 0.0
    && r.after == (if r.reason == Accepted && candidate != "" then Seen(v).(query := candidate) else Seen(v))
  }

  /** A review of advice under view `v`: accounts, view and phases afterwards. */
  ghost predicate Decided(
    cfg: Config, v: View, was: Ledger, advice: Advice, stage: Stage, l: Ledger, w: View, stages: seq<Phase>)
  {
    && |l.attempts| == |was.attempts| + 1
    && var r, a := l.attempts[|was.attempts|], advice.action;
    && l.attempts == was.attempts + [r]
    && IsRecord(cfg, v, was, advice, stage, r)
    && if r.reason == Accepted then
         && l == was.(attempts := l.attempts,
                      interventions := was.interventions + 1,
                      signatures := was.signatures + {(a, Lower(cfg.text, r.candidate))},
                      correctionRetries := was.correctionRetries + (if Retrieves(a) then 1 else 0),
                      queries := was.queries + (if Retrieves(a) then [r.candidate] else []),
                      replans := was.replans + (if a == Replan then 1 else 0))
         && Takes(v, a, stage, r.after.query, w, stages)
       else l == was.(attempts := l.attempts) && w == v && stages == []
  }

  lemma ReviewDecides(cfg: Config, v: View, was: Ledger, advice: Advice, stage: Stage)
    ensures var (l, r) := Review(cfg, v, was, advice, stage);
            var (w, stages) := if r.IsAccepted() then Grant(v, r) else (v, []);
            Decided(cfg, v, was, advice, stage, l, w, stages)
  {
    var candidate := Collapse(cfg.text, advice.suggestedQuery);
    VerdictApplies(cfg, v, was, advice, candidate);
    ConsumeIs(cfg.text, was, advice.action, candidate);
    var (l, r) := Review(cfg, v, was, advice, stage);
    hide Verdict, Applies, Acceptable, Collapse, Consume, Lower, Takes;
    if r.IsAccepted() {
      NoActionIsRefused(cfg, v, was, advice, candidate);
      GrantTakes(v, r);
    }
  }

  lemma NoActionIsRefused(cfg: Config, v: View, l: Ledger, advice: Advice, candidate: string)
    requires Acceptable(cfg, v, l, advice, candidate)
    ensures advice.action != NoAction
  {
  }

  lemma ConsumeIs(cs: Charset, l: Ledger, a: Correction, candidate: string)
    ensures Consume(cs, l, a, candidate)
         == l.(interventions := l.interventions + 1,
               signatures := l.signatures + {(a, Lower(cs, candidate))},
               correctionRetries := l.correctionRetries + (if Retrieves(a) then 1 else 0),
               queries := l.queries + (if Retrieves(a) then [candidate] else []),
               replans := l.replans + (if a == Replan then 1 else 0))
  {
    hide Lower;
    assert l.queries + [] == l.queries;
  }

  lemma GrantTakes(v: View, r: Attempt)
    requires r.advice.action != NoAction
    ensures Takes(v, r.advice.action, r.stage, r.after.query, Grant(v, r).0, Grant(v, r).1)
  {
    RoutesAre(v, r.stage);
    hide QueryRoute, ReplanRoute, QueryPhases, PlanPhases;
  }

  lemma RoutesAre(v: View, stage: Stage)
    ensures ReplanRoute(v, stage) == PlanPhases(v, stage)
    ensures QueryRoute(v, stage) == QueryPhases(v, stage)
  {
    assert GATE_RETRY_ROUTE[1..] == [Planning, WorldSimulation, UncertaintyEstimation, ExecutionDecision];
    assert ReplanRoute(v, stage) == PlanPhases(v, stage);
    assert GATE_RETRY_ROUTE == [EvidenceAcquisition] + GATE_RETRY_ROUTE[1..];
  }

  // ---- closing attempts ---------------------------------------------------------------------

  /** A closed attempt: what it found is `now`, and its worth is the confidence gained, or a quarter if anything else changed. */
  ghost predicate IsClosed(a: Attempt, now: Snapshot) {
    var changed := a.before.query != now.query || a.before.plan != now.plan || a.before.answer != now.answer;
    && a.after == now
    && a.delta == now.confidence - a.before.confidence
    && a.utility >= 0.0 && a.utility >= a.delta && (changed ==> a.utility >= 0.25)
    && (a.utility == 0.0 || a.utility == a.delta || (changed && a.utility == 0.25))
  }

  /** Every accepted attempt is closed with `now`, the others stay, and nothing else of any record moves. */
  ghost predicate Closes(was: seq<Attempt>, attempts: seq<Attempt>, now: Snapshot) {
    && |attempts| == |was|
    && forall i :: 0 <= i < |was| ==>
         if was[i].reason == Accepted
         then IsClosed(attempts[i], now)
              && attempts[i] == was[i].(after := attempts[i].after, delta := attempts[i].delta, utility := attempts[i].utility)
         else attempts[i] == was[i]
  }

  lemma CompleteCloses(v: View, was: seq<Attempt>)
    ensures Closes(was, CompleteAll(Observe(v), was), Seen(v))
  {
    var attempts := CompleteAll(Observe(v), was);
    assert Observe(v) == Seen(v);
    forall i | 0 <= i < |was|
      ensures if was[i].reason == Accepted
              then IsClosed(attempts[i], Seen(v))
                   && attempts[i] == was[i].(after := attempts[i].after, delta := attempts[i].delta, utility := attempts[i].utility)
              else attempts[i] == was[i]
    {
      assert attempts[i] == Completion(Observe(v), was[i]);
    }
  }

  // ---- what an answered phase settles --------------------------------------------------------

  /** The gate asks for another retrieval and neither its own limit nor the budget's is used up. */
  predicate RetriesRetrieval(cfg: Config, v: View, l: Ledger) {
    && v.gate.Some? && v.gate.value.decision == Some(RetryRetrieval)
    && l.gateRetries < v.gate.value.maxRetrievalRetries && l.gateRetries < cfg.budget.maxRetrievalRetries
  }

  /** What the answer `v` of phase `p` leaves: view, accounts and work list. */
  ghost predicate Settled(cfg: Config, was: Ledger, rest: seq<Phase>, p: Phase, v: View, n: Machine)
    requires n.InRange()
  {
    match p
    case AnswerGeneration => n.view == v && n.Todo() == rest && n.ledger == was.(generations := was.generations + 1)
    case ExecutionDecision =>
      && n.view == v
      && if RetriesRetrieval(cfg, v, was) then
           && n.ledger == was.(gateRetries := was.gateRetries + 1)
           && n.Todo() == [EvidenceAcquisition, Planning, WorldSimulation, UncertaintyEstimation, ExecutionDecision] + rest
         else n.ledger == was && n.Todo() == rest
    case Reflection => Checked(cfg, was, rest, v.reflectionAdvice, PreExecution, v, n)
    case OutputValidation => Checked(cfg, was, rest, v.validationAdvice, PostExecution, v, n)
    case Output =>
      && n.view == v && n.Todo() == rest
      && n.ledger == was.(attempts := n.ledger.attempts) && Closes(was.attempts, n.ledger.attempts, Seen(v))
    case _ => n.view == v && n.ledger == was && n.Todo() == rest
  }

  /** After a check: its advice, if any, is decided on, and output validation closes the attempts. */
  ghost predicate Checked(
    cfg: Config, was: Ledger, rest: seq<Phase>, advice: Option<Advice>, stage: Stage, v: View, n: Machine)
    requires n.InRange()
  {
    exists l, stages :: CheckedWith(cfg, was, rest, advice, stage, v, n, l, stages)
  }

  ghost predicate CheckedWith(
    cfg: Config, was: Ledger, rest: seq<Phase>, advice: Option<Advice>, stage: Stage, v: View, n: Machine,
    l: Ledger, stages: seq<Phase>)
    requires n.InRange()
  {
    && n.Todo() == stages + rest
    && (match advice
        case None => l == was && n.view == v && stages == []
        case Some(a) => Decided(cfg, v, was, a, stage, l, n.view, stages))
    && if stage == PreExecution then n.ledger == l
       else n.ledger == l.(attempts := n.ledger.attempts) && Closes(l.attempts, n.ledger.attempts, Seen(n.view))
  }

  lemma CheckSettles(cfg: Config, m: Machine, p: Phase)
    requires m.InRange() && IsCheck(p)
    ensures AfterPhase(cfg, m, p).InRange() && Settled(cfg, m.ledger, m.Todo(), p, m.view, AfterPhase(cfg, m, p))
  {
    hide Review, Grant, Splice, CompleteAll, Observe, Closes, Decided;
    var stage := StageOf(p);
    var advice := PhaseAdvice(m.view, p);
    var m1 := m.(tracker := m.tracker.MarkPhaseComplete(p),
                 events := m.events + [Event(PhaseCompleted, Some(p), m.tracker.status)]);
    var m2 := Correct(cfg, m1, p);
    var stages: seq<Phase> := [];
    assert [] + m.Todo() == m.Todo();
    if advice.Some? {
      ReviewDecides(cfg, m.view, m.ledger, advice.value, stage);
      var (l, r) := Review(cfg, m.view, m.ledger, advice.value, stage);
      if r.IsAccepted() {
        stages := Grant(m.view, r).1;
        SpliceAt(m1.(ledger := l, view := Grant(m.view, r).0), stages);
      }
    }
    CompleteCloses(m2.view, m2.ledger.attempts);
    assert CheckedWith(cfg, m.ledger, m.Todo(), advice, stage, m.view, AfterPhase(cfg, m, p), m2.ledger, stages);
  }

  lemma DecisionSettles(cfg: Config, m: Machine)
    requires m.InRange()
    ensures var n := AfterPhase(cfg, m, ExecutionDecision);
            n.InRange() && Settled(cfg, m.ledger, m.Todo(), ExecutionDecision, m.view, n)
  {
    assert WantsGateRetry(cfg, m.view, m.ledger) == RetriesRetrieval(cfg, m.view, m.ledger);
    hide Splice, WantsGateRetry, RetriesRetrieval, Tracker.MarkPhaseComplete;
    SpliceAt(m.(ledger := m.ledger.(gateRetries := m.ledger.gateRetries + 1),
                tracker := m.tracker.MarkPhaseComplete(ExecutionDecision),
                events := m.events + [Event(PhaseCompleted, Some(ExecutionDecision), m.tracker.status)]), GATE_RETRY_ROUTE);
  }

  lemma OutputSettles(cfg: Config, m: Machine)
    requires m.InRange()
    ensures var n := AfterPhase(cfg, m, Output);
            n.InRange() && Settled(cfg, m.ledger, m.Todo(), Output, m.view, n)
  {
    hide CompleteAll, Observe, Closes;
    CompleteCloses(m.view, m.ledger.attempts);
  }

  lemma QuietSettles(cfg: Config, m: Machine, p: Phase)
    requires m.InRange() && IsQuiet(p)
    ensures var n := AfterPhase(cfg, m, p);
            n.InRange() && Settled(cfg, m.ledger, m.Todo(), p, m.view, n)
  {
  }

  lemma AfterPhaseSettles(cfg: Config, m: Machine, p: Phase)
    requires m.InRange()
    ensures AfterPhase(cfg, m, p).InRange() && Settled(cfg, m.ledger, m.Todo(), p, m.view, AfterPhase(cfg, m, p))
  {
    hide AfterPhase, Settled;
    if IsCheck(p) {
      CheckSettles(cfg, m, p);
    } else if p == ExecutionDecision {
      DecisionSettles(cfg, m);
    } else if p == Output {
      OutputSettles(cfg, m);
    } else {
      QuietSettles(cfg, m, p);
    }
  }

  // ---- one turn -----------------------------------------------------------------------------------

  /** How often a phase is called at most. */
  function CallLimit(cfg: Config): nat { if cfg.maxRetries >= 0 then cfg.maxRetries + 1 else 1 }

  /** The phase was given up: the run ends and the accounts stay as they were. */
  ghost predicate GivenUp(m: Machine, n: Machine, v: View, status: Status) {
    && n.tracker.status == status && n.view == v && n.ledger == m.ledger && n.phases == m.phases && n.index == m.index + 1
  }

  /** Phase `p` starts and its controller is called until it does not raise or has raised too often. */
  ghost predicate Called(cfg: Config, script: nat -> Reply, m: Machine, n: Machine, p: Phase)
    requires m.index < |m.phases| && n.InRange()
  {
    && m.events + [Event(PhaseStarted, Some(p), m.tracker.status)] <= n.events
    && (forall i :: |m.events| <= i < |n.events| ==> n.events[i].phase == Some(p))
    && m.calls < n.calls <= m.calls + CallLimit(cfg)
    && n.tracker.currentPhase == p
    && (forall i :: m.calls <= i < n.calls - 1 ==> script(i).Raise?)
    && match script(n.calls - 1)
       case Return(v) =>
         && n.tracker.status == m.tracker.status && n.index == m.index + 1
         && |n.events| == |m.events| + 1 + (n.calls - m.calls)
         && n.events[|n.events| - 1] == Event(PhaseCompleted, Some(p), m.tracker.status)
         && p in n.tracker.completed
         && Settled(cfg, m.ledger, m.phases[m.index + 1..], p, v, n)
       case TaskCancelled(v) => GivenUp(m, n, v.(cancelRequested := true), Cancelled)
       case Raise(v, asCancel) =>
         n.calls == m.calls + CallLimit(cfg) && GivenUp(m, n, v, if asCancel then Cancelled else Failed)
  }

  /** One turn of the work list, from `m` to `n`. */
  ghost predicate Turn(cfg: Config, script: nat -> Reply, m: Machine, n: Machine) {
    m.InRange() && n.InRange() &&
    if m.index == |m.phases| then
      n == m.(tracker := m.tracker.(status := Completed), events := m.events + [Event(WorkflowCompleted, None, Completed)])
    else if Held(m.view, m.phases[m.index]) then
      n == m.(index := m.index + 1)
    else if m.view.cancelRequested then
      n == m.(index := m.index + 1, tracker := m.tracker.(status := Cancelled),
              events := m.events + [Event(WorkflowCancelled, Some(m.tracker.currentPhase), Cancelled)])
    else
      Called(cfg, script, m, n, m.phases[m.index])
  }

  /** The calls of one phase. */
  lemma {:induction false} RunPhaseCalls(
    cfg: Config, script: nat -> Reply, p: Phase, t: Tracker, es: seq<Event>, calls: nat, attempts: nat)
    ensures var r := RunPhase(cfg, script, p, t, es, calls, attempts);
            && calls < r.calls && es <= r.events
            && |r.events| == |es| + (r.calls - calls) - (if script(r.calls - 1).Raise? then 0 else 1)
            && (forall i :: |es| <= i < |r.events| ==> r.events[i].phase == Some(p))
            && r.calls + attempts <= calls + (if attempts + 1 >= CallLimit(cfg) then attempts + 1 else CallLimit(cfg))
            && (forall i :: calls <= i < r.calls - 1 ==> script(i).Raise?)
            && r.tracker.status == t.status && r.tracker.currentPhase == t.currentPhase && r.tracker.completed == t.completed
            && match script(r.calls - 1)
               case Return(v) => r.end == Done && r.view == v
               case TaskCancelled(v) => r.end == CancelledOut && r.view == v.(cancelRequested := true)
               case Raise(v, asCancel) =>
                 && r.calls + attempts == calls + (if attempts + 1 >= CallLimit(cfg) then attempts + 1 else CallLimit(cfg))
                 && r.end == (if asCancel then CancelledOut else FailedOut) && r.view == v
    decreases cfg.maxRetries - attempts
  {
    if script(calls).Raise? && attempts + 1 <= cfg.maxRetries {
      RunPhaseCalls(cfg, script, p, t.IncrementRetry(p).(errors := t.errors + [PhaseError(p)]),
                    es + [Event(PhaseRetry, Some(p), t.status)], calls + 1, attempts + 1);
    }
  }

  lemma SkipsIsHeld(v: View, p: Phase)
    ensures Skips(v, p) <==> Held(v, p)
  {
  }

  lemma AfterPhaseFrame(cfg: Config, m: Machine, p: Phase)
    requires m.InRange()
    ensures var n := AfterPhase(cfg, m, p);
            && n.InRange() && n.index == m.index && n.calls == m.calls
            && n.tracker == m.tracker.MarkPhaseComplete(p)
            && n.events == m.events + [Event(PhaseCompleted, Some(p), m.tracker.status)]
  {
    hide AfterPhase;
    var stages := AfterPhaseShape(cfg, m, p);
  }

  /** Every step is such a turn. */
  lemma StepIsTurn(cfg: Config, script: nat -> Reply, m: Machine)
    requires m.InRange() && m.IsRunning()
    ensures Turn(cfg, script, m, Step(cfg, script, m))
  {
    hide Skips, Held, AfterPhase, RunPhase, Settled;
    if m.index < |m.phases| {
      var p := m.phases[m.index];
      SkipsIsHeld(m.view, p);
      if !Held(m.view, p) && !m.view.cancelRequested {
        var m1 := BeginPhase(m);
        var r := RunPhase(cfg, script, p, m1.tracker, m1.events, m1.calls, 0);
        RunPhaseCalls(cfg, script, p, m1.tracker, m1.events, m1.calls, 0);
        var m2 := m1.(view := r.view, tracker := r.tracker, events := r.events, calls := r.calls);
        AfterPhaseFrame(cfg, m2, p);
        AfterPhaseSettles(cfg, m2, p);
        assert m2.Todo() == m.phases[m.index + 1..];
      }
    }
  }

  // ---- whole runs -------------------------------------------------------------------------------------

  /** The machines of a run, one per turn. */
  function History(cfg: Config, script: nat -> Reply, m: Machine): (h: seq<Machine>)
    requires m.InRange()
    ensures h != []
    decreases Quota(cfg, m) - m.index, if m.IsRunning() then 1 else 0
  {
    if !m.IsRunning() then [m]
    else
      StepQuota(cfg, script, m);
      [m] + History(cfg, script, Step(cfg, script, m))
  }

  /** Consecutive machines are turns of running machines. */
  ghost predicate TakesTurns(cfg: Config, script: nat -> Reply, h: seq<Machine>) {
    forall i :: 0 <= i < |h| - 1 ==> h[i].IsRunning() && Turn(cfg, script, h[i], h[i + 1])
  }

  lemma {:induction false} LoopTakesTurns(cfg: Config, script: nat -> Reply, m: Machine)
    requires m.InRange()
    ensures var h := History(cfg, script, m);
            && h[0] == m && h[|h| - 1] == Loop(cfg, script, m) && !h[|h| - 1].IsRunning()
            && TakesTurns(cfg, script, h)
    decreases Quota(cfg, m) - m.index, if m.IsRunning() then 1 else 0
  {
    hide Turn;
    if m.IsRunning() {
      StepQuota(cfg, script, m);
      StepIsTurn(cfg, script, m);
      var n := Step(cfg, script, m);
      hide Step, Quota;
      LoopTakesTurns(cfg, script, n);
      var h, rest := History(cfg, script, m), History(cfg, script, n);
      assert h == [m] + rest;
      forall i | 0 <= i < |h| - 1 ensures h[i].IsRunning() && Turn(cfg, script, h[i], h[i + 1]) {
        if i > 0 {
          assert h[i] == rest[i - 1] && h[i + 1] == rest[i];
        }
      }
    }
  }

  /**
   * Every run is a chain of such turns from its beginning to its end: held
   * phases leave no trace but their place in the list, every other phase
   * starts and is called, and what it changes is what its answer calls for.
   */
  lemma EveryRunTakesTurns(cfg: Config, script: nat -> Reply, v: View, l: Ledger, route: seq<Phase>)
    requires route != []
    ensures var h := History(cfg, script, Begin(v, l, Input, route));
            && h[0].view == v && h[0].ledger == l && h[0].phases == route && h[0].index == 0
            && h[|h| - 1] == Execute(cfg, script, v, l, Some(route))
            && TakesTurns(cfg, script, h)
  {
    LoopTakesTurns(cfg, script, Begin(v, l, Input, route));
  }

  // ---- runs that must not act -----------------------------------------------------------------

  /** The gate ended the attempt, or a correction did. */
  predicate IsHalting(v: View) { Held(v, Action) }

  predicate Acts(p: Phase) { p == Action || p == AnswerGeneration }

  ghost predicate NothingActed(es: seq<Event>) {
    forall i :: 0 <= i < |es| ==> es[i].phase != Some(Action) && es[i].phase != Some(AnswerGeneration)
  }

  lemma SettledHalts(cfg: Config, was: Ledger, rest: seq<Phase>, p: Phase, v: View, n: Machine)
    requires n.InRange() && Settled(cfg, was, rest, p, v, n) && IsHalting(v) && !Acts(p)
    ensures IsHalting(n.view) && n.ledger.generations == was.generations
  {
    hide Closes, IsRecord;
    if p == Reflection || p == OutputValidation {
      var advice := if p == Reflection then v.reflectionAdvice else v.validationAdvice;
      var stage := if p == Reflection then PreExecution else PostExecution;
      var l, stages :| CheckedWith(cfg, was, rest, advice, stage, v, n, l, stages);
    }
  }

  lemma TurnHalts(cfg: Config, script: nat -> Reply, m: Machine, n: Machine)
    requires Turn(cfg, script, m, n) && IsHalting(m.view) && NothingActed(m.events)
    requires m.tracker.currentPhase != Action && m.tracker.currentPhase != AnswerGeneration
    requires forall i: nat :: IsHalting(script(i).view)
    ensures IsHalting(n.view) && NothingActed(n.events) && n.ledger.generations == m.ledger.generations
    ensures n.tracker.currentPhase != Action && n.tracker.currentPhase != AnswerGeneration
  {
    hide Settled;
    if m.index < |m.phases| {
      var p := m.phases[m.index];
      if !Held(m.view, p) && !m.view.cancelRequested {
        assert !Acts(p);
        var reply := script(n.calls - 1);
        assert IsHalting(reply.view);
        if reply.Return? {
          SettledHalts(cfg, m.ledger, m.phases[m.index + 1..], p, reply.view, n);
        }
      }
    }
  }

  lemma {:induction false} LoopHalts(cfg: Config, script: nat -> Reply, m: Machine)
    requires m.InRange() && IsHalting(m.view) && NothingActed(m.events)
    requires m.tracker.currentPhase != Action && m.tracker.currentPhase != AnswerGeneration
    requires forall i: nat :: IsHalting(script(i).view)
    ensures var n := Loop(cfg, script, m);
            NothingActed(n.events) && n.ledger.generations == m.ledger.generations
    decreases Quota(cfg, m) - m.index, if m.IsRunning() then 1 else 0
  {
    if m.IsRunning() {
      StepQuota(cfg, script, m);
      StepIsTurn(cfg, script, m);
      TurnHalts(cfg, script, m, Step(cfg, script, m));
      hide Step, Quota, Turn, IsHalting, NothingActed;
      LoopHalts(cfg, script, Step(cfg, script, m));
    }
  }

  /**
   * While the gate abstains, asks the user or asks for another retrieval, or
   * a correction did, nothing is executed and no answer is generated in any
   * run: no event is about ACTION or ANSWER_GENERATION.
   */
  lemma HaltedRunNeverActs(cfg: Config, script: nat -> Reply, v: View, l: Ledger, route: seq<Phase>)
    requires IsHalting(v) && forall i: nat :: IsHalting(script(i).view)
    ensures var n := Execute(cfg, script, v, l, Some(route));
            NothingActed(n.events) && n.ledger.generations == l.generations
  {
    hide IsHalting;
    if route != [] {
      LoopHalts(cfg, script, Begin(v, l, Input, route));
    }
  }

  // ---- runs nobody disturbs ----------------------------------------------------------------------

  /** What a phase that returns at once publishes. */
  function Beats(route: seq<Phase>): seq<Event> {
    if route == [] then []
    else [Event(PhaseStarted, Some(route[0]), Running), Event(PhaseCompleted, Some(route[0]), Running)] + Beats(route[1..])
  }

  /** No gate result, no terminal action, no cancellation, and no advice. */
  predicate Undisturbed(v: View) { Unguarded(v) && v.reflectionAdvice == None && v.validationAdvice == None }

  lemma UndisturbedTurn(cfg: Config, script: nat -> Reply, m: Machine, n: Machine)
    requires Ready(m) && m.index < |m.phases| && Unguarded(m.view) && Turn(cfg, script, m, n)
    requires script(m.calls).Return? && Undisturbed(script(m.calls).view)
    ensures Ready(n) && Unguarded(n.view) && n.calls == m.calls + 1 && n.Todo() == m.Todo()[1..]
    ensures n.events == m.events + Beats(m.Todo()[..1])
    ensures n.ledger.generations == m.ledger.generations + Generations(m.Todo()[..1])
    ensures n.ledger.interventions == m.ledger.interventions && n.ledger.gateRetries == m.ledger.gateRetries
  {
    var p, v := m.phases[m.index], script(m.calls).view;
    assert n.calls == m.calls + 1;
    assert m.Todo()[..1] == [p];
    BeatsOfOne(p);
    assert n.events == m.events + [Event(PhaseStarted, Some(p), Running)] + [Event(PhaseCompleted, Some(p), Running)];
    hide Closes, Decided;
    if p == Reflection || p == OutputValidation {
      var stage := if p == Reflection then PreExecution else PostExecution;
      var l, stages :| CheckedWith(cfg, m.ledger, m.phases[m.index + 1..], None, stage, v, n, l, stages);
      assert [] + m.phases[m.index + 1..] == m.phases[m.index + 1..];
    }
  }

  lemma {:induction false} UndisturbedLoop(cfg: Config, script: nat -> Reply, m: Machine)
    requires Ready(m) && Unguarded(m.view)
    requires forall i :: m.calls <= i < m.calls + |m.Todo()| ==> script(i).Return? && Undisturbed(script(i).view)
    ensures var n := Loop(cfg, script, m);
            && n.tracker.status == Completed && n.calls == m.calls + |m.Todo()|
            && n.events == m.events + Beats(m.Todo()) + [Event(WorkflowCompleted, None, Completed)]
            && n.ledger.generations == m.ledger.generations + Generations(m.Todo())
            && n.ledger.interventions == m.ledger.interventions && n.ledger.gateRetries == m.ledger.gateRetries
    decreases |m.Todo()|
  {
    assert m.InRange() && m.IsRunning() && m.index <= |m.phases|;
    hide *;
    if m.index == |m.phases| {
      UndisturbedEnd(cfg, script, m);
    } else {
      LoopUnrolls(cfg, script, m);
      StepIsTurn(cfg, script, m);
      UndisturbedStep(cfg, script, m);
      UndisturbedLoop(cfg, script, Step(cfg, script, m));
      BeatsSplit(m.Todo());
      Rejoined(m.events, Beats(m.Todo()[..1]), Beats(m.Todo()[1..]), [Event(WorkflowCompleted, None, Completed)]);
    }
  }

  lemma LoopUnrolls(cfg: Config, script: nat -> Reply, m: Machine)
    requires m.InRange() && m.IsRunning()
    ensures Step(cfg, script, m).InRange() && Loop(cfg, script, m) == Loop(cfg, script, Step(cfg, script, m))
  {
    StepQuota(cfg, script, m);
    hide Step, Quota;
  }

  lemma UndisturbedStep(cfg: Config, script: nat -> Reply, m: Machine)
    requires Ready(m) && m.index < |m.phases| && Unguarded(m.view)
    requires forall i :: m.calls <= i < m.calls + |m.Todo()| ==> script(i).Return? && Undisturbed(script(i).view)
    ensures var n := Step(cfg, script, m);
            && Ready(n) && Unguarded(n.view) && n.calls == m.calls + 1
            && n.Todo() == m.Todo()[1..] && |n.Todo()| < |m.Todo()| && m.Todo() != []
            && n.events == m.events + Beats(m.Todo()[..1])
            && n.ledger.generations == m.ledger.generations + Generations(m.Todo()[..1])
            && n.ledger.interventions == m.ledger.interventions && n.ledger.gateRetries == m.ledger.gateRetries
            && forall i :: n.calls <= i < n.calls + |n.Todo()| ==> script(i).Return? && Undisturbed(script(i).view)
  {
    StepIsTurn(cfg, script, m);
    hide Turn, Step, Unguarded, Undisturbed, Beats, Generations;
    UndisturbedTurn(cfg, script, m, Step(cfg, script, m));
  }

  lemma UndisturbedEnd(cfg: Config, script: nat -> Reply, m: Machine)
    requires Ready(m) && m.index == |m.phases|
    ensures var n := Loop(cfg, script, m);
            && m.Todo() == []
            && n == Finish(m, Completed, WorkflowCompleted, None)
            && n.events == m.events + Beats(m.Todo()) + [Event(WorkflowCompleted, None, Completed)]
            && n.ledger.generations == m.ledger.generations + Generations(m.Todo())
            && n.tracker.status == Completed && n.calls == m.calls + |m.Todo()|
            && n.ledger == m.ledger
  {
    LoopUnrolls(cfg, script, m);
    NoBeats();
    hide Beats, Generations;
    assert m.events + [] == m.events;
  }

  lemma Rejoined<T>(a: seq<T>, x: seq<T>, y: seq<T>, z: seq<T>)
    ensures ((a + x) + y) + z == (a + (x + y)) + z
  {
  }

  lemma NoBeats()
    ensures Beats([]) == [] && Generations([]) == 0
  {
  }

  lemma BeatsOfOne(p: Phase)
    ensures Beats([p]) == [Event(PhaseStarted, Some(p), Running), Event(PhaseCompleted, Some(p), Running)]
    ensures Generations([p]) == if p == AnswerGeneration then 1 else 0
  {
    assert [p][1..] == [] && Beats([]) == [];
  }

  lemma BeatsSplit(todo: seq<Phase>)
    requires todo != []
    ensures Beats(todo) == Beats(todo[..1]) + Beats(todo[1..])
    ensures Generations(todo) == Generations(todo[..1]) + Generations(todo[1..])
  {
    BeatsOfOne(todo[0]);
    var rest := Beats(todo[1..]);
    assert todo[..1] == [todo[0]];
  }

  lemma UndisturbedBeginning(cfg: Config, script: nat -> Reply, v: View, l: Ledger, route: seq<Phase>)
    requires route != [] && Unguarded(v)
    ensures var m := Begin(v, l, Input, route);
            && Ready(m) && m.Todo() == route && m.calls == 0 && m.view == v && m.ledger == l
            && m.events == [Event(WorkflowStarted, None, Running)]
            && Execute(cfg, script, v, l, Some(route)) == Loop(cfg, script, m)
  {
    assert Begin(v, l, Input, route).Todo() == route;
    hide Loop;
  }

  /**
   * A run in which every controller returns and no gate, advice or
   * cancellation interferes publishes exactly its route, phase by phase, calls
   * each controller once and completes.
   */
  lemma UndisturbedRunFollowsRoute(cfg: Config, script: nat -> Reply, v: View, l: Ledger, route: seq<Phase>)
    requires route != [] && Unguarded(v)
    requires forall i :: 0 <= i < |route| ==> script(i).Return? && Undisturbed(script(i).view)
    ensures var n := Execute(cfg, script, v, l, Some(route));
            && n.tracker.status == Completed && n.calls == |route|
            && n.events == [Event(WorkflowStarted, None, Running)] + Beats(route) + [Event(WorkflowCompleted, None, Completed)]
            && n.ledger.generations == l.generations + Generations(route)
            && n.ledger.interventions == l.interventions && n.ledger.gateRetries == l.gateRetries
  {
    hide *;
    UndisturbedBeginning(cfg, script, v, l, route);
    UndisturbedLoop(cfg, script, Begin(v, l, Input, route));
  }

  // ---- what the attempts end with -------------------------------------------------------------------

  /** All accepted attempts are closed with `now`. */
  ghost predicate AllClosed(attempts: seq<Attempt>, now: Snapshot) {
    forall a :: a in attempts && a.reason == Accepted ==> IsClosed(a, now)
  }

  /** Output is still to come, or all attempts are closed and only delivery is left. */
  ghost predicate Closing(m: Machine)
    requires m.InRange()
  {
    && DeliversLast(m.Todo())
    && (Output in m.Todo()
        || ((forall p :: p in m.Todo() ==> Delivers(p)) && exists now :: AllClosed(m.ledger.attempts, now)))
  }

  lemma ClosesAll(was: seq<Attempt>, attempts: seq<Attempt>, now: Snapshot)
    requires Closes(was, attempts, now)
    ensures AllClosed(attempts, now)
  {
    forall a | a in attempts && a.reason == Accepted ensures IsClosed(a, now) {
      var i :| 0 <= i < |attempts| && attempts[i] == a;
    }
  }

  /** What comes before the rest of the work list after a check or a decision never delivers. */
  lemma DeliveryStaysLast(stages: seq<Phase>, rest: seq<Phase>)
    requires DeliversLast(rest) && forall p :: p in stages ==> !Delivers(p)
    ensures DeliversLast(stages + rest)
  {
    var s := stages + rest;
    forall i, j | 0 <= i < j < |s| && Delivers(s[i])
      ensures Delivers(s[j])
    {
      assert forall k :: 0 <= k < |stages| ==> s[k] == stages[k] && stages[k] in stages;
      assert s[i] == rest[i - |stages|] && s[j] == rest[j - |stages|];
    }
  }

  lemma TailDeliversLast(p: Phase, rest: seq<Phase>)
    requires DeliversLast([p] + rest)
    ensures DeliversLast(rest)
  {
    assert forall i :: 0 <= i < |rest| ==> ([p] + rest)[i + 1] == rest[i];
  }

  lemma TakesNoDelivery(v: View, action: Correction, stage: Stage, query: string, w: View, stages: seq<Phase>)
    requires Takes(v, action, stage, query, w, stages)
    ensures forall p :: p in stages ==> !Delivers(p)
  {
  }

  lemma CheckCloses(
    cfg: Config, was: Ledger, rest: seq<Phase>, advice: Option<Advice>, stage: Stage, v: View, n: Machine)
    requires n.InRange() && Checked(cfg, was, rest, advice, stage, v, n)
    requires DeliversLast(rest) && Output in rest
    ensures DeliversLast(n.Todo()) && Output in n.Todo()
  {
    hide Takes, IsRecord, Closes, DeliversLast;
    var l, stages :| CheckedWith(cfg, was, rest, advice, stage, v, n, l, stages);
    if advice.Some? && stages != [] {
      TakesNoDelivery(v, advice.value.action, stage, l.attempts[|was.attempts|].after.query, n.view, stages);
    }
    DeliveryStaysLast(stages, rest);
  }

  lemma OnlyDeliveryFollows(p: Phase, rest: seq<Phase>)
    requires DeliversLast([p] + rest) && Delivers(p)
    ensures forall q :: q in rest ==> Delivers(q)
  {
    forall q | q in rest ensures Delivers(q) {
      var j :| 0 <= j < |rest| && rest[j] == q;
      assert ([p] + rest)[0] == p && ([p] + rest)[j + 1] == q;
    }
  }

  lemma SettledCloses(cfg: Config, was: Ledger, rest: seq<Phase>, p: Phase, v: View, n: Machine)
    requires n.InRange() && Settled(cfg, was, rest, p, v, n) && DeliversLast([p] + rest)
    requires Output in [p] + rest || (Delivers(p) && exists now :: AllClosed(was.attempts, now))
    ensures Closing(n)
  {
    hide Checked, Closes, AllClosed, DeliversLast;
    TailDeliversLast(p, rest);
    if Delivers(p) {
      OnlyDeliveryFollows(p, rest);
    }
    if p == Output {
      ClosesAll(was.attempts, n.ledger.attempts, Seen(v));
    } else if p == Reflection {
      CheckCloses(cfg, was, rest, v.reflectionAdvice, PreExecution, v, n);
    } else if p == OutputValidation {
      CheckCloses(cfg, was, rest, v.validationAdvice, PostExecution, v, n);
    } else if p == ExecutionDecision {
      DeliveryStaysLast([EvidenceAcquisition, Planning, WorldSimulation, UncertaintyEstimation, ExecutionDecision], rest);
    }
  }

  lemma TurnCloses(cfg: Config, script: nat -> Reply, m: Machine, n: Machine)
    requires Turn(cfg, script, m, n) && m.IsRunning() && Closing(m)
    ensures n.tracker.status in {Running, Completed} ==> Closing(n)
  {
    hide Settled, AllClosed, Closing, Held;
    if m.index < |m.phases| && n.tracker.status in {Running, Completed} {
      var p, rest := m.phases[m.index], m.phases[m.index + 1..];
      assert m.Todo() == [p] + rest;
      if Held(m.view, p) {
        HeldCloses(m, n, p);
      } else {
        assert script(n.calls - 1).Return?;
        ClosingMeans(m, p, rest);
        SettledCloses(cfg, m.ledger, rest, p, script(n.calls - 1).view, n);
      }
    } else if n.tracker.status in {Running, Completed} {
      NothingCloses(m, n);
    }
  }

  lemma ClosingMeans(m: Machine, p: Phase, rest: seq<Phase>)
    requires m.InRange() && Closing(m) && m.Todo() == [p] + rest
    ensures DeliversLast([p] + rest)
    ensures Output in [p] + rest || (Delivers(p) && exists now :: AllClosed(m.ledger.attempts, now))
  {
    assert p in [p] + rest;
  }

  lemma NothingCloses(m: Machine, n: Machine)
    requires m.InRange() && n.InRange() && Closing(m) && m.Todo() == n.Todo() && n.ledger == m.ledger
    ensures Closing(n)
  {
  }

  lemma HeldCloses(m: Machine, n: Machine, p: Phase)
    requires m.InRange() && Closing(m) && m.index < |m.phases| && m.phases[m.index] == p
    requires n == m.(index := m.index + 1) && Held(m.view, p)
    ensures Closing(n)
  {
    var rest := n.Todo();
    assert m.Todo() == [p] + rest && !Delivers(p);
    ClosingMeans(m, p, rest);
    TailDeliversLast(p, rest);
    hide DeliversLast, AllClosed, Held;
    assert Output in rest;
  }

  lemma {:induction false} LoopCloses(cfg: Config, script: nat -> Reply, m: Machine)
    requires m.InRange() && m.IsRunning() && Closing(m)
    ensures var n := Loop(cfg, script, m);
            n.tracker.status == Completed ==> exists now :: AllClosed(n.ledger.attempts, now)
    decreases Quota(cfg, m) - m.index
  {
    StepQuota(cfg, script, m);
    StepIsTurn(cfg, script, m);
    var n := Step(cfg, script, m);
    TurnCloses(cfg, script, m, n);
    hide Step, Quota, Turn, AllClosed;
    if n.IsRunning() {
      LoopCloses(cfg, script, n);
    } else if n.tracker.status == Completed {
      assert n.Todo() == [];
    }
  }

  /**
   * When a run of a delivering route completes, every accepted attempt is
   * closed with one and the same final snapshot: its delta is the confidence
   * gained, its utility the larger of that, zero, and a quarter if query, plan
   * or answer changed.
   */
  lemma CompletedRunClosesAttempts(cfg: Config, script: nat -> Reply, v: View, l: Ledger, route: seq<Phase>)
    requires Output in route && DeliversLast(route)
    ensures var n := Execute(cfg, script, v, l, Some(route));
            n.tracker.status == Completed ==> exists now :: AllClosed(n.ledger.attempts, now)
  {
    var m := Begin(v, l, Input, route);
    assert m.Todo() == route;
    hide AllClosed, Loop;
    LoopCloses(cfg, script, m);
  }
}
