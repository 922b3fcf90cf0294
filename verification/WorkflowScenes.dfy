/**
 * Building concrete runs of the control bus: what one answered phase does to
 * the work list and the counters, and scripts that answer every call.
 */
module WorkflowScenes {
  import opened Options
  import opened Text
  import opened WorkflowModel
  import opened WorkflowTheorems
  import opened WorkflowRuns

  /** The work left and the counters the budgets are about. */
  datatype Position = Position(
    todo: seq<Phase>,
    calls: nat,
    generations: nat,
    gateRetries: nat,
    interventions: nat,
    signatures: set<(Correction, string)>,
    correctionRetries: nat,
    replans: nat
  )

  function At(m: Machine): Position
    requires m.InRange()
  {
    var l := m.ledger;
    Position(m.Todo(), m.calls, l.generations, l.gateRetries, l.interventions, l.signatures, l.correctionRetries, l.replans)
  }

  predicate Ready(m: Machine) { m.InRange() && m.IsRunning() && !m.view.cancelRequested }

  /** A phase whose controller returns at the first call is settled and the run goes on. */
  lemma ReturnTurn(cfg: Config, script: nat -> Reply, m: Machine)
    requires Ready(m) && m.index < |m.phases| && !Skips(m.view, m.phases[m.index]) && script(m.calls).Return?
    ensures var n := Step(cfg, script, m);
            && n == AfterPhase(cfg, BeginPhase(m).(view := script(m.calls).view, calls := m.calls + 1), m.phases[m.index])
            && n.InRange() && n.IsRunning() && Loop(cfg, script, m) == Loop(cfg, script, n)
  {
    hide AfterPhase, Skips, Quota;
    StepQuota(cfg, script, m);
    var m1 := BeginPhase(m).(view := script(m.calls).view, calls := m.calls + 1);
    AfterPhaseQuota(cfg, m1, m.phases[m.index]);
  }

  lemma BegunAt(m: Machine, v: View)
    requires m.InRange() && m.index < |m.phases|
    ensures var m1 := BeginPhase(m).(view := v, calls := m.calls + 1);
            && m1.InRange() && m1.view == v && m1.IsRunning() == m.IsRunning()
            && At(m1) == At(m).(todo := At(m).todo[1..], calls := m.calls + 1)
            && At(m).todo[0] == m.phases[m.index]
  {
  }

  /** Phases that neither check nor decide. */
  predicate IsQuiet(p: Phase) { p !in {Reflection, OutputValidation, Output, ExecutionDecision} }

  predicate IsCheck(p: Phase) { p == Reflection || p == OutputValidation }

  lemma AfterQuiet(cfg: Config, m: Machine, p: Phase)
    requires m.InRange() && IsQuiet(p)
    ensures var n := AfterPhase(cfg, m, p);
            n.view == m.view && n.InRange()
            && At(n) == At(m).(generations := m.ledger.generations + if p == AnswerGeneration then 1 else 0)
  {
  }

  lemma SpliceAt(m: Machine, stages: seq<Phase>)
    requires m.InRange()
    ensures var n := Splice(m, stages);
            n.InRange() && At(n) == At(m).(todo := stages + At(m).todo) && n.view == m.view && n.ledger == m.ledger
  {
    assert Splice(m, stages).phases[m.index..] == stages + m.phases[m.index..];
  }

  lemma AfterDecision(cfg: Config, m: Machine)
    requires m.InRange()
    ensures var n := AfterPhase(cfg, m, ExecutionDecision);
            && n.view == m.view && n.InRange()
            && At(n) == if WantsGateRetry(cfg, m.view, m.ledger)
                        then At(m).(todo := GATE_RETRY_ROUTE + At(m).todo, gateRetries := m.ledger.gateRetries + 1)
                        else At(m)
  {
    hide Splice, WantsGateRetry;
    SpliceAt(m.(ledger := m.ledger.(gateRetries := m.ledger.gateRetries + 1),
                tracker := m.tracker.MarkPhaseComplete(ExecutionDecision),
                events := m.events + [Event(PhaseCompleted, Some(ExecutionDecision), m.tracker.status)]), GATE_RETRY_ROUTE);
  }

  function StageOf(p: Phase): Stage { if p == OutputValidation then PostExecution else PreExecution }

  lemma AfterCheck(cfg: Config, m: Machine, p: Phase)
    requires m.InRange() && IsCheck(p)
    ensures var n := AfterPhase(cfg, m, p);
            && n.InRange()
            && match PhaseAdvice(m.view, p)
               case None => n.view == m.view && At(n) == At(m)
               case Some(advice) =>
                 var (l, attempt) := Review(cfg, m.view, m.ledger, advice, StageOf(p));
                 var (v, stages) := if attempt.IsAccepted() then Grant(m.view, attempt) else (m.view, []);
                 && n.view == v
                 && At(n) == At(m).(todo := stages + At(m).todo, gateRetries := l.gateRetries, interventions := l.interventions,
                                    generations := l.generations, signatures := l.signatures,
                                    correctionRetries := l.correctionRetries, replans := l.replans)
  {
    hide Review, Grant, CloseAttempts, Splice;
    var m1 := m.(tracker := m.tracker.MarkPhaseComplete(p),
                 events := m.events + [Event(PhaseCompleted, Some(p), m.tracker.status)]);
    assert At(m1) == At(m) && [] + m.Todo() == m.Todo();
    CorrectQuota(cfg, m1, p);
    CloseAt(Correct(cfg, m1, p), p);
    var advice := PhaseAdvice(m.view, p);
    if advice.Some? {
      var (l, attempt) := Review(cfg, m.view, m.ledger, advice.value, StageOf(p));
      if attempt.IsAccepted() {
        SpliceAt(m1.(ledger := l, view := Grant(m.view, attempt).0), Grant(m.view, attempt).1);
      }
    }
  }

  lemma CloseAt(m: Machine, p: Phase)
    requires m.InRange()
    ensures var n := CloseAttempts(m, p); n.InRange() && At(n) == At(m) && n.view == m.view
  {
  }

  // ---- answered phases ---------------------------------------------------------------

  /** No gate result and no terminal action: nothing is skipped. */
  predicate Unguarded(v: View) { v.gate == None && v.terminalAction == None && !v.cancelRequested }

  lemma QuietTurn(cfg: Config, script: nat -> Reply, m: Machine)
    requires Ready(m) && At(m).todo != [] && script(m.calls).Return?
    requires IsQuiet(At(m).todo[0])
    requires Unguarded(m.view) || IsPlain(At(m).todo[0])
    ensures var n := Step(cfg, script, m);
            && n.InRange() && n.IsRunning() && n.view == script(m.calls).view
            && At(n) == At(m).(todo := At(m).todo[1..], calls := m.calls + 1,
                               generations := m.ledger.generations + if At(m).todo[0] == AnswerGeneration then 1 else 0)
            && Loop(cfg, script, m) == Loop(cfg, script, n)
  {
    BegunAt(m, script(m.calls).view);
    ReturnTurn(cfg, script, m);
    AfterQuiet(cfg, BeginPhase(m).(view := script(m.calls).view, calls := m.calls + 1), m.phases[m.index]);
    hide AfterPhase, Step, Loop;
  }

  predicate IsPlain(p: Phase) { IsQuiet(p) && p != Action && p != AnswerGeneration }

  lemma DecisionTurn(cfg: Config, script: nat -> Reply, m: Machine)
    requires Ready(m) && At(m).todo != [] && script(m.calls).Return? && At(m).todo[0] == ExecutionDecision
    ensures var n, v := Step(cfg, script, m), script(m.calls).view;
            && n.InRange() && n.IsRunning() && n.view == v
            && At(n) == (if WantsGateRetry(cfg, v, m.ledger)
                         then At(m).(todo := GATE_RETRY_ROUTE + At(m).todo[1..], calls := m.calls + 1,
                                     gateRetries := m.ledger.gateRetries + 1)
                         else At(m).(todo := At(m).todo[1..], calls := m.calls + 1))
            && Loop(cfg, script, m) == Loop(cfg, script, n)
  {
    BegunAt(m, script(m.calls).view);
    ReturnTurn(cfg, script, m);
    AfterDecision(cfg, BeginPhase(m).(view := script(m.calls).view, calls := m.calls + 1));
    hide AfterPhase, Step, Loop, WantsGateRetry;
  }

  /** A check whose controller brings no advice. */
  lemma IdleCheckTurn(cfg: Config, script: nat -> Reply, m: Machine)
    requires Ready(m) && Unguarded(m.view) && At(m).todo != [] && IsCheck(At(m).todo[0])
    requires script(m.calls).Return? && PhaseAdvice(script(m.calls).view, At(m).todo[0]) == None
    ensures var n := Step(cfg, script, m);
            && n.InRange() && n.IsRunning() && n.view == script(m.calls).view
            && At(n) == At(m).(todo := At(m).todo[1..], calls := m.calls + 1)
            && Loop(cfg, script, m) == Loop(cfg, script, n)
  {
    BegunAt(m, script(m.calls).view);
    ReturnTurn(cfg, script, m);
    AfterCheck(cfg, BeginPhase(m).(view := script(m.calls).view, calls := m.calls + 1), m.phases[m.index]);
    hide AfterPhase, Step, Loop;
  }

  /** Advice without a query of its own to compare: it is judged by budgets and signatures only. */
  predicate IsPlainAction(a: Correction) { a == Replan || a == RetryTransientFailure || a == Regenerate }

  /** The budgets leave room for the correction. */
  predicate HasRoom(cfg: Config, l: Position, a: Correction) {
    && l.interventions < cfg.budget.maxInterventions
    && (a == RetryTransientFailure ==> l.correctionRetries + l.gateRetries < cfg.budget.maxRetrievalRetries)
    && (a == Replan ==> l.replans < cfg.budget.maxReplans)
    && (a == Regenerate ==> l.generations < cfg.budget.maxGenerations)
  }

  /** A confident proposal of a correction, told apart by its wording. */
  function Proposal(a: Correction, wording: string): Advice { Advice(true, a, wording, 1.0, false) }

  /** The phases a plain action is granted. */
  function Granted(v: View, a: Correction, stage: Stage): seq<Phase> {
    match a
    case Replan => ReplanRoute(v, stage)
    case RetryTransientFailure => if stage == PostExecution && v.hasActionResult then [Action, OutputValidation] else QueryRoute(v, stage)
    case _ => [AnswerGeneration, OutputValidation]
  }

  /** A fresh proposal of a plain action is accepted exactly when there is room for it. */
  lemma CheckTurn(cfg: Config, script: nat -> Reply, m: Machine, a: Correction, wording: string)
    requires Ready(m) && Unguarded(m.view) && At(m).todo != [] && IsCheck(At(m).todo[0])
    requires script(m.calls).Return? && !script(m.calls).view.cancelRequested
    requires PhaseAdvice(script(m.calls).view, At(m).todo[0]) == Some(Proposal(a, wording))
    requires IsPlainAction(a) && cfg.budget.Valid()
    requires Signature(cfg.text, a, Collapse(cfg.text, wording)) !in m.ledger.signatures
    ensures var n, v := Step(cfg, script, m), script(m.calls).view;
            && Ready(n) && n.view.gate == v.gate && n.view.terminalAction == v.terminalAction
            && At(n) == (if HasRoom(cfg, At(m), a) then
                           At(m).(todo := Granted(v, a, StageOf(At(m).todo[0])) + At(m).todo[1..], calls := m.calls + 1,
                                  interventions := m.ledger.interventions + 1,
                                  signatures := m.ledger.signatures + {Signature(cfg.text, a, Collapse(cfg.text, wording))},
                                  correctionRetries := m.ledger.correctionRetries + if a == RetryTransientFailure then 1 else 0,
                                  replans := m.ledger.replans + if a == Replan then 1 else 0)
                         else At(m).(todo := At(m).todo[1..], calls := m.calls + 1))
            && Loop(cfg, script, m) == Loop(cfg, script, n)
  {
    hide AfterPhase, Step, Loop, Review, Grant, Granted, Signature, Collapse, BeginPhase, Quota;
    var v, p := script(m.calls).view, m.phases[m.index];
    BegunAt(m, v);
    ReturnTurn(cfg, script, m);
    var m1 := BeginPhase(m).(view := v, calls := m.calls + 1);
    AfterCheck(cfg, m1, p);
    PlainReview(cfg, m1, a, wording, StageOf(p));
    assert HasRoom(cfg, At(m1), a) == HasRoom(cfg, At(m), a);
    assert [] + At(m).todo[1..] == At(m).todo[1..];
  }

  lemma PlainReview(cfg: Config, m: Machine, a: Correction, wording: string, stage: Stage)
    requires IsPlainAction(a) && cfg.budget.Valid() && m.InRange()
    requires Signature(cfg.text, a, Collapse(cfg.text, wording)) !in m.ledger.signatures
    ensures var (l, attempt) := Review(cfg, m.view, m.ledger, Proposal(a, wording), stage);
            && (attempt.IsAccepted() <==> HasRoom(cfg, At(m), a))
            && l.generations == m.ledger.generations && l.gateRetries == m.ledger.gateRetries
            && (attempt.IsAccepted() ==>
                  && l.interventions == m.ledger.interventions + 1
                  && l.signatures == m.ledger.signatures + {Signature(cfg.text, a, Collapse(cfg.text, wording))}
                  && l.correctionRetries == m.ledger.correctionRetries + (if a == RetryTransientFailure then 1 else 0)
                  && l.replans == m.ledger.replans + (if a == Replan then 1 else 0)
                  && Grant(m.view, attempt).1 == Granted(m.view, a, stage)
                  && Grant(m.view, attempt).0 == m.view.(queryOverride := Grant(m.view, attempt).0.queryOverride))
            && (!attempt.IsAccepted() ==>
                  && l.interventions == m.ledger.interventions && l.signatures == m.ledger.signatures
                  && l.correctionRetries == m.ledger.correctionRetries && l.replans == m.ledger.replans)
  {
    hide Collapse, Lower, QueryRoute, ReplanRoute;
  }

  /** A stretch of quiet phases and gate decisions without a gate result is simply worked off. */
  lemma {:induction false} Stretch(cfg: Config, script: nat -> Reply, m: Machine, lead: seq<Phase>, rest: seq<Phase>)
    returns (n: Machine)
    requires Ready(m) && Unguarded(m.view) && At(m).todo == lead + rest
    requires forall p :: p in lead ==> IsQuiet(p) || p == ExecutionDecision
    requires forall i :: m.calls <= i < m.calls + |lead| ==> script(i).Return? && Unguarded(script(i).view)
    ensures Ready(n) && Unguarded(n.view)
    ensures At(n) == At(m).(todo := rest, calls := m.calls + |lead|, generations := m.ledger.generations + Generations(lead))
    ensures Loop(cfg, script, m) == Loop(cfg, script, n)
    decreases |lead|
  {
    hide Step, Loop, Quota;
    if lead == [] {
      assert lead + rest == rest;
      n := m;
    } else {
      assert (lead + rest)[1..] == lead[1..] + rest && At(m).todo[0] == lead[0];
      var next := Step(cfg, script, m);
      if lead[0] == ExecutionDecision {
        DecisionTurn(cfg, script, m);
      } else {
        QuietTurn(cfg, script, m);
      }
      n := Stretch(cfg, script, next, lead[1..], rest);
    }
  }
}
