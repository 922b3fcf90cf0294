/**
 * When the correction budgets hold over whole runs: for every route of the
 * matrix, the exact budgets under which no run exceeds the shared retrieval
 * limit, and under which no run exceeds the generation limit.
 */
module WorkflowBudgets {
  import opened Options
  import opened Sequences
  import opened Text
  import opened WorkflowModel
  import opened WorkflowTheorems
  import opened WorkflowLedger
  import opened WorkflowRuns
  import opened WorkflowScenes

  // ---- requests -----------------------------------------------------------------------

  /** Profile and task kind belong to the request; no controller changes them. */
  predicate Serves(task: TaskKind, profile: Profile, v: View) {
    v.fullProfile == (profile == PrimaFull) && v.toolTask == (task == ToolRequest)
  }

  ghost predicate ScriptServes(task: TaskKind, profile: Profile, script: nat -> Reply) {
    forall i: nat :: Serves(task, profile, script(i).view)
  }

  /** The counters a request's run ends with, starting from fresh ones. */
  function Spent(cfg: Config, task: TaskKind, profile: Profile, script: nat -> Reply, v: View): Ledger {
    Execute(cfg, script, v, FRESH_LEDGER, SelectRoute(task, profile)).ledger
  }

  /** Gate and correction retries together stay within `max_retrieval_retries`, whatever the controllers do. */
  ghost predicate KeepsRetrievalBudget(cfg: Config, task: TaskKind, profile: Profile) {
    forall script, v :: ScriptServes(task, profile, script) && Serves(task, profile, v) ==>
      var l := Spent(cfg, task, profile, script, v);
      l.correctionRetries + l.gateRetries <= cfg.budget.maxRetrievalRetries
  }

  /** Generations stay within `max_generations`, whatever the controllers do. */
  ghost predicate KeepsGenerationBudget(cfg: Config, task: TaskKind, profile: Profile) {
    forall script, v :: ScriptServes(task, profile, script) && Serves(task, profile, v) ==>
      Spent(cfg, task, profile, script, v).generations <= cfg.budget.maxGenerations
  }

  /** Routes with a gate decision and a reflection; with checks after a generation only; with neither. */
  datatype Shape = Gated | Answering | Plain

  function ShapeOf(task: TaskKind, profile: Profile): Shape {
    match profile
    case PrimaFull => if task == HistoricalReplay then Plain else Gated
    case ModelOnly => Answering
    case SimpleRag => Answering
    case _ => Plain
  }

  // ---- what steps keep -----------------------------------------------------------------

  lemma StepServes(cfg: Config, task: TaskKind, profile: Profile, script: nat -> Reply, m: Machine)
    requires m.InRange() && m.IsRunning() && ScriptServes(task, profile, script) && Serves(task, profile, m.view)
    ensures Serves(task, profile, Step(cfg, script, m).view)
  {
    hide Skips, ScriptServes, AfterPhase, RunPhase, Serves;
    if m.index < |m.phases| && !Skips(m.view, m.phases[m.index]) && !m.view.cancelRequested {
      var p, m1 := m.phases[m.index], BeginPhase(m);
      var r := RunPhase(cfg, script, p, m1.tracker, m1.events, m1.calls, 0);
      RunServes(cfg, task, profile, script, p, m1.tracker, m1.events, m1.calls, 0);
      SettlingServes(cfg, task, profile, m1.(view := r.view, tracker := r.tracker, events := r.events, calls := r.calls), p);
    }
  }

  lemma SettlingServes(cfg: Config, task: TaskKind, profile: Profile, m: Machine, p: Phase)
    requires m.InRange() && Serves(task, profile, m.view)
    ensures Serves(task, profile, AfterPhase(cfg, m, p).view)
  {
    hide AfterPhase, Review;
    if p == Output {
      AfterOutput(cfg, m);
    } else if p == ExecutionDecision {
      AfterDecision(cfg, m);
    } else if IsCheck(p) {
      AfterCheck(cfg, m, p);
    } else {
      AfterQuiet(cfg, m, p);
    }
  }

  lemma {:induction false} RunServes(
    cfg: Config, task: TaskKind, profile: Profile, script: nat -> Reply, p: Phase, t: Tracker, es: seq<Event>,
    calls: nat, attempts: nat)
    requires ScriptServes(task, profile, script)
    ensures Serves(task, profile, RunPhase(cfg, script, p, t, es, calls, attempts).view)
    decreases cfg.maxRetries - attempts
  {
    assert Serves(task, profile, script(calls).view);
    match script(calls)
    case Raise(v, asCancel) =>
      if attempts + 1 <= cfg.maxRetries {
        RunServes(cfg, task, profile, script, p, t.IncrementRetry(p).(errors := t.errors + [PhaseError(p)]),
                  es + [Event(PhaseRetry, Some(p), t.status)], calls + 1, attempts + 1);
      }
    case _ =>
  }

  /** How one step moves the position: the phase at the head is dropped, or replaced by what it was granted. */
  ghost predicate Moves(cfg: Config, view: View, a: Position, b: Position) {
    || b == a.(calls := b.calls)
    || (a.todo != [] && b == a.(todo := a.todo[1..], calls := b.calls))
    || (a.todo != [] && IsQuiet(a.todo[0])
        && b == a.(todo := a.todo[1..], calls := b.calls,
                   generations := a.generations + if a.todo[0] == AnswerGeneration then 1 else 0))
    || (a.todo != [] && a.todo[0] == ExecutionDecision
        && b == a.(todo := GATE_RETRY_ROUTE + a.todo[1..], calls := b.calls, gateRetries := a.gateRetries + 1))
    || (a.todo != [] && IsCheck(a.todo[0])
        && exists action, stages :: Corrects(cfg, view, a, b, action, stages))
  }

  /** An accepted correction: what it costs, what it brings, and the limits it was checked against. */
  ghost predicate Corrects(cfg: Config, view: View, a: Position, b: Position, action: Correction, stages: seq<Phase>) {
    && a.todo != []
    && b == a.(todo := stages + a.todo[1..], calls := b.calls, interventions := a.interventions + 1,
               signatures := b.signatures,
               correctionRetries := a.correctionRetries + (if IsRetrievalAction(action) then 1 else 0),
               replans := a.replans + (if action == Replan then 1 else 0))
    && a.interventions < cfg.budget.maxInterventions
    && (IsRetrievalAction(action) ==> a.correctionRetries + a.gateRetries < cfg.budget.maxRetrievalRetries)
    && (action == Replan ==> a.replans < cfg.budget.maxReplans)
    && (action == Regenerate ==> a.generations < cfg.budget.maxGenerations)
    && BringsOnly(view, action, stages)
  }

  /** The phases each kind of correction can bring, by profile and task kind. */
  predicate BringsOnly(view: View, action: Correction, stages: seq<Phase>) {
    && (action == Regenerate ==> stages == [AnswerGeneration, OutputValidation])
    && (action != Regenerate && (view.fullProfile && view.toolTask) ==> AnswerGeneration !in stages)
    && (!IsRetrievalAction(action) && action != Replan && action != Regenerate ==> stages == [])
    && (action != Replan && !view.fullProfile ==> ExecutionDecision !in stages)
  }

  lemma GrantBrings(v: View, attempt: Attempt)
    ensures BringsOnly(v, attempt.advice.action, Grant(v, attempt).1)
  {
  }

  lemma ReviewCorrects(cfg: Config, m: Machine, advice: Advice, stage: Stage)
    requires m.InRange()
    ensures var (l, attempt) := Review(cfg, m.view, m.ledger, advice, stage);
            && l.generations == m.ledger.generations && l.gateRetries == m.ledger.gateRetries
            && (!attempt.IsAccepted() ==> l == m.ledger.(attempts := l.attempts))
            && (attempt.IsAccepted() ==>
                  && attempt.advice == advice
                  && l.interventions == m.ledger.interventions + 1 && m.ledger.interventions < cfg.budget.maxInterventions
                  && l.correctionRetries == m.ledger.correctionRetries + (if IsRetrievalAction(advice.action) then 1 else 0)
                  && l.replans == m.ledger.replans + (if advice.action == Replan then 1 else 0)
                  && (IsRetrievalAction(advice.action) ==>
                        m.ledger.correctionRetries + m.ledger.gateRetries < cfg.budget.maxRetrievalRetries)
                  && (advice.action == Replan ==> m.ledger.replans < cfg.budget.maxReplans)
                  && (advice.action == Regenerate ==> m.ledger.generations < cfg.budget.maxGenerations))
  {
    hide Collapse, Lower, LoweredQueries;
  }

  lemma CheckMoves(cfg: Config, m: Machine, p: Phase, rest: seq<Phase>)
    requires m.InRange() && IsCheck(p) && At(m).todo == rest
    ensures var n := AfterPhase(cfg, m, p);
            n.InRange() && forall a: Position :: At(m) == a.(todo := rest, calls := m.calls) && a.todo == [p] + rest ==>
              Moves(cfg, m.view, a, At(n))
  {
    hide Review, Grant, AfterPhase, BringsOnly;
    AfterCheck(cfg, m, p);
    var n := AfterPhase(cfg, m, p);
    var advice := PhaseAdvice(m.view, p);
    if advice.Some? {
      ReviewCorrects(cfg, m, advice.value, StageOf(p));
      var (l, attempt) := Review(cfg, m.view, m.ledger, advice.value, StageOf(p));
      if attempt.IsAccepted() {
        var stages := Grant(m.view, attempt).1;
        GrantBrings(m.view, attempt);
        forall a: Position | At(m) == a.(todo := rest, calls := m.calls) && a.todo == [p] + rest
          ensures Corrects(cfg, m.view, a, At(n), advice.value.action, stages)
        {
          assert a.todo[1..] == rest;
        }
      }
    }
  }

  lemma AfterOutput(cfg: Config, m: Machine)
    requires m.InRange()
    ensures var n := AfterPhase(cfg, m, Output); n.InRange() && At(n) == At(m) && n.view == m.view
  {
    CloseAt(m.(tracker := m.tracker.MarkPhaseComplete(Output),
               events := m.events + [Event(PhaseCompleted, Some(Output), m.tracker.status)]), Output);
    hide CloseAttempts;
  }

  /** Settling a phase is a move. */
  lemma SettlingMoves(cfg: Config, m: Machine, p: Phase, a: Position)
    requires m.InRange() && a.todo != [] && a.todo[0] == p
    requires At(m) == a.(todo := a.todo[1..], calls := m.calls)
    ensures var n := AfterPhase(cfg, m, p); n.InRange() && Moves(cfg, m.view, a, At(n))
  {
    hide AfterPhase, WantsGateRetry;
    if p == Output {
      AfterOutput(cfg, m);
    } else if p == ExecutionDecision {
      AfterDecision(cfg, m);
    } else if IsCheck(p) {
      assert a.todo == [p] + a.todo[1..];
      CheckMoves(cfg, m, p, a.todo[1..]);
    } else {
      AfterQuiet(cfg, m, p);
    }
  }

  /** Every step of a run moves, under a view that serves the request. */
  lemma StepMoves(cfg: Config, task: TaskKind, profile: Profile, script: nat -> Reply, m: Machine) returns (v: View)
    requires m.InRange() && m.IsRunning() && ScriptServes(task, profile, script) && Serves(task, profile, m.view)
    ensures Step(cfg, script, m).InRange()
    ensures Serves(task, profile, v) && Moves(cfg, v, At(m), At(Step(cfg, script, m)))
  {
    hide AfterPhase, Skips, ScriptServes, RunPhase, Corrects;
    v := m.view;
    if m.index < |m.phases| && !Skips(m.view, m.phases[m.index]) && !m.view.cancelRequested {
      var p, m1 := m.phases[m.index], BeginPhase(m);
      var r := RunPhase(cfg, script, p, m1.tracker, m1.events, m1.calls, 0);
      RunServes(cfg, task, profile, script, p, m1.tracker, m1.events, m1.calls, 0);
      v := r.view;
      var m2 := m1.(view := r.view, tracker := r.tracker, events := r.events, calls := r.calls);
      assert At(m2) == At(m).(todo := At(m).todo[1..], calls := m2.calls);
      SettlingMoves(cfg, m2, p, At(m));
    }
  }

  /** What every move under a serving view keeps, every run keeps. */
  lemma {:induction false} LoopKeepsPosition(
    cfg: Config, task: TaskKind, profile: Profile, script: nat -> Reply, m: Machine, keeps: Position -> bool)
    requires m.InRange() && ScriptServes(task, profile, script) && Serves(task, profile, m.view) && keeps(At(m))
    requires forall v, a, b :: Serves(task, profile, v) && Moves(cfg, v, a, b) && keeps(a) ==> keeps(b)
    ensures var n := Loop(cfg, script, m); n.InRange() && keeps(At(n))
    decreases Quota(cfg, m) - m.index, if m.IsRunning() then 1 else 0
  {
    hide Moves, ScriptServes, Serves;
    if m.IsRunning() {
      StepQuota(cfg, script, m);
      var v := StepMoves(cfg, task, profile, script, m);
      StepServes(cfg, task, profile, script, m);
      hide Step, Quota;
      LoopKeepsPosition(cfg, task, profile, script, Step(cfg, script, m), keeps);
    }
  }

  lemma RunKeepsPosition(
    cfg: Config, task: TaskKind, profile: Profile, script: nat -> Reply, v: View, keeps: Position -> bool)
    requires SelectRoute(task, profile).Some?
    requires ScriptServes(task, profile, script) && Serves(task, profile, v)
    requires keeps(Position(SelectRoute(task, profile).value, 0, 0, 0, 0, {}, 0, 0))
    requires forall v, a, b :: Serves(task, profile, v) && Moves(cfg, v, a, b) && keeps(a) ==> keeps(b)
    ensures exists b: Position ::
              var l := Spent(cfg, task, profile, script, v);
              && keeps(b) && b.generations == l.generations && b.gateRetries == l.gateRetries
              && b.correctionRetries == l.correctionRetries && b.replans == l.replans
  {
    hide SelectRoute, Moves, Serves, ScriptServes;
    var route := SelectRoute(task, profile).value;
    RoutesDeliver(task, profile);
    var m := Begin(v, FRESH_LEDGER, Input, route);
    assert At(m) == Position(route, 0, 0, 0, 0, {}, 0, 0);
    LoopKeepsPosition(cfg, task, profile, script, m, keeps);
    assert keeps(At(Loop(cfg, script, m)));
  }

  // ---- three invariants ------------------------------------------------------------------

  /** Without a replan no gate decision is ever listed. */
  predicate Gateless(a: Position) {
    a.replans == 0 ==> ExecutionDecision !in a.todo && a.gateRetries == 0
  }

  lemma GatelessStays(cfg: Config, v: View, a: Position, b: Position)
    requires !v.fullProfile && Moves(cfg, v, a, b) && Gateless(a)
    ensures Gateless(b)
  {
    if b.replans == 0 && a.todo != [] {
      assert forall p :: p in a.todo[1..] ==> p in a.todo;
    }
  }

  /** Nothing that decides, checks or generates is listed, and nothing was spent. */
  predicate Idle(a: Position) {
    && a.gateRetries == 0 && a.correctionRetries == 0 && a.generations == 0
    && forall p :: p in a.todo ==> p != ExecutionDecision && !IsCheck(p) && p != AnswerGeneration
  }

  lemma IdleStays(cfg: Config, v: View, a: Position, b: Position)
    requires Moves(cfg, v, a, b) && Idle(a)
    ensures Idle(b)
  {
    assert a.todo != [] ==> a.todo[0] in a.todo;
    assert a.todo != [] ==> forall p :: p in a.todo[1..] ==> p in a.todo;
  }

  /** No generation is listed behind a check. */
  predicate NoneBehindChecks(todo: seq<Phase>) {
    forall i, j :: 0 <= i < j < |todo| && IsCheck(todo[i]) ==> todo[j] != AnswerGeneration
  }

  /** Generations done and listed stay within `limit`, and none is listed behind a check. */
  function Frugal(limit: int): Position -> bool {
    (a: Position) => a.generations + Generations(a.todo) <= limit && NoneBehindChecks(a.todo)
  }

  /** Only REGENERATE can bring a generation. */
  predicate OnlyRegenerates(cfg: Config, v: View) {
    (v.fullProfile && v.toolTask) || (cfg.budget.maxRetrievalRetries == 0 && cfg.budget.maxReplans == 0)
  }

  lemma FrugalStays(cfg: Config, v: View, a: Position, b: Position)
    requires OnlyRegenerates(cfg, v) && Moves(cfg, v, a, b) && Frugal(cfg.budget.maxGenerations)(a)
    ensures Frugal(cfg.budget.maxGenerations)(b)
  {
    hide Corrects, Generations, NoneBehindChecks;
    if a.todo != [] {
      var head, rest := a.todo[0], a.todo[1..];
      DropHead(a.todo);
      SpliceHasNoneBehind(GATE_RETRY_ROUTE, rest);
      if IsCheck(head) {
        if action, stages :| Corrects(cfg, v, a, b, action, stages) {
          CorrectStaysFrugal(cfg, v, a, b, action, stages);
        }
      }
    }
  }

  lemma DropHead(todo: seq<Phase>)
    requires todo != [] && NoneBehindChecks(todo)
    ensures NoneBehindChecks(todo[1..])
    ensures Generations(todo) == Generations(todo[1..]) + if todo[0] == AnswerGeneration then 1 else 0
  {
  }

  lemma CorrectStaysFrugal(cfg: Config, v: View, a: Position, b: Position, action: Correction, stages: seq<Phase>)
    requires OnlyRegenerates(cfg, v) && Frugal(cfg.budget.maxGenerations)(a)
    requires a.todo != [] && IsCheck(a.todo[0]) && Corrects(cfg, v, a, b, action, stages)
    ensures Frugal(cfg.budget.maxGenerations)(b)
  {
    var rest := a.todo[1..];
    CheckedRest(a.todo);
    GenerationsConcat(stages, rest);
    if action == Regenerate {
      RegenerationGenerates();
    } else {
      NoGenerations(stages);
    }
    hide Generations;
    assert b.todo == stages + rest;
  }

  lemma RegenerationGenerates()
    ensures Generations([AnswerGeneration, OutputValidation]) == 1
  {
    assert [AnswerGeneration, OutputValidation][1..] == [OutputValidation];
    NoGenerations([OutputValidation]);
  }

  /** Behind a check at the head there is no generation at all. */
  lemma CheckedRest(todo: seq<Phase>)
    requires todo != [] && IsCheck(todo[0]) && NoneBehindChecks(todo)
    ensures AnswerGeneration !in todo[1..] && Generations(todo[1..]) == 0
  {
    NoGenerations(todo[1..]);
  }

  lemma SpliceHasNoneBehind(stages: seq<Phase>, rest: seq<Phase>)
    requires NoneBehindChecks(rest) && forall p :: p in stages ==> !IsCheck(p) && p != AnswerGeneration
    ensures NoneBehindChecks(stages + rest) && Generations(stages + rest) == Generations(rest)
  {
    NoGenerations(stages);
    GenerationsConcat(stages, rest);
    var todo := stages + rest;
    assert forall k :: 0 <= k < |stages| ==> !IsCheck(stages[k]);
    forall i, j | 0 <= i < j < |todo| && IsCheck(todo[i])
      ensures todo[j] != AnswerGeneration
    {
      assert todo[i] == rest[i - |stages|] && todo[j] == rest[j - |stages|];
    }
  }

  // ---- routes by shape ---------------------------------------------------------------------

  const GATED_LEAD := [StateLoad, Affect, EvidenceAcquisition, Planning, WorldSimulation, UncertaintyEstimation, ExecutionDecision]

  function AnsweringLead(profile: Profile): seq<Phase> {
    if profile == SimpleRag then [StateLoad, EvidenceAcquisition, AnswerGeneration] else [StateLoad, AnswerGeneration]
  }

  function Delivery(task: TaskKind): seq<Phase> {
    if task == FactualQa then DELIVER_FACT else DELIVER_ALL
  }

  lemma GatedRoute(task: TaskKind, profile: Profile)
    requires SelectRoute(task, profile).Some? && ShapeOf(task, profile) == Gated
    ensures var rest := (if task == ToolRequest then [Action, OutputValidation] else [Action, AnswerGeneration, OutputValidation])
                        + Delivery(task);
            && SelectRoute(task, profile).value == GATED_LEAD + ([Reflection] + rest)
            && profile == PrimaFull
  {
  }

  lemma AnsweringRoute(task: TaskKind, profile: Profile)
    requires SelectRoute(task, profile).Some? && ShapeOf(task, profile) == Answering
    ensures SelectRoute(task, profile).value == AnsweringLead(profile) + ([OutputValidation] + Delivery(task))
    ensures profile != PrimaFull && task != ToolRequest
  {
  }

  lemma PlainRoute(task: TaskKind, profile: Profile)
    requires SelectRoute(task, profile).Some? && ShapeOf(task, profile) == Plain
    ensures Idle(Position(SelectRoute(task, profile).value, 0, 0, 0, 0, {}, 0, 0))
  {
  }

  lemma RouteGenerations(task: TaskKind, profile: Profile)
    requires SelectRoute(task, profile).Some?
    ensures var route := SelectRoute(task, profile).value;
            && Generations(route) <= 1
            && (task == ToolRequest ==> AnswerGeneration !in route && Generations(route) == 0)
            && (ShapeOf(task, profile) == Answering ==> NoneBehindChecks(route) && ExecutionDecision !in route)
  {
    hide SelectRoute, Generations, NoneBehindChecks;
    var route := SelectRoute(task, profile).value;
    match ShapeOf(task, profile)
    case Plain =>
      PlainRoute(task, profile);
      NoGenerations(route);
      assert task != ToolRequest || AnswerGeneration !in route;
    case Gated =>
      GatedRoute(task, profile);
      GatedGenerations(task);
    case Answering =>
      AnsweringRoute(task, profile);
      AnsweringGenerations(task, profile);
  }

  lemma GatedGenerations(task: TaskKind)
    ensures var rest := (if task == ToolRequest then [Action, OutputValidation] else [Action, AnswerGeneration, OutputValidation])
                        + Delivery(task);
            var route := GATED_LEAD + ([Reflection] + rest);
            && Generations(route) <= 1
            && (task == ToolRequest ==> AnswerGeneration !in route && Generations(route) == 0)
  {
    hide Delivery, Generations;
    var tail := [OutputValidation] + Delivery(task);
    var front, middle := GATED_LEAD + [Reflection, Action], if task == ToolRequest then [] else [AnswerGeneration];
    DeliveryIsIdle(task);
    NoGenerations(tail);
    GatedFront();
    GenerationsConcat(front, middle + tail);
    GenerationsConcat(middle, tail);
    AtMostOne(middle);
    GatedParts(task, front, middle, tail);
  }

  lemma GatedFront()
    ensures AnswerGeneration !in GATED_LEAD + [Reflection, Action] && Generations(GATED_LEAD + [Reflection, Action]) == 0
  {
    hide Generations;
    NoGenerations(GATED_LEAD + [Reflection, Action]);
  }

  lemma AtMostOne(middle: seq<Phase>)
    requires middle == [] || middle == [AnswerGeneration]
    ensures Generations(middle) == |middle|
  {
  }

  lemma GatedParts(task: TaskKind, front: seq<Phase>, middle: seq<Phase>, tail: seq<Phase>)
    requires front == GATED_LEAD + [Reflection, Action] && tail == [OutputValidation] + Delivery(task)
    requires middle == if task == ToolRequest then [] else [AnswerGeneration]
    ensures GATED_LEAD + ([Reflection] + ((if task == ToolRequest then [Action, OutputValidation]
                                           else [Action, AnswerGeneration, OutputValidation]) + Delivery(task)))
         == front + (middle + tail)
  {
    hide Delivery;
    var rest := (if task == ToolRequest then [Action, OutputValidation] else [Action, AnswerGeneration, OutputValidation])
                + Delivery(task);
    assert rest == [Action] + (middle + tail);
  }

  lemma DeliveryIsIdle(task: TaskKind)
    ensures forall p :: p in Delivery(task) ==> p != ExecutionDecision && !IsCheck(p) && p != AnswerGeneration
  {
  }

  lemma AnsweringGenerations(task: TaskKind, profile: Profile)
    ensures var route := AnsweringLead(profile) + ([OutputValidation] + Delivery(task));
            Generations(route) == 1 && NoneBehindChecks(route) && ExecutionDecision !in route
  {
    hide Delivery;
    var lead, tail := AnsweringLead(profile), [OutputValidation] + Delivery(task);
    DeliveryIsIdle(task);
    NoGenerations(tail);
    LeadGenerates(profile);
    GenerationsConcat(lead, tail);
    hide Generations, NoneBehindChecks;
    ChecksLast(lead, tail);
  }

  lemma ChecksLast(lead: seq<Phase>, tail: seq<Phase>)
    requires (forall p :: p in lead ==> !IsCheck(p)) && AnswerGeneration !in tail
    ensures NoneBehindChecks(lead + tail)
  {
    var route := lead + tail;
    assert forall k :: 0 <= k < |lead| ==> !IsCheck(lead[k]);
    forall i, j | 0 <= i < j < |route| && IsCheck(route[i])
      ensures route[j] != AnswerGeneration
    {
      assert route[j] == tail[j - |lead|];
    }
  }

  lemma LeadGenerates(profile: Profile)
    ensures Generations(AnsweringLead(profile)) == 1
  {
    var head := if profile == SimpleRag then [StateLoad, EvidenceAcquisition] else [StateLoad];
    assert AnsweringLead(profile) == head + [AnswerGeneration];
    NoGenerations(head);
    GenerationsConcat(head, [AnswerGeneration]);
    assert Generations([AnswerGeneration]) == 1;
  }

  // ---- budgets that are kept -------------------------------------------------------------------

  /** Corrections that retrieve and corrections that replan are different interventions. */
  lemma {:induction false} RetrievalsAndReplans(g: seq<GrantKey>)
    ensures |Filter(g, IsRetrievalGrant)| + |Filter(g, IsReplanGrant)| <= |g|
  {
    if g != [] {
      RetrievalsAndReplans(g[1..]);
    }
  }

  lemma SpentWithinBudget(cfg: Config, task: TaskKind, profile: Profile, script: nat -> Reply, v: View)
    requires cfg.budget.Valid() && SelectRoute(task, profile).Some?
    ensures var l := Spent(cfg, task, profile, script, v);
            && l.correctionRetries + l.replans <= l.interventions <= cfg.budget.maxInterventions
            && l.correctionRetries <= cfg.budget.maxRetrievalRetries && l.gateRetries <= cfg.budget.maxRetrievalRetries
            && l.replans <= cfg.budget.maxReplans
            && l.generations <= 1 + l.interventions
  {
    hide SelectRoute, Execute, Filter, Grants;
    RunLedgerIsAccounted(cfg, script, v, SelectRoute(task, profile).value);
    RetrievalsAndReplans(Grants(Spent(cfg, task, profile, script, v).attempts));
    RouteGenerations(task, profile);
  }

  /** Budgets under which the shared retrieval limit is kept. */
  predicate SharesRetrieval(b: Budget, shape: Shape) {
    || b.maxRetrievalRetries == 0
    || match shape
       case Gated => b.maxInterventions == 0
       case Answering => b.maxReplans == 0 || b.maxInterventions <= 1
       case Plain => true
  }

  lemma RetrievalKept(cfg: Config, task: TaskKind, profile: Profile, script: nat -> Reply, v: View)
    requires cfg.budget.Valid() && SelectRoute(task, profile).Some?
    requires SharesRetrieval(cfg.budget, ShapeOf(task, profile))
    requires ScriptServes(task, profile, script) && Serves(task, profile, v)
    ensures var l := Spent(cfg, task, profile, script, v);
            l.correctionRetries + l.gateRetries <= cfg.budget.maxRetrievalRetries
  {
    SpentWithinBudget(cfg, task, profile, script, v);
    if ShapeOf(task, profile) == Answering {
      RouteGenerations(task, profile);
      AnsweringRoute(task, profile);
      forall v, a, b | Serves(task, profile, v) && Moves(cfg, v, a, b) && Gateless(a) ensures Gateless(b) {
        GatelessStays(cfg, v, a, b);
      }
      hide Spent, SelectRoute, Moves, ScriptServes, Serves;
      RunKeepsPosition(cfg, task, profile, script, v, Gateless);
    } else if ShapeOf(task, profile) == Plain {
      PlainKept(cfg, task, profile, script, v);
    }
  }

  lemma PlainKept(cfg: Config, task: TaskKind, profile: Profile, script: nat -> Reply, v: View)
    requires SelectRoute(task, profile).Some? && ShapeOf(task, profile) == Plain
    requires ScriptServes(task, profile, script) && Serves(task, profile, v)
    ensures var l := Spent(cfg, task, profile, script, v);
            l.correctionRetries == l.gateRetries == l.generations == 0
  {
    PlainRoute(task, profile);
    forall v, a, b | Serves(task, profile, v) && Moves(cfg, v, a, b) && Idle(a) ensures Idle(b) {
      IdleStays(cfg, v, a, b);
    }
    hide Spent, SelectRoute, Moves, ScriptServes, Serves;
    RunKeepsPosition(cfg, task, profile, script, v, Idle);
  }

  /** Budgets under which the generation limit is kept. */
  predicate KeepsGenerations(b: Budget, task: TaskKind, shape: Shape) {
    || b.maxInterventions < b.maxGenerations
    || match shape
       case Gated => task == ToolRequest
       case Answering => b.maxRetrievalRetries == 0 && b.maxReplans == 0
       case Plain => true
  }

  lemma GenerationsKept(cfg: Config, task: TaskKind, profile: Profile, script: nat -> Reply, v: View)
    requires cfg.budget.Valid() && SelectRoute(task, profile).Some?
    requires KeepsGenerations(cfg.budget, task, ShapeOf(task, profile))
    requires ScriptServes(task, profile, script) && Serves(task, profile, v)
    ensures Spent(cfg, task, profile, script, v).generations <= cfg.budget.maxGenerations
  {
    SpentWithinBudget(cfg, task, profile, script, v);
    if cfg.budget.maxInterventions >= cfg.budget.maxGenerations {
      if ShapeOf(task, profile) == Plain {
        PlainKept(cfg, task, profile, script, v);
      } else {
        FrugalKept(cfg, task, profile, script, v);
      }
    }
  }

  lemma FrugalKept(cfg: Config, task: TaskKind, profile: Profile, script: nat -> Reply, v: View)
    requires cfg.budget.Valid() && SelectRoute(task, profile).Some?
    requires if ShapeOf(task, profile) == Gated then task == ToolRequest
             else ShapeOf(task, profile) == Answering && cfg.budget.maxRetrievalRetries == 0 && cfg.budget.maxReplans == 0
    requires ScriptServes(task, profile, script) && Serves(task, profile, v)
    ensures Spent(cfg, task, profile, script, v).generations <= cfg.budget.maxGenerations
  {
    RouteGenerations(task, profile);
    forall v, a, b |
      Serves(task, profile, v) && Moves(cfg, v, a, b) && Frugal(cfg.budget.maxGenerations)(a)
      ensures Frugal(cfg.budget.maxGenerations)(b)
    {
      FrugalStays(cfg, v, a, b);
    }
    hide Spent, SelectRoute, Moves, ScriptServes, Serves, Generations;
    RunKeepsPosition(cfg, task, profile, script, v, Frugal(cfg.budget.maxGenerations));
  }

  // ---- commitments ---------------------------------------------------------------------------------

  /** Generations done and generations listed. */
  function Committed(m: Machine): nat
    requires m.InRange()
  {
    m.ledger.generations + Generations(m.Todo())
  }

  lemma SettlingCommits(cfg: Config, m: Machine, p: Phase)
    requires m.InRange()
    ensures var n := AfterPhase(cfg, m, p);
            && n.InRange() && n.ledger.interventions >= m.ledger.interventions
            && Committed(n) - n.ledger.interventions
               <= Committed(m) - m.ledger.interventions + if p == AnswerGeneration then 1 else 0
  {
    hide AfterPhase, Generations, Tracker.MarkPhaseComplete;
    var stages := AfterPhaseShape(cfg, m, p);
    assert AfterPhase(cfg, m, p).Todo() == stages + m.Todo();
    GenerationsConcat(stages, m.Todo());
  }

  /** A step commits to no more generations than it makes interventions. */
  lemma StepCommits(cfg: Config, script: nat -> Reply, m: Machine)
    requires m.InRange() && m.IsRunning()
    ensures var n := Step(cfg, script, m);
            && n.InRange() && n.ledger.interventions >= m.ledger.interventions
            && Committed(n) - n.ledger.interventions <= Committed(m) - m.ledger.interventions
  {
    hide AfterPhase, RunPhase, Skips;
    if m.index < |m.phases| {
      var p := m.phases[m.index];
      assert m.Todo() == [p] + m.phases[m.index + 1..];
      GenerationsConcat([p], m.phases[m.index + 1..]);
      if !Skips(m.view, p) && !m.view.cancelRequested {
        var n := BeginPhase(m);
        var r := RunPhase(cfg, script, p, n.tracker, n.events, n.calls, 0);
        SettlingCommits(cfg, n.(view := r.view, tracker := r.tracker, events := r.events, calls := r.calls), p);
      }
    }
  }

  /** From any point of a run on, at most the committed generations and one per further intervention are made. */
  lemma {:induction false} CommitmentBoundsRun(cfg: Config, script: nat -> Reply, m: Machine)
    requires m.InRange()
    ensures var n := Loop(cfg, script, m);
            && n.InRange() && n.ledger.interventions >= m.ledger.interventions
            && n.ledger.generations <= Committed(m) + (n.ledger.interventions - m.ledger.interventions)
            && Committed(n) - n.ledger.interventions <= Committed(m) - m.ledger.interventions
    decreases Quota(cfg, m) - m.index, if m.IsRunning() then 1 else 0
  {
    if m.IsRunning() {
      StepQuota(cfg, script, m);
      StepCommits(cfg, script, m);
      hide Step, Quota, Committed;
      CommitmentBoundsRun(cfg, script, Step(cfg, script, m));
    }
  }

  /**
   * What an accepted correction must leave room for is not only the
   * generations done, which is all REGENERATE is tested against, but also
   * those still listed: it keeps the commitment within the limit exactly when
   * it brings no generation or the commitment was below the limit.
   */
  lemma GrantKeepsGenerationBudget(cfg: Config, m: Machine, p: Phase)
    requires m.InRange() && PhaseAdvice(m.view, p).Some? && Committed(m) <= cfg.budget.maxGenerations
    requires Review(cfg, m.view, m.ledger, PhaseAdvice(m.view, p).value, StageOf(p)).1.IsAccepted()
    ensures var attempt := Review(cfg, m.view, m.ledger, PhaseAdvice(m.view, p).value, StageOf(p)).1;
            var needs := Generations(Grant(m.view, attempt).1);
            var n := Correct(cfg, m, p);
            && n.InRange() && needs <= 1
            && Committed(n) == Committed(m) + needs
            && (Committed(n) <= cfg.budget.maxGenerations <==> needs == 0 || Committed(m) < cfg.budget.maxGenerations)
  {
    hide Generations, Grant, IsSplice;
    var advice := PhaseAdvice(m.view, p).value;
    ReviewCorrects(cfg, m, advice, StageOf(p));
    var (l, attempt) := Review(cfg, m.view, m.ledger, advice, StageOf(p));
    hide Review;
    var (v, stages) := Grant(m.view, attempt);
    GrantNeeds(m.view, attempt);
    assert Correct(cfg, m, p).Todo() == stages + m.Todo();
    GenerationsConcat(stages, m.Todo());
  }

  lemma GrantNeeds(v: View, attempt: Attempt)
    ensures Generations(Grant(v, attempt).1) <= 1
  {
    GrantIsSplice(v, attempt);
    hide Generations, Grant;
  }
}
