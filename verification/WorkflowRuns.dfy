/** The main results about whole runs of the control bus. */
module WorkflowRuns {
  import opened Options
  import opened Sequences
  import opened Text
  import opened WorkflowModel
  import opened WorkflowTheorems
  import opened WorkflowLedger

  // ---- the route matrix --------------------------------------------------

  datatype TaskKind =
    Conversation | HistoricalReplay | FactualQa | DocumentIngestionTask | EmotionClassification | ToolRequest

  datatype Profile = ModelOnly | SimpleRag | PrimaFull | AffectOnly | IngestionOnly

  const PRIMA_HEAD := [StateLoad, Affect, EvidenceAcquisition, Planning, WorldSimulation,
                       UncertaintyEstimation, ExecutionDecision, Reflection, Action]
  const RAG_HEAD := [StateLoad, EvidenceAcquisition, AnswerGeneration, OutputValidation]
  const MODEL_HEAD := [StateLoad, AnswerGeneration, OutputValidation]
  const DELIVER_STATE := [Output, StateCommit]
  const DELIVER_FACT := [Output, StateCommit, MaintenanceEnqueue]
  const DELIVER_ALL := [Output, StateCommit, MemoryCommit, MaintenanceEnqueue]

  /** `_ROUTES`: the phases of every valid task and profile pair, work first, delivery last. */
  function RouteParts(task: TaskKind, profile: Profile): Option<(seq<Phase>, seq<Phase>)> {
    match (task, profile)
    case (Conversation, ModelOnly) => Some((MODEL_HEAD, DELIVER_ALL))
    case (Conversation, SimpleRag) => Some((RAG_HEAD, DELIVER_ALL))
    case (Conversation, PrimaFull) => Some((PRIMA_HEAD + [AnswerGeneration, OutputValidation], DELIVER_ALL))
    case (HistoricalReplay, PrimaFull) => Some(([StateLoad, Affect], DELIVER_ALL))
    case (FactualQa, ModelOnly) => Some((MODEL_HEAD, DELIVER_FACT))
    case (FactualQa, SimpleRag) => Some((RAG_HEAD, DELIVER_FACT))
    case (FactualQa, PrimaFull) => Some((PRIMA_HEAD + [AnswerGeneration, OutputValidation], DELIVER_FACT))
    case (DocumentIngestionTask, IngestionOnly) => Some(([StateLoad, DocumentIngestion], DELIVER_FACT))
    case (EmotionClassification, AffectOnly) => Some(([StateLoad, Affect], DELIVER_STATE))
    case (ToolRequest, PrimaFull) => Some((PRIMA_HEAD + [OutputValidation], DELIVER_ALL))
    case _ => None
  }

  /** `select_route`; `None` is its `InvalidRouteError`. */
  function SelectRoute(task: TaskKind, profile: Profile): Option<seq<Phase>> {
    match RouteParts(task, profile)
    case Some((head, tail)) => Some(head + tail)
    case None => None
  }

  /** Where a phase stands among the phases of a route. */
  function Rank(p: Phase): nat {
    match p
    case StateLoad => 0
    case DocumentIngestion => 1
    case Affect => 2
    case EvidenceAcquisition => 3
    case Planning => 4
    case WorldSimulation => 5
    case UncertaintyEstimation => 6
    case ExecutionDecision => 7
    case Reflection => 8
    case Action => 9
    case AnswerGeneration => 10
    case OutputValidation => 11
    case Output => 12
    case StateCommit => 13
    case MemoryCommit => 14
    case MaintenanceEnqueue => 15
    case Input | MemoryRetrieval => 16
  }

  /** The phases a task needs under a profile. */
  predicate Needs(task: TaskKind, profile: Profile, p: Phase) {
    match p
    case StateLoad | Output | StateCommit => true
    case Affect => profile == PrimaFull || profile == AffectOnly
    case EvidenceAcquisition => profile == SimpleRag || (profile == PrimaFull && task != HistoricalReplay)
    case Planning | WorldSimulation | UncertaintyEstimation | ExecutionDecision | Reflection | Action =>
      profile == PrimaFull && task != HistoricalReplay
    case AnswerGeneration => task == Conversation || task == FactualQa
    case OutputValidation => task == Conversation || task == FactualQa || task == ToolRequest
    case DocumentIngestion => task == DocumentIngestionTask
    case MemoryCommit => task == Conversation || task == HistoricalReplay || task == ToolRequest
    case MaintenanceEnqueue => task != EmotionClassification
    case Input | MemoryRetrieval => false
  }

  predicate Supports(profile: Profile, task: TaskKind) {
    match task
    case Conversation | FactualQa => profile == ModelOnly || profile == SimpleRag || profile == PrimaFull
    case HistoricalReplay | ToolRequest => profile == PrimaFull
    case DocumentIngestionTask => profile == IngestionOnly
    case EmotionClassification => profile == AffectOnly
  }

  predicate Ordered(s: seq<Phase>) {
    forall i, j :: 0 <= i < j < |s| ==> Rank(s[i]) < Rank(s[j])
  }

  lemma OrderedJoin(a: seq<Phase>, b: seq<Phase>, k: nat)
    requires Ordered(a) && Ordered(b)
    requires (forall p :: p in a ==> Rank(p) < k) && (forall p :: p in b ==> Rank(p) >= k)
    ensures Ordered(a + b)
  {
    hide Rank;
  }

  lemma PrimaHeadIsOrdered()
    ensures Ordered(PRIMA_HEAD) && forall p :: p in PRIMA_HEAD ==> Rank(p) < 10
  {
    assert forall i :: 0 <= i < 9 ==> Rank(PRIMA_HEAD[i]) == if i == 0 then 0 else i + 1;
  }

  lemma LongHeadsAreOrdered()
    ensures var long := PRIMA_HEAD + [AnswerGeneration, OutputValidation];
            Ordered(long) && forall p :: p in long ==> Rank(p) < 12
    ensures var long := PRIMA_HEAD + [OutputValidation];
            Ordered(long) && forall p :: p in long ==> Rank(p) < 12
  {
    PrimaHeadIsOrdered();
    OrderedJoin(PRIMA_HEAD, [AnswerGeneration, OutputValidation], 10);
    OrderedJoin(PRIMA_HEAD, [OutputValidation], 10);
  }

  lemma HeadIsOrdered(head: seq<Phase>)
    requires head in [MODEL_HEAD, RAG_HEAD, [StateLoad, Affect], [StateLoad, DocumentIngestion]]
    ensures Ordered(head) && forall p :: p in head ==> Rank(p) < 12
  {
  }

  lemma TailIsOrdered(tail: seq<Phase>)
    requires tail == DELIVER_STATE || tail == DELIVER_FACT || tail == DELIVER_ALL
    ensures Ordered(tail) && forall p :: p in tail ==> Rank(p) >= 12
  {
  }

  lemma HeadHoldsNeeds(task: TaskKind, profile: Profile, p: Phase)
    requires RouteParts(task, profile).Some?
    ensures p in RouteParts(task, profile).value.0 <==> Needs(task, profile, p) && !Delivers(p)
  {
  }

  lemma TailHoldsNeeds(task: TaskKind, profile: Profile, p: Phase)
    requires RouteParts(task, profile).Some?
    ensures p in RouteParts(task, profile).value.1 <==> Needs(task, profile, p) && Delivers(p)
  {
  }

  /** Every served task is routed through exactly the phases it needs, in one and the same order, each once. */
  lemma RouteIsPipeline(task: TaskKind, profile: Profile)
    ensures SelectRoute(task, profile).Some? <==> Supports(profile, task)
    ensures Supports(profile, task) ==>
              var route := SelectRoute(task, profile).value;
              && (forall p :: p in route <==> Needs(task, profile, p))
              && Ordered(route)
  {
    assert RouteParts(task, profile).Some? <==> Supports(profile, task);
    assert Supports(profile, task) ==>
        var head := RouteParts(task, profile).value.0;
        || head in [MODEL_HEAD, RAG_HEAD, [StateLoad, Affect], [StateLoad, DocumentIngestion]]
        || head == PRIMA_HEAD + [AnswerGeneration, OutputValidation]
        || head == PRIMA_HEAD + [OutputValidation];
    hide RouteParts, Supports, Needs, Rank, Ordered;
    if Supports(profile, task) {
      var (head, tail) := RouteParts(task, profile).value;
      PartsWorkFirst(task, profile);
      LongHeadsAreOrdered();
      if head in [MODEL_HEAD, RAG_HEAD, [StateLoad, Affect], [StateLoad, DocumentIngestion]] {
        HeadIsOrdered(head);
      }
      TailIsOrdered(tail);
      OrderedJoin(head, tail, 12);
      forall p ensures p in head + tail <==> Needs(task, profile, p) {
        HeadHoldsNeeds(task, profile, p);
        TailHoldsNeeds(task, profile, p);
      }
    }
  }

  lemma PartsDeliver(head: seq<Phase>, tail: seq<Phase>)
    requires forall p :: p in head ==> !Delivers(p)
    requires tail == DELIVER_STATE || tail == DELIVER_FACT || tail == DELIVER_ALL
    ensures var r := head + tail;
            && r != [] && DeliversLast(r)
            && multiset(r)[Output] == 1 && multiset(r)[StateCommit] == 1
            && multiset(r)[MemoryCommit] <= 1 && multiset(r)[MaintenanceEnqueue] <= 1
  {
    assert multiset(head + tail) == multiset(head) + multiset(tail);
    assert forall p :: Delivers(p) ==> p !in multiset(head);
    assert forall p :: p in tail ==> Delivers(p);
    var r := head + tail;
    assert forall j :: |head| <= j < |r| ==> r[j] in tail;
    assert forall i :: 0 <= i < |head| ==> r[i] in head;
  }

  /** Every route delivers last, and delivers each kind of result at most once, output and state always. */
  lemma RoutesDeliver(task: TaskKind, profile: Profile)
    requires SelectRoute(task, profile).Some?
    ensures var r := SelectRoute(task, profile).value;
            && r != [] && DeliversLast(r)
            && multiset(r)[Output] == 1 && multiset(r)[StateCommit] == 1
            && multiset(r)[MemoryCommit] <= 1 && multiset(r)[MaintenanceEnqueue] <= 1
  {
    PartsWorkFirst(task, profile);
    hide RouteParts, DeliversLast;
    PartsDeliver(RouteParts(task, profile).value.0, RouteParts(task, profile).value.1);
  }

  lemma PartsWorkFirst(task: TaskKind, profile: Profile)
    requires RouteParts(task, profile).Some?
    ensures var (head, tail) := RouteParts(task, profile).value;
            && (forall p :: p in head ==> !Delivers(p))
            && (tail == DELIVER_STATE || tail == DELIVER_FACT || tail == DELIVER_ALL)
  {
  }

  // ---- induction over the loop ---------------------------------------------

  ghost predicate RunInvariant(cfg: Config, route: seq<Phase>, m: Machine) {
    && RouteKept(route, m)
    && Logged(cfg, m)
    && CallsBounded(cfg, m)
  }

  ghost predicate CallsBounded(cfg: Config, m: Machine) {
    m.calls <= m.index * Turns(cfg)
  }

  lemma OneMoreTurn(index: nat, calls: nat, more: nat, c: nat)
    requires calls <= index * c && more <= calls + c
    ensures more <= (index + 1) * c
  {
    assert (index + 1) * c == index * c + c;
  }

  lemma StepKeepsCalls(cfg: Config, script: nat -> Reply, m: Machine)
    requires m.InRange() && m.IsRunning() && Logged(cfg, m) && CallsBounded(cfg, m)
    ensures CallsBounded(cfg, Step(cfg, script, m))
  {
    hide Step, Logged, Room, Quota, Turns;
    StepQuota(cfg, script, m);
    StepKeepsLog(cfg, script, m);
    if m.index < |m.phases| {
      OneMoreTurn(m.index, m.calls, Step(cfg, script, m).calls, Turns(cfg));
    }
  }

  lemma StepKeepsRun(cfg: Config, script: nat -> Reply, route: seq<Phase>, m: Machine)
    requires m.IsRunning() && m.InRange() && RunInvariant(cfg, route, m)
    ensures RunInvariant(cfg, route, Step(cfg, script, m))
  {
    hide Step, RouteKept, Logged, CallsBounded;
    StepKeepsRoute(cfg, script, route, m);
    StepKeepsLog(cfg, script, m);
    StepKeepsCalls(cfg, script, m);
  }

  lemma {:induction false} LoopKeeps(cfg: Config, script: nat -> Reply, route: seq<Phase>, m: Machine)
    requires m.InRange() && RunInvariant(cfg, route, m)
    ensures var r := Loop(cfg, script, m);
            && r.InRange()
            && RunInvariant(cfg, route, r)
            && !r.IsRunning()
            && Quota(cfg, r) <= Quota(cfg, m)
            && (r.tracker.status == Completed && m.IsRunning() ==> r.index == |r.phases|)
    decreases Quota(cfg, m) - m.index, if m.IsRunning() then 1 else 0
  {
    hide RunInvariant;
    if m.IsRunning() {
      StepQuota(cfg, script, m);
      StepKeepsRun(cfg, script, route, m);
      hide Step, Quota;
      LoopKeeps(cfg, script, route, Step(cfg, script, m));
    }
  }

  lemma {:induction false} LoopKeepsLedger(cfg: Config, script: nat -> Reply, route: seq<Phase>, m: Machine)
    requires m.InRange() && LedgerKept(cfg, route, m)
    ensures LedgerKept(cfg, route, Loop(cfg, script, m))
    decreases Quota(cfg, m) - m.index, if m.IsRunning() then 1 else 0
  {
    if m.IsRunning() {
      StepQuota(cfg, script, m);
      StepKeepsLedger(cfg, script, route, m);
      hide Step, LedgerKept;
      LoopKeepsLedger(cfg, script, route, Step(cfg, script, m));
    }
  }

  lemma BeginKeeps(cfg: Config, v: View, l: Ledger, route: seq<Phase>)
    ensures RunInvariant(cfg, route, Begin(v, l, Input, route))
  {
    var m := Begin(v, l, Input, route);
    BeginIsLogged(cfg, m);
    SubseqReflexive(route);
    SubseqReflexive(Filter(route, Unskippable));
    hide Logged, Subseq, Filter;
    assert Timeline(m) == route by {
      assert m.events == [] + m.events;
      CompletedPhasesAppend([], Event(WorkflowStarted, None, Running));
    }
  }

  lemma BeginIsLogged(cfg: Config, m: Machine)
    requires m.events == [Event(WorkflowStarted, None, Running)]
    requires m.tracker == Tracker(Running, m.tracker.currentPhase, [], map[], [])
    ensures Logged(cfg, m)
  {
    var e := Event(WorkflowStarted, None, Running);
    assert m.events == [] + [e];
    ScanAppend(cfg.maxRetries, [], e);
    CompletedPhasesAppend([], e);
    hide CompletedPhases, Scan;
  }

  // ---- main results ----------------------------------------------------------

  /**
   * Every run ends. It takes at most |route| phases off the work list plus five
   * per unused gate retry and nine per unused intervention, and calls
   * controllers at most 1 + max_retries times for each.
   */
  lemma RunIsBounded(cfg: Config, script: nat -> Reply, v: View, l: Ledger, route: Option<seq<Phase>>)
    ensures var r := Execute(cfg, script, v, l, route);
            var bound := (if route.None? then 0 else |route.value|)
                         + 5 * Room(cfg.budget.maxRetrievalRetries, l.gateRetries)
                         + 9 * Room(cfg.budget.maxInterventions, l.interventions);
            && r.tracker.status in {Completed, Failed, Cancelled}
            && r.index <= |r.phases| <= bound
            && r.calls <= bound * Turns(cfg)
  {
    hide Loop, RouteKept, Logged, Scan;
    if route.Some? && route.value != [] {
      var m := Begin(v, l, Input, route.value);
      BeginKeeps(cfg, v, l, route.value);
      LoopKeeps(cfg, script, route.value, m);
      EndsTerminal(cfg, Loop(cfg, script, m));
      TimesMonotone(Loop(cfg, script, m).index, Quota(cfg, m), Turns(cfg));
    }
  }

  lemma TimesMonotone(a: nat, b: nat, c: nat)
    requires a <= b
    ensures a * c <= b * c
  {
  }

  lemma EndsTerminal(cfg: Config, m: Machine)
    requires Logged(cfg, m) && !m.IsRunning()
    ensures m.tracker.status in {Completed, Failed, Cancelled}
    ensures Scan(cfg.maxRetries, m.events) == Closed(m.tracker.status)
  {
    if m.events != [] {
      var last := m.events[|m.events| - 1];
      var q := Scan(cfg.maxRetries, m.events[..|m.events| - 1]);
      assert Advance(cfg.maxRetries, q, last).Closed?;
    }
  }

  /**
   * In a completed run the work list holds the route as a subsequence, every
   * unskippable routed phase completed in route order, the phases no splice adds
   * completed exactly as routed, and the delivering phases came last.
   */
  lemma CompletedRunFollowsRoute(cfg: Config, script: nat -> Reply, v: View, l: Ledger, route: seq<Phase>)
    requires route != []
    ensures var r := Execute(cfg, script, v, l, Some(route));
            && Subseq(route, r.phases)
            && (r.tracker.status == Completed ==>
                  var done := CompletedPhases(r.events);
                  && r.index == |r.phases|
                  && Filter(done, Fixed) == Filter(route, Fixed)
                  && Subseq(Filter(route, Unskippable), Filter(done, Unskippable))
                  && (DeliversLast(route) ==> DeliversLast(done)))
  {
    var m := Begin(v, l, Input, route);
    BeginKeeps(cfg, v, l, route);
    LoopKeeps(cfg, script, route, m);
    var r := Loop(cfg, script, m);
    hide Loop, Subseq;
    if r.tracker.status == Completed {
      assert Timeline(r) == CompletedPhases(r.events);
    }
  }

  lemma {:induction false} FixedCount(s: seq<Phase>, p: Phase)
    requires Fixed(p)
    ensures multiset(s)[p] == multiset(Filter(s, Fixed))[p]
  {
    if s != [] {
      FixedCount(s[1..], p);
      assert s == [s[0]] + s[1..];
      assert Filter(s, Fixed) == (if Fixed(s[0]) then [s[0]] else []) + Filter(s[1..], Fixed);
    }
  }

  /** OUTPUT and STATE_COMMIT once, the other commits as often as routed, all of them after the work. */
  ghost predicate DeliversAsRouted(route: seq<Phase>, done: seq<Phase>) {
    && multiset(done)[Output] == 1 && multiset(done)[StateCommit] == 1
    && multiset(done)[MemoryCommit] == multiset(route)[MemoryCommit]
    && multiset(done)[MaintenanceEnqueue] == multiset(route)[MaintenanceEnqueue]
    && forall i, j :: 0 <= i < |done| && 0 <= j < |done| ==>
         Delivers(done[i]) && done[j] in {AnswerGeneration, OutputValidation} ==> j < i
  }

  /**
   * For every valid task and profile, a completed run completes OUTPUT and
   * STATE_COMMIT exactly once, MEMORY_COMMIT and MAINTENANCE_ENQUEUE exactly as
   * often as routed, and does so after every generation and every validation.
   */
  lemma CompletedRunDeliversOnce(cfg: Config, script: nat -> Reply, v: View, l: Ledger, task: TaskKind, profile: Profile)
    requires SelectRoute(task, profile).Some?
    ensures var route := SelectRoute(task, profile).value;
            var r := Execute(cfg, script, v, l, Some(route));
            r.tracker.status == Completed ==> DeliversAsRouted(route, CompletedPhases(r.events))
  {
    hide Execute, SelectRoute, Subseq, Filter, CompletedPhases, DeliversLast, DeliversAsRouted;
    var route := SelectRoute(task, profile).value;
    RoutesDeliver(task, profile);
    CompletedRunFollowsRoute(cfg, script, v, l, route);
    var r := Execute(cfg, script, v, l, Some(route));
    if r.tracker.status == Completed {
      SameFixedDelivers(route, CompletedPhases(r.events));
    }
  }

  /** Completing exactly the routed fixed phases, delivery last, is delivering as routed. */
  lemma SameFixedDelivers(route: seq<Phase>, done: seq<Phase>)
    requires Filter(done, Fixed) == Filter(route, Fixed) && DeliversLast(done)
    requires multiset(route)[Output] == 1 && multiset(route)[StateCommit] == 1
    ensures DeliversAsRouted(route, done)
  {
    hide Filter;
    forall p | Delivers(p)
      ensures multiset(done)[p] == multiset(route)[p]
    {
      FixedCount(done, p);
      FixedCount(route, p);
    }
  }

  /**
   * Every event log is accepted by the automaton and closes with the run's
   * status; errors are exactly the retries plus one for a failure; completed
   * phases are listed once each, by first completion.
   */
  lemma RunLogIsWellFormed(cfg: Config, script: nat -> Reply, v: View, l: Ledger, route: Option<seq<Phase>>)
    ensures var r := Execute(cfg, script, v, l, route);
            && Scan(cfg.maxRetries, r.events) == Closed(r.tracker.status)
            && ErrorsMatch(r.tracker)
            && r.tracker.completed == Dedup(CompletedPhases(r.events))
  {
    if route.None? || route.value == [] {
      RejectedRouteLog(cfg, Begin(v, l, Input, []));
    } else {
      hide Loop, ErrorsMatch, Dedup, Scan, RouteKept, CallsBounded;
      var m := Begin(v, l, Input, route.value);
      BeginKeeps(cfg, v, l, route.value);
      LoopKeeps(cfg, script, route.value, m);
      EndsTerminal(cfg, Loop(cfg, script, m));
    }
  }

  lemma RejectedRouteLog(cfg: Config, m: Machine)
    requires m.events == [Event(WorkflowStarted, None, Running)]
    requires m.tracker == Tracker(Running, m.tracker.currentPhase, [], map[], [])
    ensures var n := Fail(m);
            && Scan(cfg.maxRetries, n.events) == Closed(Failed)
            && ErrorsMatch(n.tracker)
            && n.tracker.completed == Dedup(CompletedPhases(n.events))
  {
    BeginIsLogged(cfg, m);
    ScanAppend(cfg.maxRetries, [], Event(WorkflowStarted, None, Running));
    assert m.events == [] + m.events;
    FailErrors(m.tracker);
    hide ErrorsMatch, Dedup, CompletedPhases;
    FinishLog(cfg, m.(tracker := m.tracker.(errors := m.tracker.errors + [WorkflowError])), Failed, WorkflowFailed,
              Some(m.tracker.currentPhase));
  }

  /**
   * From fresh counters: every record is honest, the counters are the sums over
   * accepted attempts and within budget, accepted signatures and queries do not
   * repeat, and generations never exceed the route's plus the interventions.
   */
  lemma RunLedgerIsAccounted(cfg: Config, script: nat -> Reply, v: View, route: seq<Phase>)
    requires cfg.budget.Valid()
    ensures var l := Execute(cfg, script, v, FRESH_LEDGER, Some(route)).ledger;
            && Accounted(cfg, l)
            && l.generations <= Generations(route) + l.interventions
            && l.correctionRetries + l.gateRetries <= 2 * cfg.budget.maxRetrievalRetries
  {
    if route != [] {
      var m := Begin(v, FRESH_LEDGER, Input, route);
      assert m.Todo() == route;
      LoopKeepsLedger(cfg, script, route, m);
      hide Loop;
    }
  }

  // ---- counters only grow ----------------------------------------------------------

  lemma StepCountersGrow(cfg: Config, script: nat -> Reply, m: Machine)
    requires m.InRange() && m.IsRunning()
    ensures var n := Step(cfg, script, m).ledger;
            && n.gateRetries >= m.ledger.gateRetries && n.correctionRetries >= m.ledger.correctionRetries
            && n.generations >= m.ledger.generations
  {
    hide RunPhase, Verdict, Grant, CompleteAll, Skips;
  }

  /** Retry and generation counters only grow along a run. */
  lemma {:induction false} LoopCountersGrow(cfg: Config, script: nat -> Reply, m: Machine)
    requires m.InRange()
    ensures var n := Loop(cfg, script, m).ledger;
            && n.gateRetries >= m.ledger.gateRetries && n.correctionRetries >= m.ledger.correctionRetries
            && n.generations >= m.ledger.generations
    decreases Quota(cfg, m) - m.index, if m.IsRunning() then 1 else 0
  {
    if m.IsRunning() {
      StepQuota(cfg, script, m);
      StepCountersGrow(cfg, script, m);
      hide Step, Quota;
      LoopCountersGrow(cfg, script, Step(cfg, script, m));
    }
  }
}
