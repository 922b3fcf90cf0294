/**
 * What holds of every run of the control bus, for every controller script,
 * gate decision, advice and cancellation.
 */
module WorkflowTheorems {
  import opened Options
  import opened Sequences
  import opened WorkflowModel

  // ---- vocabulary ------------------------------------------------------

  /** Phases a splice may add. */
  predicate Insertable(p: Phase) {
    p in {EvidenceAcquisition, Planning, WorldSimulation, UncertaintyEstimation, ExecutionDecision,
          Reflection, Action, AnswerGeneration, OutputValidation}
  }

  /** Phases no splice adds and no rule skips. */
  predicate Fixed(p: Phase) { !Insertable(p) }

  predicate Skippable(p: Phase) { p in {Reflection, Action, AnswerGeneration} }

  predicate Unskippable(p: Phase) { !Skippable(p) }

  /** The delivering phases: output and the commits. */
  predicate Delivers(p: Phase) { p in {Output, StateCommit, MemoryCommit, MaintenanceEnqueue} }

  /** Nothing but delivering phases follows a delivering phase. */
  ghost predicate DeliversLast(s: seq<Phase>) {
    forall i, j :: 0 <= i < j < |s| && Delivers(s[i]) ==> Delivers(s[j])
  }

  /** The phases whose completion was published, in order. */
  function CompletedPhases(es: seq<Event>): seq<Phase> {
    if es == [] then []
    else
      var last := es[|es| - 1];
      CompletedPhases(es[..|es| - 1])
      + if last.kind == PhaseCompleted && last.phase.Some? then [last.phase.value] else []
  }

  lemma CompletedPhasesAppend(es: seq<Event>, e: Event)
    ensures CompletedPhases(es + [e])
         == if e.kind == PhaseCompleted && e.phase.Some? then CompletedPhases(es) + [e.phase.value]
            else CompletedPhases(es)
  {
    assert (es + [e])[..|es|] == es;
  }

  /** Completed phases followed by the phases still to do. */
  function Timeline(m: Machine): seq<Phase>
    requires m.InRange()
  {
    CompletedPhases(m.events) + m.Todo()
  }

  // ---- weaving: the route inside the growing work list -------------------

  ghost predicate Woven(route: seq<Phase>, line: seq<Phase>) {
    && Filter(line, Fixed) == Filter(route, Fixed)
    && Subseq(Filter(route, Unskippable), Filter(line, Unskippable))
    && (DeliversLast(route) ==> DeliversLast(line))
  }

  lemma DeliversLastSplice(x: seq<Phase>, z: seq<Phase>, y: seq<Phase>)
    requires DeliversLast(x + y)
    requires x != [] && Insertable(x[|x| - 1])
    requires forall p :: p in z ==> Insertable(p)
    ensures DeliversLast(x + z + y)
  {
    var s, t := x + y, x + z + y;
    forall q | 0 <= q < |x| ensures !Delivers(x[q]) {
      assert s[q] == x[q] && s[|x| - 1] == x[|x| - 1];
    }
    assert forall q :: 0 <= q < |x| ==> t[q] == x[q];
    assert forall q :: |x| <= q < |x| + |z| ==> t[q] in z;
    forall i, j | 0 <= i < j < |t| && Delivers(t[i])
      ensures Delivers(t[j])
    {
      assert i >= |x| + |z|;
      assert t[i] == s[i - |z|] && t[j] == s[j - |z|];
    }
  }

  lemma DeliversLastSkip(x: seq<Phase>, p: Phase, y: seq<Phase>)
    requires DeliversLast(x + [p] + y)
    ensures DeliversLast(x + y)
  {
    var s, t := x + [p] + y, x + y;
    forall i, j | 0 <= i < j < |t| && Delivers(t[i])
      ensures Delivers(t[j])
    {
      var i', j' := if i < |x| then i else i + 1, if j < |x| then j else j + 1;
      assert s[i'] == t[i] && s[j'] == t[j];
    }
  }

  lemma FilterConcat3<T>(x: seq<T>, z: seq<T>, y: seq<T>, keep: T -> bool)
    ensures Filter(x + z + y, keep) == Filter(x, keep) + Filter(z, keep) + Filter(y, keep)
  {
    FilterConcat(x + z, y, keep);
    FilterConcat(x, z, keep);
  }

  lemma WovenSplice(route: seq<Phase>, x: seq<Phase>, z: seq<Phase>, y: seq<Phase>)
    requires Woven(route, x + y)
    requires x != [] && Insertable(x[|x| - 1])
    requires forall p :: p in z ==> Insertable(p)
    ensures Woven(route, x + z + y)
  {
    FilterConcat(x, y, Fixed);
    FilterConcat3(x, z, y, Fixed);
    FilterNone(z, Fixed);
    assert Filter(x, Fixed) + [] == Filter(x, Fixed);
    FilterConcat(x, y, Unskippable);
    FilterConcat3(x, z, y, Unskippable);
    SubseqSplice(Filter(route, Unskippable), Filter(x, Unskippable), Filter(z, Unskippable), Filter(y, Unskippable));
    if DeliversLast(route) {
      DeliversLastSplice(x, z, y);
    }
  }

  lemma WovenSkip(route: seq<Phase>, x: seq<Phase>, p: Phase, y: seq<Phase>)
    requires Woven(route, x + [p] + y)
    requires Skippable(p)
    ensures Woven(route, x + y)
  {
    FilterConcat(x, y, Fixed);
    FilterConcat3(x, [p], y, Fixed);
    FilterNone([p], Fixed);
    assert Filter(x, Fixed) + [] == Filter(x, Fixed);
    FilterConcat(x, y, Unskippable);
    FilterConcat3(x, [p], y, Unskippable);
    FilterNone([p], Unskippable);
    assert Filter(x, Unskippable) + [] == Filter(x, Unskippable);
    if DeliversLast(route) {
      DeliversLastSkip(x, p, y);
    }
  }

  /** A splice: insertable phases with at most one generation among them. */
  ghost predicate IsSplice(stages: seq<Phase>) {
    (forall p :: p in stages ==> Insertable(p)) && Generations(stages) <= 1
  }

  function Generations(s: seq<Phase>): nat {
    if s == [] then 0 else (if s[0] == AnswerGeneration then 1 else 0) + Generations(s[1..])
  }

  lemma {:induction false} GenerationsConcat(a: seq<Phase>, b: seq<Phase>)
    ensures Generations(a + b) == Generations(a) + Generations(b)
  {
    if a == [] {
      assert a + b == b;
    } else {
      assert (a + b)[1..] == a[1..] + b;
      GenerationsConcat(a[1..], b);
    }
  }

  lemma SpliceConcat(a: seq<Phase>, b: seq<Phase>)
    requires IsSplice(a) && IsSplice(b) && Generations(a) == 0
    ensures IsSplice(a + b)
  {
    GenerationsConcat(a, b);
  }

  lemma NoGenerations(s: seq<Phase>)
    requires AnswerGeneration !in s
    ensures Generations(s) == 0
  {
  }

  lemma RoutesAreSplices(v: View, stage: Stage)
    ensures IsSplice(ReplanRoute(v, stage)) && IsSplice(QueryRoute(v, stage))
  {
    var short := GATE_RETRY_ROUTE[1..] + [Reflection];
    assert short == [Planning, WorldSimulation, UncertaintyEstimation, ExecutionDecision, Reflection];
    assert GATE_RETRY_ROUTE + [Reflection] == [EvidenceAcquisition] + short;
    NoGenerations(short);
    NoGenerations([EvidenceAcquisition] + short);
    var tail := if stage == PostExecution then ExecutionTail(v) else [];
    assert IsSplice(tail) by {
      assert ExecutionTail(v) == [Action] + if v.toolTask then [OutputValidation] else [AnswerGeneration, OutputValidation];
      assert Generations([OutputValidation]) == 0;
    }
    SpliceConcat(short, tail);
    SpliceConcat([EvidenceAcquisition] + short, tail);
    assert QueryRoute(v, stage) == if v.fullProfile then [EvidenceAcquisition] + short + tail
                                   else [EvidenceAcquisition, AnswerGeneration, OutputValidation];
    assert Generations([AnswerGeneration, OutputValidation]) == 1;
  }

  lemma GrantIsSplice(v: View, a: Attempt)
    ensures IsSplice(Grant(v, a).1)
  {
    RoutesAreSplices(v, a.stage);
    hide QueryRoute, ReplanRoute;
    assert Generations([AnswerGeneration, OutputValidation]) == 1;
    assert Generations([Action, OutputValidation]) == 0;
  }

  /** `n` is `m` with `stages` put in front of the work still to do. */
  ghost predicate Grew(m: Machine, n: Machine, stages: seq<Phase>) {
    && m.InRange() && n.InRange()
    && n.index == m.index
    && n.phases == m.phases[..m.index] + stages + m.phases[m.index..]
    && n.events == m.events && n.tracker == m.tracker && n.calls == m.calls
  }

  lemma CorrectShape(cfg: Config, m: Machine, p: Phase) returns (stages: seq<Phase>)
    requires m.InRange()
    ensures Grew(m, Correct(cfg, m, p), stages) && IsSplice(stages)
    ensures stages != [] ==> p == Reflection || p == OutputValidation
    ensures var n := Correct(cfg, m, p);
            && n.ledger.generations == m.ledger.generations
            && n.ledger.interventions >= m.ledger.interventions + if stages != [] then 1 else 0
  {
    stages := [];
    assert m.phases == m.phases[..m.index] + stages + m.phases[m.index..];
    if PhaseAdvice(m.view, p).Some? {
      var stage := if p == OutputValidation then PostExecution else PreExecution;
      var (l, attempt) := Review(cfg, m.view, m.ledger, PhaseAdvice(m.view, p).value, stage);
      if attempt.IsAccepted() {
        stages := Grant(m.view, attempt).1;
        GrantIsSplice(m.view, attempt);
      }
    }
  }

  lemma GateRetryShape(cfg: Config, m: Machine, p: Phase) returns (stages: seq<Phase>)
    requires m.InRange()
    ensures Grew(m, GateRetry(cfg, m, p), stages) && IsSplice(stages) && Generations(stages) == 0
    ensures stages != [] ==> p == ExecutionDecision
    ensures var n := GateRetry(cfg, m, p);
            && n.ledger.generations == m.ledger.generations
            && n.ledger.interventions == m.ledger.interventions
  {
    stages := if p == ExecutionDecision && WantsGateRetry(cfg, m.view, m.ledger) then GATE_RETRY_ROUTE else [];
    NoGenerations(stages);
    if stages == [] {
      assert m.phases == m.phases[..m.index] + stages + m.phases[m.index..];
    }
  }

  /** The bookkeeping after `p` only splices insertable phases, and only after insertable phases. */
  lemma AfterPhaseShape(cfg: Config, m: Machine, p: Phase) returns (stages: seq<Phase>)
    requires m.InRange()
    ensures var n := AfterPhase(cfg, m, p);
            && Grew(m.(tracker := m.tracker.MarkPhaseComplete(p),
                       events := m.events + [Event(PhaseCompleted, Some(p), m.tracker.status)]), n, stages)
            && n.ledger.interventions >= m.ledger.interventions + Generations(stages)
            && n.ledger.generations == m.ledger.generations + if p == AnswerGeneration then 1 else 0
    ensures forall q :: q in stages ==> Insertable(q)
    ensures stages != [] ==> Insertable(p)
  {
    hide GateRetry, Correct, CompleteAll, Observe, IsSplice;
    var m1 := CountGeneration(m.(tracker := m.tracker.MarkPhaseComplete(p),
                                 events := m.events + [Event(PhaseCompleted, Some(p), m.tracker.status)]), p);
    var gate := GateRetryShape(cfg, m1, p);
    var m2 := GateRetry(cfg, m1, p);
    var fix := CorrectShape(cfg, m2, p);
    stages := if gate == [] then fix else gate;
    SpliceMeaning(stages);
    if gate == [] {
      assert m2.phases == m1.phases by { assert m1.phases == m1.phases[..m1.index] + gate + m1.phases[m1.index..]; }
    } else {
      assert fix == [];
      assert m2.phases == m2.phases[..m2.index] + fix + m2.phases[m2.index..];
    }
  }

  lemma SpliceMeaning(stages: seq<Phase>)
    ensures IsSplice(stages) ==> (forall p :: p in stages ==> Insertable(p)) && Generations(stages) <= 1
    ensures stages == [] ==> Generations(stages) == 0
  {
  }

  /** Controller calls publish only retries and at most one failure. */
  lemma RunPhaseKeepsCompleted(cfg: Config, script: nat -> Reply, p: Phase, t: Tracker, es: seq<Event>, calls: nat, attempts: nat)
    ensures CompletedPhases(RunPhase(cfg, script, p, t, es, calls, attempts).events) == CompletedPhases(es)
    decreases cfg.maxRetries - attempts
  {
    if script(calls).Raise? {
      CompletedPhasesAppend(es, Event(PhaseFailed, Some(p), t.status));
      CompletedPhasesAppend(es, Event(PhaseRetry, Some(p), t.status));
    }
  }

  ghost predicate RouteKept(route: seq<Phase>, m: Machine) {
    m.InRange() && Subseq(route, m.phases)
    && (m.tracker.status in {Running, Completed} ==> Woven(route, Timeline(m)))
  }

  lemma SkipsOnlySkippable(v: View, p: Phase)
    ensures Skips(v, p) ==> Skippable(p)
  {
  }

  /** Line bookkeeping for a phase that returned: it moves to the completed side, then stages are spliced in. */
  lemma AfterPhaseKeepsRoute(cfg: Config, route: seq<Phase>, m: Machine, p: Phase)
    requires m.InRange() && m.index > 0 && m.phases[m.index - 1] == p
    requires Subseq(route, m.phases)
    requires Woven(route, CompletedPhases(m.events) + [p] + m.Todo())
    ensures var n := AfterPhase(cfg, m, p);
            n.InRange() && Subseq(route, n.phases) && Woven(route, Timeline(n))
  {
    hide AfterPhase, Woven, Subseq;
    var n := AfterPhase(cfg, m, p);
    var stages := AfterPhaseShape(cfg, m, p);
    CompletedPhasesAppend(m.events, Event(PhaseCompleted, Some(p), m.tracker.status));
    var front, rest, done := m.phases[..m.index], m.phases[m.index..], CompletedPhases(m.events) + [p];
    assert n.phases == front + stages + rest && m.phases == front + rest;
    SubseqSplice(route, front, stages, rest);
    assert n.Todo() == stages + rest;
    assert Timeline(n) == done + stages + rest;
    if stages == [] {
      assert Timeline(n) == done + rest;
    } else {
      WovenSplice(route, done, stages, rest);
    }
  }

  lemma PhaseKeepsRoute(cfg: Config, script: nat -> Reply, route: seq<Phase>, m: Machine)
    requires m.index < |m.phases| && m.IsRunning() && RouteKept(route, m)
    ensures var p, n := m.phases[m.index], BeginPhase(m);
            RouteKept(route, EndPhase(cfg, n, p, RunPhase(cfg, script, p, n.tracker, n.events, n.calls, 0)))
  {
    hide AfterPhase, RunPhase, Woven, Subseq, CompletedPhases;
    var p, n := m.phases[m.index], BeginPhase(m);
    var r := RunPhase(cfg, script, p, n.tracker, n.events, n.calls, 0);
    RunPhaseKeepsCompleted(cfg, script, p, n.tracker, n.events, n.calls, 0);
    CompletedPhasesAppend(m.events, Event(PhaseStarted, Some(p), m.tracker.status));
    var n1 := n.(view := r.view, tracker := r.tracker, events := r.events, calls := r.calls);
    if r.end == Done {
      assert CompletedPhases(n1.events) + [p] + n1.Todo() == Timeline(m);
      AfterPhaseKeepsRoute(cfg, route, n1, p);
    }
  }

  lemma StepKeepsRoute(cfg: Config, script: nat -> Reply, route: seq<Phase>, m: Machine)
    requires RouteKept(route, m) && m.IsRunning()
    ensures RouteKept(route, Step(cfg, script, m))
  {
    hide EndPhase, RunPhase, Skips, Woven, Subseq, CompletedPhases;
    if m.index == |m.phases| {
      CompletedPhasesAppend(m.events, Event(WorkflowCompleted, None, Completed));
      assert Timeline(Step(cfg, script, m)) == Timeline(m);
    } else {
      var p := m.phases[m.index];
      if Skips(m.view, p) {
        var done, rest := CompletedPhases(m.events), m.phases[m.index + 1..];
        assert Timeline(m) == done + [p] + rest;
        SkipsOnlySkippable(m.view, p);
        WovenSkip(route, done, p, rest);
      } else if !m.view.cancelRequested {
        PhaseKeepsRoute(cfg, script, route, m);
      }
    }
  }

  // ---- the event log as a regular language -------------------------------

  datatype LogState =
    | Unopened
    | Opened
    | Between
    | InPhase(phase: Phase, retries: nat)
    | Broken(phase: Phase)
    | Closed(status: Status)
    | Illegal

  /** The automaton every event log must drive from `Unopened` to `Closed`. */
  function Advance(maxRetries: int, q: LogState, e: Event): LogState {
    match q
    case Unopened => if e == Event(WorkflowStarted, None, Running) then Opened else Illegal
    case Opened =>
      if e.kind == WorkflowFailed && e.status == Failed then Closed(Failed) else AdvanceBetween(e)
    case Between => AdvanceBetween(e)
    case InPhase(p, k) =>
      if e == Event(PhaseCompleted, Some(p), Running) then Between
      else if e == Event(PhaseRetry, Some(p), Running) && k < maxRetries then InPhase(p, k + 1)
      else if e == Event(PhaseFailed, Some(p), Running) && k >= maxRetries then Broken(p)
      else if e == Event(WorkflowCancelled, Some(p), Cancelled) then Closed(Cancelled)
      else Illegal
    case Broken(p) =>
      if e == Event(WorkflowFailed, Some(p), Failed) then Closed(Failed)
      else if e == Event(WorkflowCancelled, Some(p), Cancelled) then Closed(Cancelled)
      else Illegal
    case Closed(_) => Illegal
    case Illegal => Illegal
  }

  function AdvanceBetween(e: Event): LogState {
    if e.kind == PhaseStarted && e.phase.Some? && e.status == Running then InPhase(e.phase.value, 0)
    else if e == Event(WorkflowCompleted, None, Completed) then Closed(Completed)
    else if e.kind == WorkflowCancelled && e.phase.Some? && e.status == Cancelled then Closed(Cancelled)
    else Illegal
  }

  function Scan(maxRetries: int, es: seq<Event>): LogState {
    if es == [] then Unopened else Advance(maxRetries, Scan(maxRetries, es[..|es| - 1]), es[|es| - 1])
  }

  lemma ScanAppend(maxRetries: int, es: seq<Event>, e: Event)
    ensures Scan(maxRetries, es + [e]) == Advance(maxRetries, Scan(maxRetries, es), e)
  {
    assert (es + [e])[..|es|] == es;
  }

  /** Errors are exactly the failed controller calls, plus one for a failed run. */
  ghost predicate ErrorsMatch(t: Tracker) {
    && (forall p :: multiset(t.errors)[PhaseError(p)] == t.Retries(p))
    && multiset(t.errors)[WorkflowError] == if t.status == Failed then 1 else 0
  }

  lemma AddError(errors: seq<ErrorEntry>, e: ErrorEntry)
    ensures multiset(errors + [e]) == multiset(errors) + multiset{e}
  {
  }

  ghost predicate Logged(cfg: Config, m: Machine) {
    && ErrorsMatch(m.tracker)
    && m.tracker.completed == Dedup(CompletedPhases(m.events))
    && match Scan(cfg.maxRetries, m.events)
       case Opened => m.IsRunning()
       case Between => m.IsRunning()
       case Closed(s) => s == m.tracker.status && s != Running
       case _ => false
  }

  lemma RaiseErrors(t: Tracker, p: Phase)
    requires ErrorsMatch(t)
    ensures ErrorsMatch(t.IncrementRetry(p).(errors := t.errors + [PhaseError(p)]))
  {
    AddError(t.errors, PhaseError(p));
  }

  /** After `attempts` failed attempts of `p`, the retry loop ends with the log inside or broken off `p`. */
  lemma {:induction false} RunPhaseLog(cfg: Config, script: nat -> Reply, p: Phase, t: Tracker, es: seq<Event>, calls: nat, attempts: nat)
    requires ErrorsMatch(t) && t.status == Running
    requires Scan(cfg.maxRetries, es) == InPhase(p, attempts)
    requires attempts == 0 || attempts <= cfg.maxRetries
    ensures var r := RunPhase(cfg, script, p, t, es, calls, attempts);
            && ErrorsMatch(r.tracker)
            && calls + 1 <= r.calls <= calls + 1 + Room(cfg.maxRetries, attempts)
            && match Scan(cfg.maxRetries, r.events)
               case InPhase(q, _) => q == p && r.end != FailedOut
               case Broken(q) => q == p && r.end != Done
               case _ => false
    decreases cfg.maxRetries - attempts
  {
    hide ErrorsMatch, Scan;
    match script(calls)
    case Raise(v, asCancel) =>
      var t1 := t.IncrementRetry(p).(errors := t.errors + [PhaseError(p)]);
      RaiseErrors(t, p);
      if attempts + 1 > cfg.maxRetries {
        ScanAppend(cfg.maxRetries, es, Event(PhaseFailed, Some(p), t.status));
      } else {
        ScanAppend(cfg.maxRetries, es, Event(PhaseRetry, Some(p), t.status));
        RunPhaseLog(cfg, script, p, t1, es + [Event(PhaseRetry, Some(p), t.status)], calls + 1, attempts + 1);
      }
    case _ =>
  }

  lemma FinishLog(cfg: Config, m: Machine, status: Status, kind: EventKind, phase: Option<Phase>)
    requires kind != PhaseCompleted
    ensures var n := Finish(m, status, kind, phase);
            && CompletedPhases(n.events) == CompletedPhases(m.events)
            && Scan(cfg.maxRetries, n.events)
               == Advance(cfg.maxRetries, Scan(cfg.maxRetries, m.events), Event(kind, phase, status))
  {
    ScanAppend(cfg.maxRetries, m.events, Event(kind, phase, status));
    CompletedPhasesAppend(m.events, Event(kind, phase, status));
  }

  /** Controller calls one phase may take. */
  function Turns(cfg: Config): nat {
    1 + Room(cfg.maxRetries, 0)
  }

  /** A run may close normally or by cancellation whenever no phase is open. */
  lemma FinishKeepsLog(cfg: Config, m: Machine, status: Status, kind: EventKind, phase: Option<Phase>)
    requires m.IsRunning() && Logged(cfg, m)
    requires (status == Completed && kind == WorkflowCompleted && phase == None)
          || (status == Cancelled && kind == WorkflowCancelled && phase.Some?)
    ensures Logged(cfg, Finish(m, status, kind, phase))
  {
    FinishLog(cfg, m, status, kind, phase);
    var n := Finish(m, status, kind, phase);
    assert n.tracker.errors == m.tracker.errors && n.tracker.retryCounts == m.tracker.retryCounts;
    assert ErrorsMatch(n.tracker);
  }

  lemma BeginPhaseLog(cfg: Config, m: Machine)
    requires m.index < |m.phases| && m.IsRunning() && Logged(cfg, m)
    ensures var p, n := m.phases[m.index], BeginPhase(m);
            && n.InRange() && n.calls == m.calls
            && n.tracker.status == Running && n.tracker.currentPhase == p
            && ErrorsMatch(n.tracker) && n.tracker.completed == Dedup(CompletedPhases(n.events))
            && Scan(cfg.maxRetries, n.events) == InPhase(p, 0)
  {
    var p, n := m.phases[m.index], BeginPhase(m);
    ScanAppend(cfg.maxRetries, m.events, Event(PhaseStarted, Some(p), Running));
    CompletedPhasesAppend(m.events, Event(PhaseStarted, Some(p), Running));
    assert n.tracker.errors == m.tracker.errors && n.tracker.retryCounts == m.tracker.retryCounts;
  }

  /** From the start of a phase to the end of its controller calls. */
  lemma PhaseLog(cfg: Config, script: nat -> Reply, m: Machine)
    requires m.index < |m.phases| && m.IsRunning() && Logged(cfg, m)
    ensures var p, n := m.phases[m.index], BeginPhase(m);
            var r := RunPhase(cfg, script, p, n.tracker, n.events, n.calls, 0);
            PhaseReady(cfg, p, r) && r.calls <= m.calls + Turns(cfg)
  {
    BeginPhaseLog(cfg, m);
    hide ErrorsMatch, RunPhase, Dedup, BeginPhase, Logged;
    var p, n := m.phases[m.index], BeginPhase(m);
    RunPhaseLog(cfg, script, p, n.tracker, n.events, n.calls, 0);
    RunPhaseFrame(cfg, script, p, n.tracker, n.events, n.calls, 0);
    RunPhaseKeepsCompleted(cfg, script, p, n.tracker, n.events, n.calls, 0);
  }

  ghost predicate PhaseReady(cfg: Config, p: Phase, r: PhaseRun) {
    && r.tracker.status == Running && r.tracker.currentPhase == p
    && ErrorsMatch(r.tracker) && r.tracker.completed == Dedup(CompletedPhases(r.events))
    && match Scan(cfg.maxRetries, r.events)
       case InPhase(q, _) => q == p && r.end != FailedOut
       case Broken(q) => q == p && r.end != Done
       case _ => false
  }

  lemma StepKeepsLog(cfg: Config, script: nat -> Reply, m: Machine)
    requires m.InRange() && m.IsRunning() && Logged(cfg, m)
    ensures Logged(cfg, Step(cfg, script, m))
    ensures Step(cfg, script, m).calls <= m.calls + Turns(cfg)
  {
    hide EndPhase, RunPhase, Skips, PhaseReady, ErrorsMatch, Scan, CompletedPhases, Dedup;
    if m.index == |m.phases| {
      FinishKeepsLog(cfg, m, Completed, WorkflowCompleted, None);
    } else {
      var p := m.phases[m.index];
      var taken := m.(index := m.index + 1);
      if Skips(m.view, p) {
        assert Logged(cfg, taken);
      } else if m.view.cancelRequested {
        FinishKeepsLog(cfg, taken, Cancelled, WorkflowCancelled, Some(m.tracker.currentPhase));
      } else {
        PhaseLog(cfg, script, m);
        BeginPhaseLog(cfg, m);
        hide Logged, BeginPhase;
        var n := BeginPhase(m);
        EndPhaseKeepsLog(cfg, n, p, RunPhase(cfg, script, p, n.tracker, n.events, n.calls, 0));
      }
    }
  }

  lemma ErrorsMatchFrame(t: Tracker, n: Tracker)
    requires ErrorsMatch(t) && n.errors == t.errors && n.retryCounts == t.retryCounts
    requires (n.status == Failed) == (t.status == Failed)
    ensures ErrorsMatch(n)
  {
  }

  lemma FailErrors(t: Tracker)
    requires ErrorsMatch(t) && t.status == Running
    ensures ErrorsMatch(t.(errors := t.errors + [WorkflowError], status := Failed))
  {
    AddError(t.errors, WorkflowError);
  }

  lemma DoneLog(cfg: Config, m: Machine, p: Phase)
    requires m.InRange() && m.IsRunning() && ErrorsMatch(m.tracker)
    requires m.tracker.completed == Dedup(CompletedPhases(m.events))
    requires Scan(cfg.maxRetries, m.events).InPhase? && Scan(cfg.maxRetries, m.events).phase == p
    ensures Logged(cfg, AfterPhase(cfg, m, p)) && AfterPhase(cfg, m, p).calls == m.calls
  {
    hide AfterPhase, ErrorsMatch, Dedup, CompletedPhases;
    var n := AfterPhase(cfg, m, p);
    var stages := AfterPhaseShape(cfg, m, p);
    ScanAppend(cfg.maxRetries, m.events, Event(PhaseCompleted, Some(p), Running));
    CompletedPhasesAppend(m.events, Event(PhaseCompleted, Some(p), Running));
    DedupAppend(CompletedPhases(m.events), p);
    ErrorsMatchFrame(m.tracker, n.tracker);
  }

  lemma EndPhaseKeepsLog(cfg: Config, m: Machine, p: Phase, r: PhaseRun)
    requires m.InRange() && PhaseReady(cfg, p, r)
    ensures Logged(cfg, EndPhase(cfg, m, p, r)) && EndPhase(cfg, m, p, r).calls == r.calls
  {
    hide AfterPhase, ErrorsMatch, Dedup, CompletedPhases;
    var n := m.(view := r.view, tracker := r.tracker, events := r.events, calls := r.calls);
    match r.end {
      case Done => DoneLog(cfg, n, p);
      case CancelledOut =>
        FinishLog(cfg, n, Cancelled, WorkflowCancelled, Some(p));
        ErrorsMatchFrame(n.tracker, Cancel(n).tracker);
      case FailedOut =>
        FailErrors(n.tracker);
        FinishLog(cfg, n.(tracker := n.tracker.(errors := n.tracker.errors + [WorkflowError])), Failed,
                  WorkflowFailed, Some(p));
    }
  }
}
