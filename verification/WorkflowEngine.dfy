/** The engine, correction loop and workflow state as the objects the source mutates, proved against the step machine. */
module WorkflowEngine {
  import opened Options
  import opened Text
  import opened WorkflowModel

  class WorkflowState {
    var status: Status
    var currentPhase: Phase
    var completedPhases: seq<Phase>
    var retryCounts: map<Phase, nat>
    var errors: seq<ErrorEntry>

    constructor ()
      ensures State() == Tracker(Pending, Input, [], map[], [])
    {
      status, currentPhase, completedPhases, retryCounts, errors := Pending, Input, [], map[], [];
    }

    ghost function State(): Tracker
      reads this
    {
      Tracker(status, currentPhase, completedPhases, retryCounts, errors)
    }

    method MarkPhaseComplete(phase: Phase)
      modifies this
      ensures State() == old(State()).MarkPhaseComplete(phase)
    {
      if phase !in completedPhases {
        completedPhases := completedPhases + [phase];
      }
    }

    method IncrementRetry(phase: Phase) returns (count: nat)
      modifies this
      ensures State() == old(State()).IncrementRetry(phase)
      ensures count == State().Retries(phase)
    {
      count := (if phase in retryCounts then retryCounts[phase] else 0) + 1;
      retryCounts := retryCounts[phase := count];
    }
  }

  class ExecutionContext {
    const workflowState: WorkflowState
    /** Fields and metadata that controllers read and write. */
    var view: View
    /** Metadata counters and records of the engine and the correction loop. */
    var generationCount: nat
    var retrievalRetryCount: nat
    var interventionCount: nat
    var correctionSignatures: set<(Correction, string)>
    var correctionRetrievalRetries: nat
    var correctionQueries: seq<string>
    var correctionReplans: nat
    var correctionAttempts: seq<Attempt>

    constructor (view: View)
      ensures this.view == view && Account() == FRESH_LEDGER
      ensures fresh(workflowState) && workflowState.State() == Tracker(Pending, Input, [], map[], [])
    {
      workflowState := new WorkflowState();
      this.view := view;
      generationCount, retrievalRetryCount, interventionCount, correctionSignatures := 0, 0, 0, {};
      correctionRetrievalRetries, correctionQueries, correctionReplans, correctionAttempts := 0, [], 0, [];
    }

    ghost function Account(): Ledger
      reads this
    {
      Ledger(generationCount, retrievalRetryCount, interventionCount, correctionSignatures,
             correctionRetrievalRetries, correctionQueries, correctionReplans, correctionAttempts)
    }
  }

  class CorrectionLoop {
    const config: Config

    constructor (config: Config)
      ensures this.config == config
    {
      this.config := config;
    }

    method ConsumeBudget(context: ExecutionContext, action: Correction, candidate: string)
      modifies context
      ensures context.view == old(context.view)
      ensures context.Account() == Consume(config.text, old(context.Account()), action, candidate)
    {
      context.interventionCount := context.interventionCount + 1;
      context.correctionSignatures := context.correctionSignatures + {Signature(config.text, action, candidate)};
      if IsRetrievalAction(action) {
        context.correctionRetrievalRetries := context.correctionRetrievalRetries + 1;
        context.correctionQueries := context.correctionQueries + [candidate];
      } else if action == Replan {
        context.correctionReplans := context.correctionReplans + 1;
      }
    }

    method Review(context: ExecutionContext, advice: Advice, stage: Stage) returns (attempt: Attempt)
      modifies context
      ensures context.view == old(context.view)
      ensures (context.Account(), attempt)
           == WorkflowModel.Review(config, old(context.view), old(context.Account()), advice, stage)
    {
      var candidate := Collapse(config.text, advice.suggestedQuery);
      ghost var before := context.Account();
      var reason := Verdict(config, context.view,
                            Ledger(context.generationCount, context.retrievalRetryCount, context.interventionCount,
                                   context.correctionSignatures, context.correctionRetrievalRetries,
                                   context.correctionQueries, context.correctionReplans, context.correctionAttempts),
                            advice, candidate);
      attempt := Record(context.view, |context.correctionAttempts|, advice, stage, candidate, reason);
      if reason == Accepted {
        ConsumeBudget(context, advice.action, candidate);
      }
      context.correctionAttempts := context.correctionAttempts + [attempt];
    }

    /** `complete`: fill in the after side of every accepted attempt. */
    method Complete(context: ExecutionContext)
      modifies context`correctionAttempts
      ensures context.correctionAttempts == CompleteAll(Observe(context.view), old(context.correctionAttempts))
    {
      var now := Observe(context.view);
      ghost var before := context.correctionAttempts;
      for i := 0 to |context.correctionAttempts|
        invariant |context.correctionAttempts| == |before|
        invariant forall k :: 0 <= k < i ==> context.correctionAttempts[k] == Completion(now, before[k])
        invariant forall k :: i <= k < |before| ==> context.correctionAttempts[k] == before[k]
      {
        if context.correctionAttempts[i].IsAccepted() {
          var attempt := context.correctionAttempts[i].(after := now);
          attempt := attempt.(delta := now.confidence - attempt.before.confidence);
          var changed := attempt.before.query != attempt.after.query || attempt.before.plan != attempt.after.plan
                         || attempt.before.answer != attempt.after.answer;
          attempt := attempt.(utility := Max(Max(0.0, attempt.delta), if changed then 0.25 else 0.0));
          context.correctionAttempts := context.correctionAttempts[i := attempt];
        }
      }
    }
  }

  class WorkflowEventBus {
    var events: seq<Event>

    constructor ()
      ensures events == []
    {
      events := [];
    }

    method Publish(kind: EventKind, status: Status, phase: Option<Phase>)
      modifies this
      ensures events == old(events) + [Event(kind, phase, status)]
    {
      events := events + [Event(kind, phase, status)];
    }
  }

  class OrchestrationEngine {
    const config: Config
    const bus: WorkflowEventBus
    const corrections: CorrectionLoop

    constructor (config: Config, bus: WorkflowEventBus)
      ensures this.config == config && this.bus == bus && corrections.config == config
    {
      this.config, this.bus := config, bus;
      corrections := new CorrectionLoop(config);
    }

    /** The step machine's view of the heap and the engine's locals. */
    ghost function Now(context: ExecutionContext, phases: seq<Phase>, index: nat, calls: nat): Machine
      reads context, context.workflowState, bus
    {
      Machine(context.view, context.Account(), context.workflowState.State(), bus.events, phases, index, calls)
    }

    ghost predicate Valid() {
      corrections.config == config
    }

    method ExecutePhaseWithRetries(context: ExecutionContext, phase: Phase, script: nat -> Reply, start: nat)
      returns (end: PhaseEnd, calls: nat)
      requires Valid()
      modifies context`view, context.workflowState, bus
      ensures PhaseRun(end, context.view, context.workflowState.State(), bus.events, calls)
           == old(RunPhase(config, script, phase, context.workflowState.State(), bus.events, start, 0))
    {
      ghost var target := RunPhase(config, script, phase, context.workflowState.State(), bus.events, start, 0);
      var attempts: nat := 0;
      calls := start;
      while true
        invariant target == RunPhase(config, script, phase, context.workflowState.State(), bus.events, calls, attempts)
        decreases config.maxRetries - attempts
      {
        var reply := script(calls);
        calls := calls + 1;
        context.view := reply.view;
        match reply {
          case Return(_) => return Done, calls;
          case TaskCancelled(_) =>
            context.view := context.view.(cancelRequested := true);
            return CancelledOut, calls;
          case Raise(_, asCancel) =>
            attempts := attempts + 1;
            var retryCount := context.workflowState.IncrementRetry(phase);
            context.workflowState.errors := context.workflowState.errors + [PhaseError(phase)];
            if attempts > config.maxRetries {
              bus.Publish(PhaseFailed, context.workflowState.status, Some(phase));
              return if asCancel then CancelledOut else FailedOut, calls;
            }
            bus.Publish(PhaseRetry, context.workflowState.status, Some(phase));
        }
      }
    }

    /** `_correction_phases` */
    method CorrectionPhases(context: ExecutionContext, advice: Advice, source: Phase) returns (stages: seq<Phase>)
      requires Valid()
      modifies context
      ensures var stage := if source == OutputValidation then PostExecution else PreExecution;
              var (l, attempt) := Review(config, old(context.view), old(context.Account()), advice, stage);
              && context.Account() == l
              && (context.view, stages)
                 == if attempt.IsAccepted() then Grant(old(context.view), attempt) else (old(context.view), [])
    {
      var stage := if source == OutputValidation then PostExecution else PreExecution;
      var attempt := corrections.Review(context, advice, stage);
      if !attempt.IsAccepted() {
        return [];
      }
      var action := advice.action;
      if IsQueryAction(action) {
        context.view := context.view.(queryOverride := Some(attempt.after.query));
        return QueryRoute(context.view, stage);
      }
      if action == Replan {
        return ReplanRoute(context.view, stage);
      }
      if action == Regenerate {
        return [AnswerGeneration, OutputValidation];
      }
      if action == RetryTransientFailure {
        if stage == PostExecution && context.view.hasActionResult {
          return [Action, OutputValidation];
        }
        context.view := context.view.(queryOverride := Some(attempt.after.query));
        return QueryRoute(context.view, stage);
      }
      if action == AskUser || action == AbstainAnswer {
        context.view := context.view.(terminalAction := Some(action));
      }
      return [];
    }

    /** Splice the bounded retrieval retry the gate asks for. */
    method ApplyGate(context: ExecutionContext, phase: Phase, phases: seq<Phase>, index: nat, ghost calls: nat)
      returns (more: seq<Phase>)
      requires index <= |phases|
      modifies context
      ensures index <= |more|
      ensures Now(context, more, index, calls) == GateRetry(config, old(Now(context, phases, index, calls)), phase)
    {
      more := phases;
      var gate := context.view.gate;
      if phase == ExecutionDecision && gate.Some? && gate.value.decision == Some(RetryRetrieval)
         && context.retrievalRetryCount < gate.value.maxRetrievalRetries
         && context.retrievalRetryCount < config.budget.maxRetrievalRetries {
        context.retrievalRetryCount := context.retrievalRetryCount + 1;
        more := more[..index] + GATE_RETRY_ROUTE + more[index..];
      }
    }

    /** Review the phase's advice, if any, and splice what it is granted. */
    method ApplyAdvice(context: ExecutionContext, phase: Phase, phases: seq<Phase>, index: nat, ghost calls: nat)
      returns (more: seq<Phase>)
      requires Valid() && index <= |phases|
      modifies context
      ensures index <= |more|
      ensures Now(context, more, index, calls) == Correct(config, old(Now(context, phases, index, calls)), phase)
    {
      hide WorkflowModel.Review, Grant;
      more := phases;
      var advice := PhaseAdvice(context.view, phase);
      if advice.Some? {
        var stages := CorrectionPhases(context, advice.value, phase);
        assert phases[..index] + [] + phases[index..] == phases;
        more := phases[..index] + stages + phases[index..];
      }
    }

    /** What `execute` does after a phase returned; the result is the extended work list. */
    method Settle(context: ExecutionContext, phase: Phase, phases: seq<Phase>, index: nat, ghost calls: nat)
      returns (more: seq<Phase>)
      requires Valid() && index <= |phases|
      modifies context, context.workflowState, bus
      ensures index <= |more|
      ensures Now(context, more, index, calls) == AfterPhase(config, old(Now(context, phases, index, calls)), phase)
    {
      hide GateRetry, Correct, CompleteAll, Observe, Tracker.MarkPhaseComplete;
      ghost var m := Now(context, phases, index, calls);
      context.workflowState.MarkPhaseComplete(phase);
      bus.Publish(PhaseCompleted, context.workflowState.status, Some(phase));
      ghost var m1 := Now(context, phases, index, calls);
      assert m1 == m.(tracker := m.tracker.MarkPhaseComplete(phase),
                      events := m.events + [Event(PhaseCompleted, Some(phase), m.tracker.status)]) by {
        MarkKeepsStatus(m.tracker, phase);
      }
      if phase == AnswerGeneration {
        context.generationCount := context.generationCount + 1;
      }
      assert Now(context, phases, index, calls) == CountGeneration(m1, phase);
      more := ApplyGate(context, phase, phases, index, calls);
      more := ApplyAdvice(context, phase, more, index, calls);
      if phase == OutputValidation || phase == Output {
        corrections.Complete(context);
      }
    }

    lemma MarkKeepsStatus(t: Tracker, phase: Phase)
      ensures t.MarkPhaseComplete(phase).status == t.status
    {
    }

    method Terminate(context: ExecutionContext, status: Status, kind: EventKind, phase: Option<Phase>)
      modifies context.workflowState, bus
      ensures context.workflowState.State() == old(context.workflowState.State()).(status := status)
      ensures bus.events == old(bus.events) + [Event(kind, phase, status)]
    {
      context.workflowState.status := status;
      bus.Publish(kind, status, phase);
    }

    method Abort(context: ExecutionContext, end: PhaseEnd)
      requires end != Done
      modifies context.workflowState, bus
      ensures forall phases, index, calls ::
                Now(context, phases, index, calls)
                == if end == CancelledOut then Cancel(old(Now(context, phases, index, calls)))
                   else Fail(old(Now(context, phases, index, calls)))
    {
      if end == CancelledOut {
        Terminate(context, Cancelled, WorkflowCancelled, Some(context.workflowState.currentPhase));
      } else {
        context.workflowState.errors := context.workflowState.errors + [WorkflowError];
        Terminate(context, Failed, WorkflowFailed, Some(context.workflowState.currentPhase));
      }
    }

    /** One phase's turn: from its start event to its splices, or to the end of the run. */
    method Turn(context: ExecutionContext, list: seq<Phase>, position: nat, script: nat -> Reply, start: nat)
      returns (phases: seq<Phase>, calls: nat, end: PhaseEnd)
      requires Valid() && position < |list| && context.workflowState.status == Running
      modifies context, context.workflowState, bus
      ensures position + 1 <= |phases|
      ensures var m := old(Now(context, list, position, start));
              var n := BeginPhase(m);
              var r := RunPhase(config, script, list[position], n.tracker, n.events, n.calls, 0);
              && end == r.end
              && Now(context, phases, position + 1, calls) == EndPhase(config, n, list[position], r)
    {
      hide RunPhase, AfterPhase, Finish;
      var phase := list[position];
      phases := list;
      context.workflowState.currentPhase := phase;
      bus.Publish(PhaseStarted, context.workflowState.status, Some(phase));
      end, calls := ExecutePhaseWithRetries(context, phase, script, start);
      if end != Done {
        Abort(context, end);
      } else {
        phases := Settle(context, phase, phases, position + 1, calls);
      }
    }

    /** The while loop of `execute`, from its start to its normal or exceptional exit. */
    method RunPhases(context: ExecutionContext, route: seq<Phase>, script: nat -> Reply)
      returns (phases: seq<Phase>, index: nat, calls: nat)
      requires Valid() && context.workflowState.status == Running
      modifies context, context.workflowState, bus
      ensures Now(context, phases, index, calls) == Loop(config, script, old(Now(context, route, 0, 0)))
    {
      phases, index, calls := route, 0, 0;
      ghost var target := Loop(config, script, Now(context, phases, index, calls));
      while index < |phases|
        invariant index <= |phases| && context.workflowState.status == Running
        invariant Loop(config, script, Now(context, phases, index, calls)) == target
        decreases Quota(config, Now(context, phases, index, calls)) - index
      {
        ghost var m := Now(context, phases, index, calls);
        StepQuota(config, script, m);
        hide RunPhase, EndPhase, BeginPhase, Skips, Quota;
        if Skips(context.view, phases[index]) {
          index := index + 1;
        } else if context.view.cancelRequested {
          index := index + 1;
          Abort(context, CancelledOut);
          assert Now(context, phases, index, calls) == Step(config, script, m);
          return;
        } else {
          var end;
          phases, calls, end := Turn(context, phases, index, script, calls);
          index := index + 1;
          EndsOnlyWhenDone(config, script, m);
          if end != Done {
            return;
          }
        }
      }
      ghost var m := Now(context, phases, index, calls);
      Terminate(context, Completed, WorkflowCompleted, None);
      assert Now(context, phases, index, calls) == Step(config, script, m);
    }

    /** `execute`: run the routed phases and everything the gate and the corrections splice in. */
    method Execute(context: ExecutionContext, route: Option<seq<Phase>>, script: nat -> Reply)
      returns (phases: seq<Phase>, index: nat, calls: nat)
      requires Valid() && bus.events == []
      requires context.workflowState.State() == Tracker(Pending, Input, [], map[], [])
      modifies context, context.workflowState, bus
      ensures Now(context, phases, index, calls)
           == WorkflowModel.Execute(config, script, old(context.view), old(context.Account()), route)
    {
      hide Loop, Fail;
      context.workflowState.status := Running;
      bus.Publish(WorkflowStarted, Running, None);
      assert bus.events == [Event(WorkflowStarted, None, Running)];
      if route.None? || route.value == [] {
        phases, index, calls := [], 0, 0;
        Abort(context, FailedOut);
      } else {
        phases, index, calls := RunPhases(context, route.value, script);
      }
    }
  }

  /** A turn leaves the run running exactly when its phase was done. */
  lemma EndsOnlyWhenDone(cfg: Config, script: nat -> Reply, m: Machine)
    requires m.index < |m.phases| && m.IsRunning()
    ensures var n := BeginPhase(m);
            var r := RunPhase(cfg, script, m.phases[m.index], n.tracker, n.events, n.calls, 0);
            EndPhase(cfg, n, m.phases[m.index], r).IsRunning() <==> r.end == Done
  {
    var p, n := m.phases[m.index], BeginPhase(m);
    RunPhaseFrame(cfg, script, p, n.tracker, n.events, n.calls, 0);
    hide RunPhase, AfterPhase;
    var r := RunPhase(cfg, script, p, n.tracker, n.events, n.calls, 0);
    AfterPhaseQuota(cfg, n.(view := r.view, tracker := r.tracker, events := r.events, calls := r.calls), p);
  }
}
