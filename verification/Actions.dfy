/**
 * From a plan to handler calls: the sandbox policy, the tool executor's gates
 * and the action executor's loop. A handler is an oracle over invocations.
 */
module Actions {
  import opened Options
  import opened Sequences
  import opened Text
  import opened Tools

  datatype Kind = ToolCall | ExternalAction | EnvironmentOperation

  /** `toolName` is already stripped. */
  datatype Invocation = Invocation(
    toolName: string,
    arguments: Arguments,
    actionId: string,
    kind: Kind,
    sandboxed: bool,
    tags: seq<string>
  )

  datatype Policy = Policy(
    allowedTools: seq<string>,
    blockedTools: seq<string>,
    allowExternal: bool,
    allowEnvironment: bool,
    requireValidation: bool,
    requireSandbox: bool,
    maxInvocations: int,
    allowedTags: seq<string>
  ) {
    /** The constructor's `max(0, ...)`. */
    function Limit(): nat { if maxInvocations >= 0 then maxInvocations else 0 }
  }

  datatype Decision =
    | Allowed
    | EmptyName | ExternalDisabled | NotSandboxed | EnvironmentDisabled | LimitExceeded | ToolBlocked | NotAllowlisted
    | TagsOutsidePolicy

  /** `evaluate_invocation` */
  function EvaluateInvocation(p: Policy, v: Invocation, index: nat): Decision {
    if v.toolName == "" then EmptyName
    else if !p.allowExternal then ExternalDisabled
    else if p.requireSandbox && !v.sandboxed then NotSandboxed
    else if v.kind == EnvironmentOperation && !p.allowEnvironment then EnvironmentDisabled
    else if index >= p.Limit() then LimitExceeded
    else if v.toolName in p.blockedTools then ToolBlocked
    else if v.toolName !in p.allowedTools then NotAllowlisted
    else if p.allowedTags != [] && !(Elements(v.tags) <= Elements(p.allowedTags)) then TagsOutsidePolicy
    else Allowed
  }

  datatype ToolStatus = ToolSuccess | ToolFailed | ToolRefused | ValidationFailed | NotFound

  /** What a handler does when called: a result, a result of the wrong type, a timeout, an exception. */
  datatype HandlerReply = Returned(status: ToolStatus) | WrongResult | TimedOut | Raised

  datatype Tool = Tool(schema: seq<Spec>, tags: seq<string>, kinds: seq<Kind>, handler: Invocation -> HandlerReply)

  type Registry = map<string, Tool>

  /** `route` */
  function RouteTool(r: Registry, v: Invocation): Option<Tool> {
    if v.toolName == "" || v.toolName !in r then None
    else if v.kind !in r[v.toolName].kinds then None
    else Some(r[v.toolName])
  }

  datatype Audit =
    | Received | PolicyDecided(decision: Decision) | RouteFailed | TagsRejected | ValidationCompleted(valid: bool)
    | ValidationForced | ExecutionCompleted | ExecutionTimedOut | ExecutionFailed

  /** An executed invocation: its status, its audit, and the invocation the handler was called with, if it was. */
  datatype Execution = Execution(status: ToolStatus, audit: seq<Audit>, call: Option<Invocation>)

  function Call(tool: Tool, p: Policy, v: Invocation, audit: seq<Audit>): Execution {
    var forced := audit + if p.requireValidation then [] else [ValidationForced];
    match tool.handler(v)
    case Returned(status) => Execution(status, forced + [ExecutionCompleted], Some(v))
    case WrongResult => Execution(ToolFailed, forced + [ExecutionCompleted], Some(v))
    case TimedOut => Execution(ToolFailed, forced + [ExecutionTimedOut], Some(v))
    case Raised => Execution(ToolFailed, forced + [ExecutionFailed], Some(v))
  }

  /** `ToolExecutor.execute` */
  function ExecuteTool(eq: Equality, r: Registry, p: Policy, v: Invocation, index: nat): Execution {
    var decision := EvaluateInvocation(p, v, index);
    var audit := [Received, PolicyDecided(decision)];
    if decision != Allowed then Execution(ToolRefused, audit, None)
    else
      match RouteTool(r, v)
      case None => Execution(NotFound, audit + [RouteFailed], None)
      case Some(tool) =>
        if !(Elements(v.tags) <= Elements(tool.tags)) then Execution(ToolRefused, audit + [TagsRejected], None)
        else
          var validation := Validate(eq, tool.schema, v.arguments);
          var checked := audit + [ValidationCompleted(validation.valid)];
          if !validation.valid then Execution(ValidationFailed, checked, None)
          else Call(tool, p, v.(arguments := validation.sanitized), checked)
  }

  lemma DifferenceIsEmptyIff(a: set<string>, b: set<string>)
    ensures a - b == {} <==> a <= b
  {
    if !(a <= b) {
      var x :| x in a && x !in b;
      assert x in a - b;
    }
  }

  class ToolExecutor {
    const registry: Registry
    const equality: Equality

    constructor (r: Registry, eq: Equality)
      ensures registry == r && equality == eq
    {
      registry, equality := r, eq;
    }

    method Execute(v: Invocation, p: Policy, index: nat) returns (result: Execution)
      ensures result == ExecuteTool(equality, registry, p, v, index)
    {
      hide Validate, EvaluateInvocation, RouteTool, Elements;
      var audit := [Received];
      var decision := EvaluateInvocation(p, v, index);
      audit := audit + [PolicyDecided(decision)];
      assert audit == [Received, PolicyDecided(decision)];
      if decision != Allowed {
        return Execution(ToolRefused, audit, None);
      }
      var tool := RouteTool(registry, v);
      if tool.None? {
        audit := audit + [RouteFailed];
        return Execution(NotFound, audit, None);
      }
      var unsupported := Elements(v.tags) - Elements(tool.value.tags);
      DifferenceIsEmptyIff(Elements(v.tags), Elements(tool.value.tags));
      if unsupported != {} {
        audit := audit + [TagsRejected];
        return Execution(ToolRefused, audit, None);
      }
      var validation := Validate(equality, tool.value.schema, v.arguments);
      audit := audit + [ValidationCompleted(validation.valid)];
      if !validation.valid {
        return Execution(ValidationFailed, audit, None);
      }
      var invocation := v.(arguments := validation.sanitized);
      if !p.requireValidation {
        audit := audit + [ValidationForced];
      }
      match tool.value.handler(invocation)
      case Returned(status) => return Execution(status, audit + [ExecutionCompleted], Some(invocation));
      case WrongResult => return Execution(ToolFailed, audit + [ExecutionCompleted], Some(invocation));
      case TimedOut => return Execution(ToolFailed, audit + [ExecutionTimedOut], Some(invocation));
      case Raised => return Execution(ToolFailed, audit + [ExecutionFailed], Some(invocation));
    }
  }

  // ---- plans -------------------------------------------------------------------------------

  /** What a plan action or the intent says about a tool; an empty name says nothing. */
  datatype ToolRequest = ToolRequest(name: string, arguments: Arguments, kind: Kind, sandboxed: bool, tags: seq<string>)

  datatype PlanAction = PlanAction(id: string, request: Option<ToolRequest>)

  datatype Intent = Intent(kind: string, requiresExternalTool: bool, request: Option<ToolRequest>)

  datatype Plan = Plan(id: string, intent: Option<Intent>, actions: seq<PlanAction>)

  function Request(cs: Charset, id: string, request: Option<ToolRequest>): seq<Invocation> {
    match request
    case None => []
    case Some(t) =>
      if t.name == "" then [] else [Invocation(Strip(cs, t.name), t.arguments, id, t.kind, t.sandboxed, t.tags)]
  }

  function ActionInvocations(cs: Charset, actions: seq<PlanAction>): (r: seq<Invocation>)
    ensures |r| <= |actions|
  {
    if actions == [] then []
    else
      var last := actions[|actions| - 1];
      ActionInvocations(cs, actions[..|actions| - 1]) + Request(cs, last.id, last.request)
  }

  /** `_tool_invocations`: the intent's, then the actions', in order. */
  function ToolInvocations(cs: Charset, plan: Plan): seq<Invocation> {
    (if plan.intent.Some? && plan.intent.value.requiresExternalTool then Request(cs, plan.id, plan.intent.value.request) else [])
    + ActionInvocations(cs, plan.actions)
  }

  datatype StepStatus = Success | Failed | Blocked | NoOp | Partial

  /** `_status_from_tool` */
  function StatusFromTool(status: ToolStatus): StepStatus {
    match status
    case ToolSuccess => Success
    case ToolRefused => Blocked
    case ValidationFailed => Blocked
    case NotFound => Blocked
    case ToolFailed => Failed
  }

  function ToolSteps(executions: seq<Execution>): (r: seq<StepStatus>)
    ensures |r| == |executions|
    ensures forall i :: 0 <= i < |r| ==> r[i] == StatusFromTool(executions[i].status)
  {
    seq(|executions|, i requires 0 <= i < |executions| => StatusFromTool(executions[i].status))
  }

  /** `_internal_steps` */
  function InternalSteps(plan: Plan): seq<StepStatus> {
    if plan.actions == [] then [NoOp] else seq(|plan.actions|, _ => Success)
  }

  function IntentKind(plan: Plan): string {
    if plan.intent.Some? then plan.intent.value.kind else "unknown"
  }

  /** `_aggregate_status` */
  function AggregateStatus(steps: seq<StepStatus>, plan: Plan): StepStatus {
    if steps == [] then NoOp
    else if Elements(steps) == {Success} then Success
    else if Failed in steps then Failed
    else if Blocked in steps then Blocked
    else if IntentKind(plan) == "no_op" then NoOp
    else Partial
  }

  function ExecuteAll(eq: Equality, r: Registry, p: Policy, vs: seq<Invocation>): (es: seq<Execution>)
    ensures |es| == |vs|
    ensures forall i :: 0 <= i < |es| ==> es[i] == ExecuteTool(eq, r, p, vs[i], i)
  {
    seq(|vs|, i requires 0 <= i < |vs| => ExecuteTool(eq, r, p, vs[i], i))
  }

  datatype Outcome = Outcome(status: StepStatus, steps: seq<StepStatus>, executions: seq<Execution>)

  /** `ActionExecutor.execute` */
  function ExecutePlan(cs: Charset, eq: Equality, r: Registry, p: Policy, plan: Plan): Outcome {
    var executions := ExecuteAll(eq, r, p, ToolInvocations(cs, plan));
    var steps := if executions != [] then ToolSteps(executions) else InternalSteps(plan);
    Outcome(AggregateStatus(steps, plan), steps, executions)
  }

  lemma Associative<T>(a: seq<T>, b: seq<T>, c: seq<T>)
    ensures (a + b) + c == a + (b + c)
  {
  }

  class ActionExecutor {
    const executor: ToolExecutor
    const charset: Charset

    constructor (e: ToolExecutor, cs: Charset)
      ensures executor == e && charset == cs
    {
      executor, charset := e, cs;
    }

    method Collect(plan: Plan) returns (vs: seq<Invocation>)
      ensures vs == ToolInvocations(charset, plan)
    {
      vs := [];
      if plan.intent.Some? && plan.intent.value.requiresExternalTool {
        vs := Request(charset, plan.id, plan.intent.value.request);
      }
      ghost var first := vs;
      for i := 0 to |plan.actions|
        invariant vs == first + ActionInvocations(charset, plan.actions[..i])
      {
        hide Request;
        assert plan.actions[..i + 1][..i] == plan.actions[..i];
        var more := Request(charset, plan.actions[i].id, plan.actions[i].request);
        Associative(first, ActionInvocations(charset, plan.actions[..i]), more);
        vs := vs + more;
      }
      assert plan.actions[..|plan.actions|] == plan.actions;
    }

    method Execute(plan: Plan, p: Policy) returns (out: Outcome)
      ensures out == ExecutePlan(charset, executor.equality, executor.registry, p, plan)
    {
      var vs := Collect(plan);
      var steps: seq<StepStatus> := [];
      var executions: seq<Execution> := [];
      if vs != [] {
        for i := 0 to |vs|
          invariant |executions| == i == |steps|
          invariant executions == ExecuteAll(executor.equality, executor.registry, p, vs)[..i]
          invariant forall j :: 0 <= j < i ==> steps[j] == StatusFromTool(executions[j].status)
        {
          var result := executor.Execute(vs[i], p, i);
          executions := executions + [result];
          steps := steps + [StatusFromTool(result.status)];
        }
        assert executions == ExecuteAll(executor.equality, executor.registry, p, vs);
        assert steps == ToolSteps(executions);
      } else {
        steps := InternalSteps(plan);
      }
      out := Outcome(AggregateStatus(steps, plan), steps, executions);
    }
  }

  // ---- gates ----------------------------------------------------------------------------------

  /** The policy has nothing against the invocation. */
  ghost predicate Permitted(p: Policy, v: Invocation, index: nat) {
    && v.toolName != "" && p.allowExternal && index < p.maxInvocations
    && (p.requireSandbox ==> v.sandboxed)
    && (v.kind == EnvironmentOperation ==> p.allowEnvironment)
    && v.toolName in p.allowedTools && v.toolName !in p.blockedTools
    && (p.allowedTags != [] ==> Elements(v.tags) <= Elements(p.allowedTags))
  }

  /** Everything that must hold before a handler runs, independently of the order of the checks. */
  ghost predicate Cleared(eq: Equality, r: Registry, p: Policy, v: Invocation, index: nat) {
    && Permitted(p, v, index)
    && v.toolName in r && v.kind in r[v.toolName].kinds
    && Elements(v.tags) <= Elements(r[v.toolName].tags)
    && v.arguments.Keys <= Names(r[v.toolName].schema)
    && forall i :: 0 <= i < |r[v.toolName].schema| ==> Meets(eq, r[v.toolName].schema[i], v.arguments)
  }

  /** `given` is `v` with every argument sanitised and nothing else changed. */
  predicate SanitizedCopy(v: Invocation, given: Invocation) {
    && given == v.(arguments := given.arguments)
    && given.arguments.Keys == v.arguments.Keys
    && forall n :: n in v.arguments ==> Sanitize(v.arguments[n]) == Some(given.arguments[n]) && Clean(given.arguments[n])
  }

  /** The reason given is one that holds. */
  ghost predicate Justified(p: Policy, v: Invocation, index: nat, d: Decision) {
    match d
    case Allowed => Permitted(p, v, index)
    case EmptyName => v.toolName == ""
    case ExternalDisabled => !p.allowExternal
    case NotSandboxed => p.requireSandbox && !v.sandboxed
    case EnvironmentDisabled => v.kind == EnvironmentOperation && !p.allowEnvironment
    case LimitExceeded => index >= p.maxInvocations
    case ToolBlocked => v.toolName in p.blockedTools
    case NotAllowlisted => v.toolName !in p.allowedTools
    case TagsOutsidePolicy => p.allowedTags != [] && exists t :: t in v.tags && t !in p.allowedTags
  }

  lemma DecisionIsJustified(p: Policy, v: Invocation, index: nat)
    ensures Justified(p, v, index, EvaluateInvocation(p, v, index))
    ensures EvaluateInvocation(p, v, index) == Allowed <==> Permitted(p, v, index)
  {
    if !(Elements(v.tags) <= Elements(p.allowedTags)) {
      var t :| t in Elements(v.tags) && t !in Elements(p.allowedTags);
      assert t in v.tags && t !in p.allowedTags;
    }
  }

  predicate IsRegistered(r: Registry, v: Invocation) { v.toolName in r && v.kind in r[v.toolName].kinds }

  /** The status an invocation gets: its handler's own if that answered properly, FAILED if it did not, and otherwise the first gate's. */
  ghost predicate StatusTells(r: Registry, p: Policy, v: Invocation, index: nat, e: Execution) {
    if e.call.Some? then
      v.toolName in r
      && match r[v.toolName].handler(e.call.value)
         case Returned(status) => e.status == status
         case WrongResult => e.status == ToolFailed
         case TimedOut => e.status == ToolFailed
         case Raised => e.status == ToolFailed
    else
      e.status == if !Permitted(p, v, index) then ToolRefused
                  else if !IsRegistered(r, v) then NotFound
                  else if !(Elements(v.tags) <= Elements(r[v.toolName].tags)) then ToolRefused
                  else ValidationFailed
  }

  /**
   * A handler runs exactly when every gate is passed, whatever
   * `require_validation` says, and gets the sanitised copy; the status is the
   * handler's or the gate's that stopped the invocation.
   */
  lemma GatesDecide(eq: Equality, r: Registry, p: Policy, v: Invocation, index: nat)
    ensures var e := ExecuteTool(eq, r, p, v, index);
            && (e.call.Some? <==> Cleared(eq, r, p, v, index))
            && (e.call.Some? ==> SanitizedCopy(v, e.call.value))
            && StatusTells(r, p, v, index, e)
  {
    DecisionIsJustified(p, v, index);
    hide Validate, Meets, Sanitize, Clean, Elements, Names, EvaluateInvocation;
    if v.toolName in r {
      ValidateMeaning(eq, r[v.toolName].schema, v.arguments);
    }
  }

  /** How the call of the handler is audited. */
  function Ending(reply: HandlerReply): Audit {
    match reply
    case TimedOut => ExecutionTimedOut
    case Raised => ExecutionFailed
    case _ => ExecutionCompleted
  }

  /** The audit alone tells which decision the policy took and why, and whether and how the handler ran, allowed and validated first. */
  lemma AuditTells(eq: Equality, r: Registry, p: Policy, v: Invocation, index: nat)
    ensures var e := ExecuteTool(eq, r, p, v, index);
            && |e.audit| >= 2 && e.audit[0] == Received
            && e.audit[1].PolicyDecided? && Justified(p, v, index, e.audit[1].decision)
            && (e.call.Some? <==> ValidationCompleted(true) in e.audit)
            && (RouteFailed in e.audit <==> e.status == NotFound && e.call.None?)
            && (ValidationCompleted(false) in e.audit <==> e.status == ValidationFailed && e.call.None?)
            && (e.call.Some? ==>
                  && e.audit == [Received, PolicyDecided(Allowed), ValidationCompleted(true)]
                                + (if p.requireValidation then [] else [ValidationForced])
                                + [Ending(r[v.toolName].handler(e.call.value))])
  {
    DecisionIsJustified(p, v, index);
    hide Validate, EvaluateInvocation, Elements, Justified;
  }

  // ---- whole plans --------------------------------------------------------------------------------

  function CallsOf(executions: seq<Execution>): (r: seq<Invocation>)
    ensures |r| <= |executions|
  {
    if executions == [] then []
    else
      CallsOf(executions[..|executions| - 1])
      + (if executions[|executions| - 1].call.Some? then [executions[|executions| - 1].call.value] else [])
  }

  lemma {:induction false} CallsOnlyBelow(executions: seq<Execution>, limit: nat)
    requires forall i :: limit <= i < |executions| ==> executions[i].call.None?
    ensures |CallsOf(executions)| <= limit
  {
    if |executions| > limit {
      CallsOnlyBelow(executions[..|executions| - 1], limit);
    }
  }

  /** What a plan action or intent names a tool for. */
  predicate Speaks(request: Option<ToolRequest>) { request.Some? && request.value.name != "" }

  /** The invocation carries what was requested, under the identifier of who requested it. */
  predicate Carries(cs: Charset, v: Invocation, id: string, t: ToolRequest) {
    && v.toolName == Strip(cs, t.name) && v.arguments == t.arguments && v.actionId == id
    && v.kind == t.kind && v.sandboxed == t.sandboxed && v.tags == t.tags
  }

  predicate ActionSpeaks(a: PlanAction) { Speaks(a.request) }

  lemma {:induction false} ActionsAreCarried(cs: Charset, actions: seq<PlanAction>)
    ensures var vs, speaking := ActionInvocations(cs, actions), Filter(actions, ActionSpeaks);
            && |vs| == |speaking|
            && forall i :: 0 <= i < |vs| ==> Speaks(speaking[i].request) && Carries(cs, vs[i], speaking[i].id, speaking[i].request.value)
  {
    if actions != [] {
      var front, last := actions[..|actions| - 1], actions[|actions| - 1];
      assert actions == front + [last];
      ActionsAreCarried(cs, front);
      FilterConcat(front, [last], ActionSpeaks);
      LastSpeaks(last);
      hide Filter, Strip;
    }
  }

  lemma LastSpeaks(a: PlanAction)
    ensures Filter([a], ActionSpeaks) == if Speaks(a.request) then [a] else []
  {
    assert [a][1..] == [];
    assert Filter([a], ActionSpeaks) == (if ActionSpeaks([a][0]) then [[a][0]] else []) + Filter([a][1..], ActionSpeaks);
  }

  lemma RequestIsCarried(cs: Charset, id: string, request: Option<ToolRequest>)
    ensures if Speaks(request) then |Request(cs, id, request)| == 1 && Carries(cs, Request(cs, id, request)[0], id, request.value)
            else Request(cs, id, request) == []
    ensures Speaks(request) ==> request.Some?
  {
  }

  /**
   * The invocations of a plan are exactly its requests: the intent's first, if
   * it requires an external tool and names one, then those of the actions
   * that name one, in order; each carries what was requested.
   */
  lemma PlanIsCollected(cs: Charset, plan: Plan)
    ensures var vs, speaking := ToolInvocations(cs, plan), Filter(plan.actions, ActionSpeaks);
            var lead := if plan.intent.Some? && plan.intent.value.requiresExternalTool && Speaks(plan.intent.value.request)
                        then 1 else 0;
            && |vs| == lead + |speaking|
            && (lead == 1 ==> Carries(cs, vs[0], plan.id, plan.intent.value.request.value))
            && forall i :: 0 <= i < |speaking| ==>
                 Speaks(speaking[i].request) && Carries(cs, vs[lead + i], speaking[i].id, speaking[i].request.value)
  {
    hide Filter, Strip, ActionInvocations, Speaks, Carries;
    ActionsAreCarried(cs, plan.actions);
    if plan.intent.Some? {
      RequestIsCarried(cs, plan.id, plan.intent.value.request);
    }
  }

  /**
   * For plans of any length at most `max_tool_invocations` handlers run, only
   * for invocations that passed every gate, each on its sanitised copy; and
   * none at all when external actions are off.
   */
  lemma PlansAreBounded(cs: Charset, eq: Equality, r: Registry, p: Policy, plan: Plan)
    ensures var out := ExecutePlan(cs, eq, r, p, plan);
            var vs := ToolInvocations(cs, plan);
            && |out.executions| == |vs|
            && (CallsOf(out.executions) == [] || |CallsOf(out.executions)| <= p.maxInvocations)
            && (!p.allowExternal ==> CallsOf(out.executions) == [])
            && forall i :: 0 <= i < |vs| ==>
                 && (out.executions[i].call.Some? <==> Cleared(eq, r, p, vs[i], i))
                 && (out.executions[i].call.Some? ==> SanitizedCopy(vs[i], out.executions[i].call.value))
  {
    hide ExecuteTool, SanitizedCopy;
    var vs := ToolInvocations(cs, plan);
    var es := ExecuteAll(eq, r, p, vs);
    forall i | 0 <= i < |vs|
      ensures es[i].call.Some? <==> Cleared(eq, r, p, vs[i], i)
      ensures es[i].call.Some? ==> SanitizedCopy(vs[i], es[i].call.value)
    {
      GatesDecide(eq, r, p, vs[i], i);
    }
    CallsOnlyBelow(es, p.Limit());
    if !p.allowExternal {
      CallsOnlyBelow(es, 0);
    }
  }

  lemma StepKinds(plan: Plan, executions: seq<Execution>)
    ensures executions != [] ==> NoOp !in ToolSteps(executions) && Partial !in ToolSteps(executions)
  {
    forall s | s in ToolSteps(executions) ensures s != NoOp && s != Partial {
      var i :| 0 <= i < |executions| && ToolSteps(executions)[i] == s;
    }
  }

  /**
   * The aggregate status, read off the plan and the tool results: PARTIAL and
   * NO_OP arise only for a plan with nothing to do, and tell its intents
   * apart.
   */
  lemma AggregateMeaning(cs: Charset, eq: Equality, r: Registry, p: Policy, plan: Plan)
    ensures var out := ExecutePlan(cs, eq, r, p, plan);
            var vs := ToolInvocations(cs, plan);
            && (out.status == Partial <==> vs == [] && plan.actions == [] && IntentKind(plan) != "no_op")
            && (out.status == NoOp <==> vs == [] && plan.actions == [] && IntentKind(plan) == "no_op")
            && (out.status == Failed <==> exists i :: 0 <= i < |vs| && out.executions[i].status == ToolFailed)
            && (out.status == Success <==>
                  if vs == [] then plan.actions != []
                  else forall i :: 0 <= i < |vs| ==> out.executions[i].status == ToolSuccess)
  {
    hide ExecuteTool, ToolInvocations, IntentKind;
    var out := ExecutePlan(cs, eq, r, p, plan);
    var vs, es, steps := ToolInvocations(cs, plan), out.executions, out.steps;
    if vs == [] {
      if plan.actions != [] {
        assert steps[0] == Success;
        assert Elements(steps) == {Success};
      } else {
        assert steps == [NoOp];
        assert NoOp in Elements(steps);
      }
    } else {
      StepKinds(plan, es);
      SuccessOnly(steps);
      assert forall i :: 0 <= i < |vs| ==> steps[i] == StatusFromTool(es[i].status);
      if i :| 0 <= i < |vs| && es[i].status == ToolFailed {
        assert steps[i] == Failed;
      }
      if Failed in steps {
        var i :| 0 <= i < |steps| && steps[i] == Failed;
        assert es[i].status == ToolFailed;
      }
      NoOtherStatus(steps);
    }
  }

  lemma SuccessOnly(steps: seq<StepStatus>)
    requires steps != []
    ensures Elements(steps) == {Success} <==> forall i :: 0 <= i < |steps| ==> steps[i] == Success
  {
    if forall i :: 0 <= i < |steps| ==> steps[i] == Success {
      assert steps[0] in Elements(steps);
    } else {
      var i :| 0 <= i < |steps| && steps[i] != Success;
      assert steps[i] in Elements(steps);
    }
  }

  lemma NoOtherStatus(steps: seq<StepStatus>)
    requires steps != [] && NoOp !in steps && Partial !in steps
    ensures Elements(steps) == {Success} || Failed in steps || Blocked in steps
  {
    SuccessOnly(steps);
    if Failed !in steps && Blocked !in steps {
      forall i | 0 <= i < |steps| ensures steps[i] == Success {
        assert steps[i] in steps;
      }
    }
  }
}
