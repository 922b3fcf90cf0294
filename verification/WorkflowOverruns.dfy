/**
 * Runs that exceed the correction budgets, for every budget and route that
 * allows it, and with them the exact conditions under which no run does.
 */
module WorkflowOverruns {
  import opened Options
  import opened Text
  import opened WorkflowModel
  import opened WorkflowTheorems
  import opened WorkflowLedger
  import opened WorkflowRuns
  import opened WorkflowScenes
  import opened WorkflowBudgets

  // ---- scripts -------------------------------------------------------------------------

  function SceneView(task: TaskKind, profile: Profile, advice: Option<Advice>, gate: Option<Gate>): View {
    View("", profile == PrimaFull, task == ToolRequest, None, None, gate, advice, advice, false, None, "", 0.0, false)
  }

  /** Controllers that always return, with this advice and this gate result at each call. */
  function Play(task: TaskKind, profile: Profile, advice: nat -> Option<Advice>, gate: nat -> Option<Gate>): nat -> Reply {
    (call: nat) => Return(SceneView(task, profile, advice(call), gate(call)))
  }

  function NoGate(): nat -> Option<Gate> { (call: nat) => None }

  /** From call `from` on the gate asks for as many retries as the budget has. */
  function RetryingGate(from: nat, limit: int): nat -> Option<Gate> {
    (call: nat) => if call >= from then Some(Gate(Some(RetryRetrieval), limit)) else None
  }

  lemma PlayServes(task: TaskKind, profile: Profile, advice: nat -> Option<Advice>, gate: nat -> Option<Gate>)
    ensures ScriptServes(task, profile, Play(task, profile, advice, gate))
    ensures Serves(task, profile, SceneView(task, profile, None, None))
  {
    forall i: nat ensures Serves(task, profile, Play(task, profile, advice, gate)(i).view) {
      assert Play(task, profile, advice, gate)(i) == Return(SceneView(task, profile, advice(i), gate(i)));
    }
  }

  /** The call is answered with this advice and no gate result. */
  predicate Advises(task: TaskKind, profile: Profile, reply: Reply, advice: Option<Advice>) {
    reply == Return(SceneView(task, profile, advice, None))
  }

  /** The call is answered without a gate result. */
  predicate IsOpen(task: TaskKind, profile: Profile, reply: Reply) {
    reply.Return? && Unguarded(reply.view) && Serves(task, profile, reply.view) && !reply.view.hasActionResult
  }

  /** The call is answered by a gate that asks for another retry. */
  predicate AsksForRetry(reply: Reply, limit: int) {
    reply.Return? && !reply.view.cancelRequested && reply.view.gate == Some(Gate(Some(RetryRetrieval), limit))
  }

  function Opening(task: TaskKind, profile: Profile, route: seq<Phase>): Machine {
    Begin(SceneView(task, profile, None, None), FRESH_LEDGER, Input, route)
  }

  lemma OpeningAt(task: TaskKind, profile: Profile, route: seq<Phase>)
    ensures var m := Opening(task, profile, route);
            Ready(m) && Unguarded(m.view) && At(m) == Position(route, 0, 0, 0, 0, {}, 0, 0)
  {
  }

  /** A lead without checks is worked off and leaves its generations counted. */
  lemma OpeningStretch(cfg: Config, task: TaskKind, profile: Profile, script: nat -> Reply, lead: seq<Phase>, tail: seq<Phase>)
    returns (n: Machine)
    requires forall p :: p in lead ==> IsQuiet(p) || p == ExecutionDecision
    requires forall i :: 0 <= i < |lead| ==> IsOpen(task, profile, script(i))
    ensures Ready(n) && Unguarded(n.view)
    ensures At(n) == Position(tail, |lead|, Generations(lead), 0, 0, {}, 0, 0)
    ensures Loop(cfg, script, Opening(task, profile, lead + tail)) == Loop(cfg, script, n)
  {
    hide Loop, Opening, Generations;
    OpeningAt(task, profile, lead + tail);
    n := Stretch(cfg, script, Opening(task, profile, lead + tail), lead, tail);
  }

  lemma GatedLead()
    ensures forall p :: p in GATED_LEAD ==> IsQuiet(p) || p == ExecutionDecision
    ensures Generations(GATED_LEAD) == 0
  {
    hide Generations;
    NoGenerations(GATED_LEAD);
  }

  // ---- the gate's own retries -----------------------------------------------------------------

  /** Once the gate keeps asking, it gets every retry of the budget, whatever the corrections had before. */
  lemma {:induction false} Storm(cfg: Config, script: nat -> Reply, m: Machine, lead: seq<Phase>, rest: seq<Phase>)
    requires Ready(m) && At(m).todo == lead + ([ExecutionDecision] + rest)
    requires forall p :: p in lead ==> IsPlain(p)
    requires forall i :: i >= m.calls ==> AsksForRetry(script(i), cfg.budget.maxRetrievalRetries)
    ensures Loop(cfg, script, m).ledger.gateRetries >= cfg.budget.maxRetrievalRetries
    ensures Loop(cfg, script, m).ledger.correctionRetries >= m.ledger.correctionRetries
    decreases Room(cfg.budget.maxRetrievalRetries, m.ledger.gateRetries), |lead|
  {
    hide Step, Loop, Quota;
    var n := Step(cfg, script, m);
    if lead != [] {
      assert lead[0] in lead;
      assert At(m).todo[0] == lead[0] && At(m).todo[1..] == lead[1..] + ([ExecutionDecision] + rest);
      QuietTurn(cfg, script, m);
      Storm(cfg, script, n, lead[1..], rest);
    } else {
      assert At(m).todo[0] == ExecutionDecision && At(m).todo[1..] == rest;
      DecisionTurn(cfg, script, m);
      if m.ledger.gateRetries < cfg.budget.maxRetrievalRetries {
        assert GATE_RETRY_ROUTE + rest == GATE_RETRY_ROUTE[..4] + ([ExecutionDecision] + rest);
        assert !n.view.cancelRequested;
        Storm(cfg, script, n, GATE_RETRY_ROUTE[..4], rest);
      } else {
        LoopCountersGrow(cfg, script, n);
      }
    }
  }

  const RETRY := Proposal(RetryTransientFailure, "")
  const REPLAN := Proposal(Replan, "")

  /** A transient-failure retry at the first check. */
  function OneRetry(first: nat): nat -> Option<Advice> {
    (call: nat) => if call == first then Some(RETRY) else None
  }

  /** The same, and a replan at the check after it. */
  function RetryThenReplan(first: nat): nat -> Option<Advice> {
    (call: nat) => if call == first then Some(RETRY) else if call == first + 3 then Some(REPLAN) else None
  }

  function OverrunScript(b: Budget, task: TaskKind, profile: Profile): nat -> Reply {
    if ShapeOf(task, profile) == Gated then
      Play(task, profile, OneRetry(7), RetryingGate(8, b.maxRetrievalRetries))
    else
      var first := |AnsweringLead(profile)|;
      Play(task, profile, RetryThenReplan(first), RetryingGate(first + 4, b.maxRetrievalRetries))
  }

  /** From `m` on, one retry was corrected and its phases now lead the list. */
  ghost predicate Retried(profile: Profile, m: Machine, n: Machine, rest: seq<Phase>) {
    && Ready(n) && Unguarded(n.view)
    && n.ledger.correctionRetries == 1 && n.ledger.interventions == 1 && n.ledger.replans == 0 && n.calls == m.calls + 1
    && (forall s :: s in n.ledger.signatures ==> s.0 == RetryTransientFailure)
    && At(n).todo == (if profile == PrimaFull then GATE_RETRY_ROUTE + [Reflection]
                      else [EvidenceAcquisition, AnswerGeneration, OutputValidation]) + rest
  }

  /** The retry is the first correction of its run and finds room. */
  lemma RetryTurn(cfg: Config, task: TaskKind, profile: Profile, script: nat -> Reply, m: Machine, rest: seq<Phase>)
    returns (n: Machine)
    requires cfg.budget.Valid() && cfg.budget.maxRetrievalRetries > 0 && cfg.budget.maxInterventions > 0
    requires Ready(m) && Unguarded(m.view) && Advises(task, profile, script(m.calls), Some(RETRY))
    requires exists check :: IsCheck(check) && (profile == PrimaFull ==> check == Reflection) && At(m).todo == [check] + rest
    requires At(m) == Position(At(m).todo, m.calls, m.ledger.generations, 0, 0, {}, 0, 0)
    ensures Retried(profile, m, n, rest)
    ensures Loop(cfg, script, m) == Loop(cfg, script, n)
  {
    hide Step, Loop, Quota, Collapse, Lower;
    assert At(m).todo[1..] == rest && IsCheck(At(m).todo[0]);
    CheckTurn(cfg, script, m, RetryTransientFailure, "");
    n := Step(cfg, script, m);
    assert GATE_RETRY_ROUTE + [Reflection] + [] == GATE_RETRY_ROUTE + [Reflection];
  }

  lemma GatedOverrun(cfg: Config, task: TaskKind, script: nat -> Reply, lead: seq<Phase>, rest: seq<Phase>)
    requires cfg.budget.Valid() && cfg.budget.maxRetrievalRetries > 0 && cfg.budget.maxInterventions > 0
    requires forall p :: p in lead ==> IsQuiet(p) || p == ExecutionDecision
    requires forall i :: 0 <= i < |lead| ==> IsOpen(task, PrimaFull, script(i))
    requires Advises(task, PrimaFull, script(|lead|), Some(RETRY))
    requires forall i :: i > |lead| ==> AsksForRetry(script(i), cfg.budget.maxRetrievalRetries)
    ensures var l := Loop(cfg, script, Opening(task, PrimaFull, lead + ([Reflection] + rest))).ledger;
            l.gateRetries >= cfg.budget.maxRetrievalRetries && l.correctionRetries >= 1
  {
    hide Step, Loop, Quota, Opening, AsksForRetry, Advises, Generations;
    var m1 := OpeningStretch(cfg, task, PrimaFull, script, lead, [Reflection] + rest);
    var m2 := RetryTurn(cfg, task, PrimaFull, script, m1, rest);
    assert At(m2).todo == GATE_RETRY_ROUTE[..4] + ([ExecutionDecision] + ([Reflection] + rest));
    Storm(cfg, script, m2, GATE_RETRY_ROUTE[..4], [Reflection] + rest);
  }

  lemma AnsweringOverrun(
    cfg: Config, task: TaskKind, profile: Profile, script: nat -> Reply, lead: seq<Phase>, rest: seq<Phase>)
    requires cfg.budget.Valid() && cfg.budget.maxRetrievalRetries > 0 && cfg.budget.maxInterventions > 1 && cfg.budget.maxReplans > 0
    requires profile != PrimaFull && forall p :: p in lead ==> IsQuiet(p)
    requires forall i :: 0 <= i < |lead| ==> IsOpen(task, profile, script(i))
    requires Advises(task, profile, script(|lead|), Some(RETRY))
    requires IsOpen(task, profile, script(|lead| + 1)) && IsOpen(task, profile, script(|lead| + 2))
    requires Advises(task, profile, script(|lead| + 3), Some(REPLAN))
    requires forall i :: i >= |lead| + 4 ==> AsksForRetry(script(i), cfg.budget.maxRetrievalRetries)
    ensures var l := Loop(cfg, script, Opening(task, profile, lead + ([OutputValidation] + rest))).ledger;
            l.gateRetries >= cfg.budget.maxRetrievalRetries && l.correctionRetries >= 1
  {
    hide Step, Loop, Quota, Opening, AsksForRetry, Generations, Advises;
    var m1 := OpeningStretch(cfg, task, profile, script, lead, [OutputValidation] + rest);
    var m2 := RetryTurn(cfg, task, profile, script, m1, rest);
    SecondRound(cfg, task, profile, script, m2, rest);
  }

  /** The re-run answer is checked again and replanned. */
  lemma SecondRound(cfg: Config, task: TaskKind, profile: Profile, script: nat -> Reply, m: Machine, rest: seq<Phase>)
    requires cfg.budget.Valid() && cfg.budget.maxInterventions > 1 && cfg.budget.maxReplans > 0
    requires Ready(m) && Unguarded(m.view) && At(m).todo == [EvidenceAcquisition, AnswerGeneration, OutputValidation] + rest
    requires m.ledger.interventions == 1 && m.ledger.replans == 0
    requires forall s :: s in m.ledger.signatures ==> s.0 == RetryTransientFailure
    requires IsOpen(task, profile, script(m.calls)) && IsOpen(task, profile, script(m.calls + 1))
    requires Advises(task, profile, script(m.calls + 2), Some(REPLAN))
    requires forall i :: i >= m.calls + 3 ==> AsksForRetry(script(i), cfg.budget.maxRetrievalRetries)
    ensures Loop(cfg, script, m).ledger.gateRetries >= cfg.budget.maxRetrievalRetries
    ensures Loop(cfg, script, m).ledger.correctionRetries >= m.ledger.correctionRetries
  {
    hide Step, Loop, Quota, AsksForRetry, Generations, Advises;
    assert At(m).todo == [EvidenceAcquisition, AnswerGeneration] + ([OutputValidation] + rest);
    var n := Stretch(cfg, script, m, [EvidenceAcquisition, AnswerGeneration], [OutputValidation] + rest);
    ReplanTurn(cfg, task, profile, script, n, rest);
  }

  lemma ReplanTurn(cfg: Config, task: TaskKind, profile: Profile, script: nat -> Reply, m: Machine, rest: seq<Phase>)
    requires cfg.budget.Valid() && cfg.budget.maxInterventions > 1 && cfg.budget.maxReplans > 0
    requires Ready(m) && Unguarded(m.view) && At(m).todo == [OutputValidation] + rest
    requires m.ledger.interventions == 1 && m.ledger.replans == 0
    requires forall s :: s in m.ledger.signatures ==> s.0 == RetryTransientFailure
    requires Advises(task, profile, script(m.calls), Some(REPLAN))
    requires forall i :: i >= m.calls + 1 ==> AsksForRetry(script(i), cfg.budget.maxRetrievalRetries)
    ensures Loop(cfg, script, m).ledger.gateRetries >= cfg.budget.maxRetrievalRetries
    ensures Loop(cfg, script, m).ledger.correctionRetries >= m.ledger.correctionRetries
  {
    hide Step, Loop, Quota, AsksForRetry, Collapse, Lower, ReplanRoute;
    assert At(m).todo[0] == OutputValidation && At(m).todo[1..] == rest;
    CheckTurn(cfg, script, m, Replan, "");
    ReplanStorm(cfg, script, Step(cfg, script, m), script(m.calls).view, rest);
  }

  lemma ReplanStorm(cfg: Config, script: nat -> Reply, m: Machine, v: View, rest: seq<Phase>)
    requires Ready(m) && At(m).todo == ReplanRoute(v, PostExecution) + rest
    requires forall i :: i >= m.calls ==> AsksForRetry(script(i), cfg.budget.maxRetrievalRetries)
    ensures Loop(cfg, script, m).ledger.gateRetries >= cfg.budget.maxRetrievalRetries
    ensures Loop(cfg, script, m).ledger.correctionRetries >= m.ledger.correctionRetries
  {
    hide ExecutionTail, Loop;
    var tail := [Reflection] + ExecutionTail(v) + rest;
    assert GATE_RETRY_ROUTE[1..] == GATE_RETRY_ROUTE[1..4] + [ExecutionDecision];
    assert At(m).todo == GATE_RETRY_ROUTE[1..4] + ([ExecutionDecision] + tail);
    Storm(cfg, script, m, GATE_RETRY_ROUTE[1..4], tail);
  }

  lemma PlayAt(task: TaskKind, profile: Profile, advice: nat -> Option<Advice>, gate: nat -> Option<Gate>, call: nat)
    ensures var r := Play(task, profile, advice, gate)(call);
            && r == Return(SceneView(task, profile, advice(call), gate(call)))
            && (gate(call) == None ==> IsOpen(task, profile, r) && Advises(task, profile, r, advice(call)))
  {
  }

  /**
   * Wherever the condition fails the budget is overrun: this script spends
   * every gate retry and one correction retry on top.
   */
  lemma SharedBudgetCanBeOverrun(cfg: Config, task: TaskKind, profile: Profile)
    requires cfg.budget.Valid() && SelectRoute(task, profile).Some?
    requires !SharesRetrieval(cfg.budget, ShapeOf(task, profile))
    ensures var l := Spent(cfg, task, profile, OverrunScript(cfg.budget, task, profile), SceneView(task, profile, None, None));
            l.correctionRetries + l.gateRetries > cfg.budget.maxRetrievalRetries
  {
    hide SelectRoute, Loop;
    OverrunAnswers(cfg.budget, task, profile);
    var script := OverrunScript(cfg.budget, task, profile);
    hide OverrunScript, Delivery, Opening, AsksForRetry, Advises, IsOpen;
    if ShapeOf(task, profile) == Gated {
      GatedRoute(task, profile);
      GatedLead();
      GatedOverrun(cfg, task, script, GATED_LEAD, (if task == ToolRequest then [Action, OutputValidation]
                                                   else [Action, AnswerGeneration, OutputValidation]) + Delivery(task));
    } else {
      AnsweringRoute(task, profile);
      AnsweringOverrun(cfg, task, profile, script, AnsweringLead(profile), Delivery(task));
    }
    OpeningRuns(cfg, task, profile, script);
  }

  lemma OpeningRuns(cfg: Config, task: TaskKind, profile: Profile, script: nat -> Reply)
    requires SelectRoute(task, profile).Some?
    ensures Spent(cfg, task, profile, script, SceneView(task, profile, None, None))
         == Loop(cfg, script, Opening(task, profile, SelectRoute(task, profile).value)).ledger
  {
    hide SelectRoute, Loop;
    RoutesDeliver(task, profile);
  }

  /** What the script's calls answer. */
  lemma OverrunAnswers(b: Budget, task: TaskKind, profile: Profile)
    ensures var script, limit := OverrunScript(b, task, profile), b.maxRetrievalRetries;
            if ShapeOf(task, profile) == Gated then
              && profile == PrimaFull
              && (forall i: nat :: i < 7 ==> IsOpen(task, profile, script(i)))
              && Advises(task, profile, script(7), Some(RETRY))
              && (forall i: nat :: i > 7 ==> AsksForRetry(script(i), limit))
            else
              var first := |AnsweringLead(profile)|;
              && (forall i: nat :: i < first + 4 ==> IsOpen(task, profile, script(i)))
              && Advises(task, profile, script(first), Some(RETRY)) && Advises(task, profile, script(first + 3), Some(REPLAN))
              && (forall i: nat :: i >= first + 4 ==> AsksForRetry(script(i), limit))
  {
    var limit, first := b.maxRetrievalRetries, |AnsweringLead(profile)|;
    forall i: nat
      ensures var r := Play(task, profile, OneRetry(7), RetryingGate(8, limit))(i);
              if i < 8 then IsOpen(task, profile, r) && Advises(task, profile, r, OneRetry(7)(i)) else AsksForRetry(r, limit)
      ensures var r := Play(task, profile, RetryThenReplan(first), RetryingGate(first + 4, limit))(i);
              if i < first + 4 then IsOpen(task, profile, r) && Advises(task, profile, r, RetryThenReplan(first)(i))
              else AsksForRetry(r, limit)
    {
      PlayAt(task, profile, OneRetry(7), RetryingGate(8, limit), i);
      PlayAt(task, profile, RetryThenReplan(first), RetryingGate(first + 4, limit), i);
    }
  }

  /**
   * For every route of the matrix: no run from fresh counters spends more than
   * `max_retrieval_retries` on gate and corrections together, if and only if
   * that limit is zero, or, on gated routes, no intervention is allowed, or, on
   * answering routes, no replan or at most one intervention is.
   */
  lemma RetrievalBudgetIsSharedIff(cfg: Config, task: TaskKind, profile: Profile)
    requires cfg.budget.Valid() && SelectRoute(task, profile).Some?
    ensures KeepsRetrievalBudget(cfg, task, profile) <==> SharesRetrieval(cfg.budget, ShapeOf(task, profile))
  {
    hide Spent, OverrunScript, SelectRoute, ScriptServes, Serves, SharesRetrieval;
    if SharesRetrieval(cfg.budget, ShapeOf(task, profile)) {
      forall script, v | ScriptServes(task, profile, script) && Serves(task, profile, v)
        ensures var l := Spent(cfg, task, profile, script, v);
                l.correctionRetries + l.gateRetries <= cfg.budget.maxRetrievalRetries
      {
        RetrievalKept(cfg, task, profile, script, v);
      }
    } else {
      OverrunServes(cfg.budget, task, profile);
      SharedBudgetCanBeOverrun(cfg, task, profile);
    }
  }

  lemma OverrunServes(b: Budget, task: TaskKind, profile: Profile)
    ensures ScriptServes(task, profile, OverrunScript(b, task, profile))
    ensures Serves(task, profile, SceneView(task, profile, None, None))
  {
    var first := |AnsweringLead(profile)|;
    PlayServes(task, profile, OneRetry(7), RetryingGate(8, b.maxRetrievalRetries));
    PlayServes(task, profile, RetryThenReplan(first), RetryingGate(first + 4, b.maxRetrievalRetries));
  }

  // ---- generations -----------------------------------------------------------------------------

  /** Pairwise different wordings: the character `c`, `k` times. */
  function Name(c: char, k: nat): string { seq(k, _ => c) }

  lemma {:induction false} NameLength(cs: Charset, c: char, k: nat)
    ensures |Lower(cs, Name(c, k))| == k * |cs.lower(c)|
  {
    if k > 0 {
      assert Name(c, k)[1..] == Name(c, k - 1);
      NameLength(cs, c, k - 1);
    }
  }

  lemma NameCollapses(cs: Charset, c: char, k: nat)
    requires !cs.isSpace(c)
    ensures Collapse(cs, Name(c, k)) == Name(c, k)
  {
    if k > 0 {
      WordsOfWordFirst(cs, Name(c, k), "");
      assert Name(c, k) + "" == Name(c, k);
      assert [Name(c, k)] + [] == [Name(c, k)];
    }
  }

  /** All signatures so far are regenerations, with shorter wordings than any a later call brings. */
  ghost predicate Shorter(cs: Charset, c: char, m: Machine) {
    forall s :: s in m.ledger.signatures ==> s.0 == Regenerate && |s.1| < m.calls * |cs.lower(c)|
  }

  function Regeneration(c: char, call: nat): Advice { Proposal(Regenerate, Name(c, call)) }

  lemma NameSignature(cs: Charset, c: char, m: Machine)
    requires cs.Valid() && !cs.isSpace(c)
    ensures var s := Signature(cs, Regenerate, Collapse(cs, Name(c, m.calls)));
            s.0 == Regenerate && |s.1| == m.calls * |cs.lower(c)| && (Shorter(cs, c, m) ==> s !in m.ledger.signatures)
  {
    NameCollapses(cs, c, m.calls);
    NameLength(cs, c, m.calls);
  }

  lemma ProductGrows(a: nat, b: nat, k: nat)
    requires a < b && k > 0
    ensures a * k < b * k
  {
  }

  /** From `m` on, `count` regenerations were made, each of two calls, and `todo` is left. */
  ghost predicate Regenerated(cs: Charset, c: char, m: Machine, n: Machine, todo: seq<Phase>, count: nat) {
    && Ready(m) && Ready(n) && Unguarded(n.view) && Shorter(cs, c, n)
    && At(n) == At(m).(todo := todo, calls := m.calls + 2 * count, generations := m.ledger.generations + count,
                       interventions := m.ledger.interventions + count, signatures := n.ledger.signatures)
  }

  /** A check at which REGENERATE is proposed and there is room: one more generation, and the check comes again. */
  lemma Round(cfg: Config, script: nat -> Reply, m: Machine, c: char, rest: seq<Phase>) returns (n: Machine)
    requires cfg.budget.Valid() && cfg.text.Valid() && !cfg.text.isSpace(c)
    requires Ready(m) && Unguarded(m.view) && At(m).todo != [] && IsCheck(At(m).todo[0]) && At(m).todo[1..] == rest
    requires Shorter(cfg.text, c, m) && HasRoom(cfg, At(m), Regenerate)
    requires forall i :: m.calls <= i <= m.calls + 1 ==> script(i).Return? && Unguarded(script(i).view)
    requires PhaseAdvice(script(m.calls).view, At(m).todo[0]) == Some(Regeneration(c, m.calls))
    ensures Regenerated(cfg.text, c, m, n, [OutputValidation] + rest, 1)
    ensures Loop(cfg, script, m) == Loop(cfg, script, n)
  {
    hide Step, Loop, Quota, Collapse, Lower, Signature;
    NameSignature(cfg.text, c, m);
    CheckTurn(cfg, script, m, Regenerate, Name(c, m.calls));
    var m1 := Step(cfg, script, m);
    assert At(m1).todo == [AnswerGeneration] + ([OutputValidation] + rest);
    n := Stretch(cfg, script, m1, [AnswerGeneration], [OutputValidation] + rest);
    assert Generations([AnswerGeneration]) == 1;
    assert cfg.text.lower(c) != "";
    ProductGrows(m.calls, m.calls + 2, |cfg.text.lower(c)|);
  }

  /** As many such rounds as there is room for. */
  lemma {:induction false} Rounds(cfg: Config, script: nat -> Reply, m: Machine, c: char, rest: seq<Phase>, count: nat)
    returns (n: Machine)
    requires cfg.budget.Valid() && cfg.text.Valid() && !cfg.text.isSpace(c)
    requires Ready(m) && Unguarded(m.view) && At(m).todo == [OutputValidation] + rest && Shorter(cfg.text, c, m)
    requires m.ledger.generations + count <= cfg.budget.maxGenerations
    requires m.ledger.interventions + count <= cfg.budget.maxInterventions
    requires forall i :: m.calls <= i < m.calls + 2 * count ==> script(i).Return? && Unguarded(script(i).view)
    requires forall i :: m.calls <= i < m.calls + 2 * count ==> script(i).view.validationAdvice == Some(Regeneration(c, i))
    ensures Regenerated(cfg.text, c, m, n, [OutputValidation] + rest, count)
    ensures Loop(cfg, script, m) == Loop(cfg, script, n)
    decreases count
  {
    hide Step, Loop, Quota, Shorter;
    if count == 0 {
      n := m;
    } else {
      assert At(m).todo[1..] == rest;
      var next := Round(cfg, script, m, c, rest);
      n := Rounds(cfg, script, next, c, rest, count - 1);
    }
  }

  /** REGENERATE, worded anew, at every check. */
  function AlwaysRegenerate(c: char): nat -> Option<Advice> {
    (call: nat) => Some(Regeneration(c, call))
  }

  /** REGENERATE up to call `until`, then one correction that is not held to the generation limit. */
  function RegenerateUntil(c: char, until: nat, last: Advice): nat -> Option<Advice> {
    (call: nat) => if call < until then Some(Regeneration(c, call)) else if call == until then Some(last) else None
  }

  /** The last correction of an answering overrun: whichever budget is there. */
  function LastCorrection(b: Budget): Advice { if b.maxRetrievalRetries > 0 then RETRY else REPLAN }

  function GenerationScript(b: Budget, task: TaskKind, profile: Profile, c: char): nat -> Reply {
    if ShapeOf(task, profile) == Gated then Play(task, profile, AlwaysRegenerate(c), NoGate())
    else
      var until := |AnsweringLead(profile)| + if b.maxGenerations >= 1 then 2 * (b.maxGenerations - 1) else 0;
      Play(task, profile, RegenerateUntil(c, until, LastCorrection(b)), NoGate())
  }

  /**
   * Reflection comes before the routed generation, so REGENERATE is accepted
   * while that generation is still listed: the limit is passed by the one the
   * budget test cannot see.
   */
  lemma GatedGenerationOverrun(cfg: Config, task: TaskKind, script: nat -> Reply, c: char, lead: seq<Phase>, rest: seq<Phase>)
    requires cfg.budget.Valid() && cfg.text.Valid() && !cfg.text.isSpace(c)
    requires cfg.budget.maxInterventions >= cfg.budget.maxGenerations
    requires (forall p :: p in lead ==> IsQuiet(p) || p == ExecutionDecision) && Generations(lead) == 0
    requires forall i: nat :: IsOpen(task, PrimaFull, script(i)) && Advises(task, PrimaFull, script(i), Some(Regeneration(c, i)))
    ensures var route := lead + ([Reflection] + ([Action, AnswerGeneration] + rest));
            Loop(cfg, script, Opening(task, PrimaFull, route)).ledger.generations > cfg.budget.maxGenerations
  {
    hide Step, Loop, Quota, Opening, Shorter, Collapse, Lower, Generations;
    var tail := [Action, AnswerGeneration] + rest;
    var m1 := OpeningStretch(cfg, task, PrimaFull, script, lead, [Reflection] + tail);
    assert At(m1).todo[0] == Reflection && At(m1).todo[1..] == tail;
    NothingSigned(cfg.text, c, m1);
    var m2 := Round(cfg, script, m1, c, tail);
    RoundsToTheLimit(cfg, task, script, m2, c, rest);
  }

  lemma RoundsToTheLimit(cfg: Config, task: TaskKind, script: nat -> Reply, m: Machine, c: char, rest: seq<Phase>)
    requires cfg.budget.Valid() && cfg.text.Valid() && !cfg.text.isSpace(c)
    requires cfg.budget.maxInterventions >= cfg.budget.maxGenerations
    requires forall i: nat :: IsOpen(task, PrimaFull, script(i)) && Advises(task, PrimaFull, script(i), Some(Regeneration(c, i)))
    requires Ready(m) && Unguarded(m.view) && Shorter(cfg.text, c, m)
    requires At(m).todo == [OutputValidation] + ([Action, AnswerGeneration] + rest)
    requires m.ledger.generations == 1 && m.ledger.interventions == 1
    ensures Loop(cfg, script, m).ledger.generations > cfg.budget.maxGenerations
  {
    hide Loop, Shorter;
    var n := Rounds(cfg, script, m, c, [Action, AnswerGeneration] + rest, cfg.budget.maxGenerations - 1);
    RefusedRound(cfg, script, n, c, rest);
  }

  lemma NothingSigned(cs: Charset, c: char, m: Machine)
    requires m.ledger.signatures == {}
    ensures Shorter(cs, c, m)
  {
  }

  /** At the limit the check refuses, and the generation listed behind it runs all the same. */
  lemma RefusedRound(cfg: Config, script: nat -> Reply, m: Machine, c: char, rest: seq<Phase>)
    requires cfg.budget.Valid() && cfg.text.Valid() && !cfg.text.isSpace(c)
    requires Ready(m) && Unguarded(m.view) && At(m).todo == [OutputValidation] + ([Action, AnswerGeneration] + rest)
    requires m.ledger.generations == cfg.budget.maxGenerations && Shorter(cfg.text, c, m)
    requires forall i :: m.calls <= i <= m.calls + 2 ==> script(i).Return? && Unguarded(script(i).view)
    requires script(m.calls).view.validationAdvice == Some(Regeneration(c, m.calls))
    ensures Loop(cfg, script, m).ledger.generations > cfg.budget.maxGenerations
  {
    hide Step, Loop, Quota, Collapse, Lower, Signature, Shorter;
    var tail := [Action, AnswerGeneration] + rest;
    assert At(m).todo[0] == OutputValidation && At(m).todo[1..] == tail;
    NameSignature(cfg.text, c, m);
    CheckTurn(cfg, script, m, Regenerate, Name(c, m.calls));
    var n := Stretch(cfg, script, Step(cfg, script, m), [Action, AnswerGeneration], rest);
    ActionAndAnswer();
    LoopCountersGrow(cfg, script, n);
  }

  lemma ActionAndAnswer()
    ensures Generations([Action, AnswerGeneration]) == 1 && Generations([EvidenceAcquisition, AnswerGeneration]) == 1
  {
    assert [Action, AnswerGeneration][1..] == [AnswerGeneration];
    assert [EvidenceAcquisition, AnswerGeneration][1..] == [AnswerGeneration];
    assert Generations([AnswerGeneration]) == 1;
  }

  /** On an answering route the regenerations stop at the limit, and a correction of another kind brings one more. */
  lemma AnsweringGenerationOverrun(
    cfg: Config, task: TaskKind, profile: Profile, script: nat -> Reply, c: char, lead: seq<Phase>, rest: seq<Phase>)
    requires cfg.budget.Valid() && cfg.text.Valid() && !cfg.text.isSpace(c)
    requires cfg.budget.maxInterventions >= cfg.budget.maxGenerations
    requires cfg.budget.maxRetrievalRetries > 0 || cfg.budget.maxReplans > 0
    requires profile != PrimaFull && task != ToolRequest
    requires (forall p :: p in lead ==> IsQuiet(p)) && Generations(lead) == 1
    requires forall i: nat :: IsOpen(task, profile, script(i))
    requires var until := |lead| + 2 * (cfg.budget.maxGenerations - 1);
             forall i: nat :: Advises(task, profile, script(i), RegenerateUntil(c, until, LastCorrection(cfg.budget))(i))
    ensures Loop(cfg, script, Opening(task, profile, lead + ([OutputValidation] + rest))).ledger.generations
          > cfg.budget.maxGenerations
  {
    hide Step, Loop, Quota, Opening, Shorter, Collapse, Lower, Generations;
    var m1 := OpeningStretch(cfg, task, profile, script, lead, [OutputValidation] + rest);
    NothingSigned(cfg.text, c, m1);
    var m2 := Rounds(cfg, script, m1, c, rest, cfg.budget.maxGenerations - 1);
    OnlyRegenerated(cfg.text, c, m2);
    LastRound(cfg, task, profile, script, m2, rest);
  }

  lemma OnlyRegenerated(cs: Charset, c: char, m: Machine)
    requires Shorter(cs, c, m)
    ensures forall s :: s in m.ledger.signatures ==> s.0 == Regenerate
  {
  }

  lemma LastRound(
    cfg: Config, task: TaskKind, profile: Profile, script: nat -> Reply, m: Machine, rest: seq<Phase>)
    requires cfg.budget.Valid() && (cfg.budget.maxRetrievalRetries > 0 || cfg.budget.maxReplans > 0)
    requires Ready(m) && Unguarded(m.view) && At(m).todo == [OutputValidation] + rest
    requires m.ledger.generations == cfg.budget.maxGenerations && m.ledger.interventions < cfg.budget.maxInterventions
    requires m.ledger.correctionRetries == m.ledger.gateRetries == m.ledger.replans == 0
    requires forall s :: s in m.ledger.signatures ==> s.0 == Regenerate
    requires profile != PrimaFull && task != ToolRequest
    requires forall i :: i >= m.calls ==> IsOpen(task, profile, script(i))
    requires Advises(task, profile, script(m.calls), Some(LastCorrection(cfg.budget)))
    requires forall i :: i > m.calls ==> Advises(task, profile, script(i), None)
    ensures Loop(cfg, script, m).ledger.generations > cfg.budget.maxGenerations
  {
    hide Step, Loop, Quota, Collapse, Lower, Generations;
    assert At(m).todo[0] == OutputValidation && At(m).todo[1..] == rest;
    ActionAndAnswer();
    if cfg.budget.maxRetrievalRetries > 0 {
      CheckTurn(cfg, script, m, RetryTransientFailure, "");
      var n := Step(cfg, script, m);
      assert At(n).todo == [EvidenceAcquisition, AnswerGeneration] + ([OutputValidation] + rest);
      n := Stretch(cfg, script, n, [EvidenceAcquisition, AnswerGeneration], [OutputValidation] + rest);
      LoopCountersGrow(cfg, script, n);
    } else {
      CheckTurn(cfg, script, m, Replan, "");
      ReplannedAnswer(cfg, task, profile, script, Step(cfg, script, m), script(m.calls).view, rest);
    }
  }

  lemma ReplannedAnswer(
    cfg: Config, task: TaskKind, profile: Profile, script: nat -> Reply, m: Machine, v: View, rest: seq<Phase>)
    requires Ready(m) && Unguarded(m.view) && At(m).todo == ReplanRoute(v, PostExecution) + rest && !v.toolTask
    requires forall i :: i >= m.calls ==> IsOpen(task, profile, script(i)) && Advises(task, profile, script(i), None)
    ensures Loop(cfg, script, m).ledger.generations > m.ledger.generations
  {
    hide Step, Loop, Quota, Generations;
    var lead, tail := GATE_RETRY_ROUTE[1..], [Action, AnswerGeneration] + ([OutputValidation] + rest);
    assert At(m).todo == lead + ([Reflection] + tail);
    ReplannedTail(cfg, task, profile, script, m, lead, [OutputValidation] + rest);
  }

  lemma ReplannedTail(
    cfg: Config, task: TaskKind, profile: Profile, script: nat -> Reply, m: Machine, lead: seq<Phase>, rest: seq<Phase>)
    requires Ready(m) && Unguarded(m.view) && At(m).todo == lead + ([Reflection] + ([Action, AnswerGeneration] + rest))
    requires forall p :: p in lead ==> IsQuiet(p) || p == ExecutionDecision
    requires forall i :: i >= m.calls ==> IsOpen(task, profile, script(i)) && Advises(task, profile, script(i), None)
    ensures Loop(cfg, script, m).ledger.generations > m.ledger.generations
  {
    hide Step, Loop, Quota, Generations;
    var tail := [Action, AnswerGeneration] + rest;
    var n := Stretch(cfg, script, m, lead, [Reflection] + tail);
    assert At(n).todo[0] == Reflection && At(n).todo[1..] == tail;
    IdleCheckTurn(cfg, script, n);
    ActionAndAnswer();
    n := Stretch(cfg, script, Step(cfg, script, n), [Action, AnswerGeneration], rest);
    LoopCountersGrow(cfg, script, n);
  }

  /** Wherever the condition fails, this script generates more often than the limit. */
  lemma GenerationBudgetCanBeOverrun(cfg: Config, task: TaskKind, profile: Profile, c: char)
    requires cfg.budget.Valid() && cfg.text.Valid() && !cfg.text.isSpace(c) && SelectRoute(task, profile).Some?
    requires !KeepsGenerations(cfg.budget, task, ShapeOf(task, profile))
    ensures Spent(cfg, task, profile, GenerationScript(cfg.budget, task, profile, c), SceneView(task, profile, None, None)).generations
          > cfg.budget.maxGenerations
  {
    hide SelectRoute, Loop;
    GenerationAnswers(cfg.budget, task, profile, c);
    var script := GenerationScript(cfg.budget, task, profile, c);
    hide GenerationScript, Delivery, Opening, Advises, IsOpen;
    if ShapeOf(task, profile) == Gated {
      GatedLead();
      GeneratingRoute(task, profile);
      GatedGenerationOverrun(cfg, task, script, c, GATED_LEAD, [OutputValidation] + Delivery(task));
    } else {
      AnsweringRoute(task, profile);
      LeadGenerates(profile);
      AnsweringGenerationOverrun(cfg, task, profile, script, c, AnsweringLead(profile), Delivery(task));
    }
    OpeningRuns(cfg, task, profile, script);
  }

  lemma GeneratingRoute(task: TaskKind, profile: Profile)
    requires SelectRoute(task, profile).Some? && ShapeOf(task, profile) == Gated && task != ToolRequest
    ensures SelectRoute(task, profile).value
         == GATED_LEAD + ([Reflection] + ([Action, AnswerGeneration] + ([OutputValidation] + Delivery(task))))
  {
    GatedRoute(task, profile);
    hide SelectRoute, Delivery;
    assert [Action, AnswerGeneration, OutputValidation] + Delivery(task)
        == [Action, AnswerGeneration] + ([OutputValidation] + Delivery(task));
  }

  /** What the script's calls answer. */
  lemma GenerationAnswers(b: Budget, task: TaskKind, profile: Profile, c: char)
    requires b.Valid()
    ensures var script := GenerationScript(b, task, profile, c);
            && (forall i: nat :: IsOpen(task, profile, script(i)))
            && if ShapeOf(task, profile) == Gated then
                 profile == PrimaFull && forall i: nat :: Advises(task, profile, script(i), Some(Regeneration(c, i)))
               else
                 var until := |AnsweringLead(profile)| + 2 * (b.maxGenerations - 1);
                 forall i: nat :: Advises(task, profile, script(i), RegenerateUntil(c, until, LastCorrection(b))(i))
  {
    var until := |AnsweringLead(profile)| + 2 * (b.maxGenerations - 1);
    forall i: nat
      ensures var r := Play(task, profile, AlwaysRegenerate(c), NoGate())(i);
              IsOpen(task, profile, r) && Advises(task, profile, r, Some(Regeneration(c, i)))
      ensures var advice := RegenerateUntil(c, until, LastCorrection(b));
              var r := Play(task, profile, advice, NoGate())(i);
              IsOpen(task, profile, r) && Advises(task, profile, r, advice(i))
    {
      PlayAt(task, profile, AlwaysRegenerate(c), NoGate(), i);
      PlayAt(task, profile, RegenerateUntil(c, until, LastCorrection(b)), NoGate(), i);
    }
  }

  /**
   * For every route of the matrix and every charset with a character that is
   * no white space: no run from fresh counters generates more than
   * `max_generations` times, if and only if fewer interventions than
   * generations are allowed, or, failing that, the route never generates on
   * its own and is a tool request or has no checks, or it answers without a
   * reflection and neither retrieval retries nor replans are allowed.
   */
  lemma GenerationBudgetIsKeptIff(cfg: Config, task: TaskKind, profile: Profile, c: char)
    requires cfg.budget.Valid() && cfg.text.Valid() && !cfg.text.isSpace(c) && SelectRoute(task, profile).Some?
    ensures KeepsGenerationBudget(cfg, task, profile) <==> KeepsGenerations(cfg.budget, task, ShapeOf(task, profile))
  {
    hide Spent, GenerationScript, SelectRoute, ScriptServes, Serves, KeepsGenerations;
    if KeepsGenerations(cfg.budget, task, ShapeOf(task, profile)) {
      forall script, v | ScriptServes(task, profile, script) && Serves(task, profile, v)
        ensures Spent(cfg, task, profile, script, v).generations <= cfg.budget.maxGenerations
      {
        GenerationsKept(cfg, task, profile, script, v);
      }
    } else {
      GenerationScriptServes(cfg.budget, task, profile, c);
      GenerationBudgetCanBeOverrun(cfg, task, profile, c);
    }
  }

  lemma GenerationScriptServes(b: Budget, task: TaskKind, profile: Profile, c: char)
    ensures ScriptServes(task, profile, GenerationScript(b, task, profile, c))
    ensures Serves(task, profile, SceneView(task, profile, None, None))
  {
    var until := |AnsweringLead(profile)| + if b.maxGenerations >= 1 then 2 * (b.maxGenerations - 1) else 0;
    PlayServes(task, profile, AlwaysRegenerate(c), NoGate());
    PlayServes(task, profile, RegenerateUntil(c, until, LastCorrection(b)), NoGate());
  }
}
