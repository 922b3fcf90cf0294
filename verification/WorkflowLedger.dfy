/** The correction ledger: what `review`, `_consume_budget` and `complete` keep, call by call and over whole runs. */
module WorkflowLedger {
  import opened Options
  import opened Sequences
  import opened Text
  import opened WorkflowModel
  import opened WorkflowTheorems

  type GrantKey = (Correction, string)

  /** Action and candidate of every accepted attempt, oldest first. */
  function Grants(attempts: seq<Attempt>): seq<GrantKey> {
    if attempts == [] then []
    else
      var last := attempts[|attempts| - 1];
      var front := Grants(attempts[..|attempts| - 1]);
      if last.IsAccepted() then front + [(last.advice.action, last.candidate)] else front
  }

  lemma GrantsAppend(attempts: seq<Attempt>, a: Attempt)
    ensures Grants(attempts + [a])
         == if a.IsAccepted() then Grants(attempts) + [(a.advice.action, a.candidate)] else Grants(attempts)
  {
    assert (attempts + [a])[..|attempts|] == attempts;
  }

  lemma {:induction false} GrantsOfComplete(now: Snapshot, attempts: seq<Attempt>)
    ensures Grants(CompleteAll(now, attempts)) == Grants(attempts)
  {
    if attempts != [] {
      var n := |attempts| - 1;
      GrantsOfComplete(now, attempts[..n]);
      assert CompleteAll(now, attempts)[..n] == CompleteAll(now, attempts[..n]);
    }
  }

  predicate IsRetrievalGrant(k: GrantKey) { IsRetrievalAction(k.0) }

  predicate IsReplanGrant(k: GrantKey) { k.0 == Replan }

  /** No two accepted corrections carry the same lower-cased signature. */
  ghost predicate DistinctSignatures(cs: Charset, g: seq<GrantKey>) {
    forall i, j :: 0 <= i < j < |g| ==> Signature(cs, g[i].0, g[i].1) != Signature(cs, g[j].0, g[j].1)
  }

  /** A new query is never a case variant of one an earlier retrieval correction used. */
  ghost predicate FreshQueries(cs: Charset, g: seq<GrantKey>) {
    forall i, j :: 0 <= i < j < |g| && IsRetrievalGrant(g[i]) && IsQueryAction(g[j].0)
      ==> Lower(cs, g[i].1) != Lower(cs, g[j].1)
  }

  /** The ledger's counters and sets are exactly what its accepted attempts add up to. */
  ghost predicate Balanced(cs: Charset, l: Ledger) {
    var g := Grants(l.attempts);
    && |g| == l.interventions
    && |Filter(g, IsRetrievalGrant)| == l.correctionRetries
    && |Filter(g, IsReplanGrant)| == l.replans
    && (forall i :: 0 <= i < |g| ==> Signature(cs, g[i].0, g[i].1) in l.signatures)
    && (forall i :: 0 <= i < |g| && IsRetrievalGrant(g[i]) ==> g[i].1 in l.queries)
    && DistinctSignatures(cs, g)
    && FreshQueries(cs, g)
  }

  ghost predicate WithinBudget(b: Budget, l: Ledger) {
    && l.interventions <= b.maxInterventions
    && l.correctionRetries <= b.maxRetrievalRetries
    && l.gateRetries <= b.maxRetrievalRetries
    && l.replans <= b.maxReplans
  }

  /** A record's before and after differ only if it was accepted; its delta is the confidence it gained and bounds its utility. */
  ghost predicate HonestRecord(a: Attempt) {
    && (!a.IsAccepted() ==> a.after == a.before && a.utility == 0.0)
    && a.delta == a.after.confidence - a.before.confidence
    && a.utility >= 0.0 && a.utility >= a.delta
    && (a.utility == 0.0 || a.utility == a.delta
        || (a.utility == 0.25 && a.before.(confidence := 0.0) != a.after.(confidence := 0.0)))
  }

  ghost predicate HonestRecords(attempts: seq<Attempt>) {
    forall i :: 0 <= i < |attempts| ==> attempts[i].index == i + 1 && HonestRecord(attempts[i])
  }

  ghost predicate Accounted(cfg: Config, l: Ledger) {
    Balanced(cfg.text, l) && WithinBudget(cfg.budget, l) && HonestRecords(l.attempts)
  }

  lemma FilterAppend<T>(s: seq<T>, x: T, keep: T -> bool)
    ensures |Filter(s + [x], keep)| == |Filter(s, keep)| + if keep(x) then 1 else 0
  {
    FilterConcat(s, [x], keep);
  }

  lemma ConsumeKeepsBalance(cs: Charset, l: Ledger, a: Attempt)
    requires Balanced(cs, l) && a.IsAccepted()
    requires Signature(cs, a.advice.action, a.candidate) !in l.signatures
    requires IsQueryAction(a.advice.action) ==>
               forall q :: q in l.queries ==> Lower(cs, q) != Lower(cs, a.candidate)
    ensures var l1 := Consume(cs, l, a.advice.action, a.candidate);
            Balanced(cs, l1.(attempts := l1.attempts + [a]))
  {
    GrantsAppend(l.attempts, a);
    var g, k := Grants(l.attempts), (a.advice.action, a.candidate);
    FilterAppend(g, k, IsRetrievalGrant);
    FilterAppend(g, k, IsReplanGrant);
    hide Filter, Grants, Lower;
  }

  /** What acceptance promises about the ledger it was decided on. */
  lemma VerdictAccepts(cfg: Config, v: View, l: Ledger, advice: Advice, candidate: string)
    requires Verdict(cfg, v, l, advice, candidate) == Accepted
    ensures Signature(cfg.text, advice.action, candidate) !in l.signatures
    ensures IsQueryAction(advice.action) ==>
              && candidate != ""
              && Lower(cfg.text, candidate) != Lower(cfg.text, CurrentQuery(v))
              && forall q :: q in l.queries ==> Lower(cfg.text, q) != Lower(cfg.text, candidate)
    ensures l.interventions < cfg.budget.maxInterventions
    ensures IsRetrievalAction(advice.action) ==> l.correctionRetries + l.gateRetries < cfg.budget.maxRetrievalRetries
    ensures advice.action == Replan ==> l.replans < cfg.budget.maxReplans
    ensures advice.action == Regenerate ==> l.generations < cfg.budget.maxGenerations
    ensures advice.trigger && !advice.leaks && advice.confidence >= cfg.budget.threshold && advice.action != NoAction
  {
    if IsQueryAction(advice.action) {
      assert forall q :: q in l.queries ==> Lower(cfg.text, q) in LoweredQueries(cfg.text, CurrentQuery(v), l.queries);
    }
  }

  /** One review keeps the ledger accounted, and leaves the shared retrieval budget intact when it accepts a retrieval. */
  lemma ReviewKeepsLedger(cfg: Config, v: View, l: Ledger, advice: Advice, stage: Stage)
    requires Accounted(cfg, l)
    ensures var (n, a) := Review(cfg, v, l, advice, stage);
            && Accounted(cfg, n)
            && n.generations == l.generations && n.gateRetries == l.gateRetries
            && n.attempts == l.attempts + [a]
            && (a.IsAccepted() && IsRetrievalAction(advice.action)
                ==> n.correctionRetries + n.gateRetries <= cfg.budget.maxRetrievalRetries)
            && (!a.IsAccepted() ==> n == l.(attempts := n.attempts))
  {
    hide Collapse, Verdict, Balanced, Grants;
    var candidate := Collapse(cfg.text, advice.suggestedQuery);
    var a := Record(v, |l.attempts|, advice, stage, candidate, Verdict(cfg, v, l, advice, candidate));
    if a.IsAccepted() {
      VerdictAccepts(cfg, v, l, advice, candidate);
      ConsumeKeepsBalance(cfg.text, l, a);
    } else {
      RejectionKeepsBalance(cfg.text, l, a);
    }
  }

  lemma RejectionKeepsBalance(cs: Charset, l: Ledger, a: Attempt)
    requires Balanced(cs, l) && !a.IsAccepted()
    ensures Balanced(cs, l.(attempts := l.attempts + [a]))
  {
    GrantsAppend(l.attempts, a);
    BalancedDependsOnGrants(cs, l, l.attempts + [a]);
  }

  /** `complete` rewrites only the after side of accepted attempts. */
  lemma CompleteKeepsLedger(cfg: Config, now: Snapshot, l: Ledger)
    requires Accounted(cfg, l)
    ensures Accounted(cfg, l.(attempts := CompleteAll(now, l.attempts)))
  {
    GrantsOfComplete(now, l.attempts);
    hide Balanced, Grants;
    BalancedDependsOnGrants(cfg.text, l, CompleteAll(now, l.attempts));
  }

  lemma BalancedDependsOnGrants(cs: Charset, l: Ledger, attempts: seq<Attempt>)
    requires Balanced(cs, l) && Grants(attempts) == Grants(l.attempts)
    ensures Balanced(cs, l.(attempts := attempts))
  {
  }

  /** The generation and gate counters take no part in the corrections' balance. */
  lemma CountersKeepLedger(cfg: Config, l: Ledger, generations: nat, gateRetries: nat)
    requires Accounted(cfg, l) && gateRetries <= cfg.budget.maxRetrievalRetries
    ensures Accounted(cfg, l.(generations := generations, gateRetries := gateRetries))
  {
    assert Balanced(cfg.text, l.(generations := generations, gateRetries := gateRetries));
  }

  lemma GateRetryKeepsLedger(cfg: Config, m: Machine, p: Phase)
    requires m.InRange() && Accounted(cfg, m.ledger)
    ensures Accounted(cfg, GateRetry(cfg, m, p).ledger)
  {
    if p == ExecutionDecision && WantsGateRetry(cfg, m.view, m.ledger) {
      CountersKeepLedger(cfg, m.ledger, m.ledger.generations, m.ledger.gateRetries + 1);
    }
    hide Accounted;
  }

  lemma CountGenerationKeepsLedger(cfg: Config, m: Machine, p: Phase)
    requires Accounted(cfg, m.ledger)
    ensures Accounted(cfg, CountGeneration(m, p).ledger)
  {
    CountersKeepLedger(cfg, m.ledger, m.ledger.generations + 1, m.ledger.gateRetries);
    hide Accounted;
  }

  lemma CloseAttemptsKeepsLedger(cfg: Config, m: Machine, p: Phase)
    requires Accounted(cfg, m.ledger)
    ensures Accounted(cfg, CloseAttempts(m, p).ledger)
  {
    CompleteKeepsLedger(cfg, Observe(m.view), m.ledger);
    hide Accounted, CompleteAll, Observe;
  }

  lemma AfterPhaseKeepsLedger(cfg: Config, m: Machine, p: Phase)
    requires m.InRange() && Accounted(cfg, m.ledger)
    ensures Accounted(cfg, AfterPhase(cfg, m, p).ledger)
  {
    hide Accounted, CloseAttempts;
    var m1 := m.(tracker := m.tracker.MarkPhaseComplete(p),
                 events := m.events + [Event(PhaseCompleted, Some(p), m.tracker.status)]);
    CountGenerationKeepsLedger(cfg, m1, p);
    var m2 := CountGeneration(m1, p);
    assert m2.InRange();
    hide CountGeneration;
    GateRetryKeepsLedger(cfg, m2, p);
    var gate := GateRetryShape(cfg, m2, p);
    hide GateRetry;
    CorrectKeepsLedger(cfg, GateRetry(cfg, m2, p), p);
    hide Correct;
    CloseAttemptsKeepsLedger(cfg, Correct(cfg, GateRetry(cfg, m2, p), p), p);
  }

  lemma CorrectKeepsLedger(cfg: Config, m: Machine, p: Phase)
    requires m.InRange() && Accounted(cfg, m.ledger)
    ensures Accounted(cfg, Correct(cfg, m, p).ledger)
  {
    hide Accounted, Review, Grant;
    if PhaseAdvice(m.view, p).Some? {
      ReviewKeepsLedger(cfg, m.view, m.ledger, PhaseAdvice(m.view, p).value,
                        if p == OutputValidation then PostExecution else PreExecution);
    }
  }

  /** Generations done plus generations still listed never exceed the route's plus one per intervention. */
  ghost predicate GenerationsBounded(route: seq<Phase>, m: Machine) {
    m.InRange() && m.ledger.generations + Generations(m.Todo()) <= Generations(route) + m.ledger.interventions
  }

  ghost predicate LedgerKept(cfg: Config, route: seq<Phase>, m: Machine) {
    Accounted(cfg, m.ledger) && GenerationsBounded(route, m)
  }

  lemma AfterPhaseKeepsGenerations(cfg: Config, route: seq<Phase>, m: Machine, p: Phase)
    requires m.InRange()
    requires m.ledger.generations + (if p == AnswerGeneration then 1 else 0) + Generations(m.Todo())
          <= Generations(route) + m.ledger.interventions
    ensures GenerationsBounded(route, AfterPhase(cfg, m, p))
  {
    hide AfterPhase;
    var stages := AfterPhaseShape(cfg, m, p);
    var n := AfterPhase(cfg, m, p);
    assert n.Todo() == stages + m.Todo();
    GenerationsConcat(stages, m.Todo());
  }

  lemma StepKeepsLedger(cfg: Config, script: nat -> Reply, route: seq<Phase>, m: Machine)
    requires m.InRange() && m.IsRunning() && LedgerKept(cfg, route, m)
    ensures LedgerKept(cfg, route, Step(cfg, script, m))
  {
    hide AfterPhase, RunPhase, Skips, Accounted;
    if m.index < |m.phases| {
      var p := m.phases[m.index];
      assert m.Todo() == [p] + m.phases[m.index + 1..];
      GenerationsConcat([p], m.phases[m.index + 1..]);
      if !Skips(m.view, p) && !m.view.cancelRequested {
        var n := BeginPhase(m);
        var r := RunPhase(cfg, script, p, n.tracker, n.events, n.calls, 0);
        var n1 := n.(view := r.view, tracker := r.tracker, events := r.events, calls := r.calls);
        AfterPhaseKeepsGenerations(cfg, route, n1, p);
        AfterPhaseKeepsLedger(cfg, n1, p);
      }
    }
  }
}
