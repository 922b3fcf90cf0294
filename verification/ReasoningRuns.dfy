/**
 * What whole runs of the reasoning loop keep, for every retriever, advisor,
 * clock, synthesizer and text analysis.
 */
module ReasoningRuns {
  import opened Numbers
  import opened Options
  import opened Text
  import opened Reasoning

  // ---- integration ------------------------------------------------------------------

  /** Every eligible result is represented afterwards, by its source or by its text, unless the store is full. */
  ghost predicate Represented(a: Analysis, b: Budget, es: seq<Evidence>, r: Result) {
    r.sourceId in SourceIds(es) || a.normalise(r.text) in NormalTexts(a, es) || |es| >= b.maxDocuments
  }

  lemma RepresentedGrows(a: Analysis, b: Budget, es: seq<Evidence>, more: seq<Evidence>, r: Result)
    requires es <= more && Represented(a, b, es, r)
    ensures Represented(a, b, more, r)
  {
    assert forall e :: e in es ==> e in more;
  }

  lemma {:induction false} IntegrationIsComplete(
    a: Analysis, b: Budget, es: seq<Evidence>, rs: seq<Result>, hop: nat, query: string)
    ensures forall r :: r in rs && r.eligible ==> Represented(a, b, IntegrateAll(a, b, es, rs, hop, query), r)
  {
    if rs != [] {
      var front, last := rs[..|rs| - 1], rs[|rs| - 1];
      IntegrationIsComplete(a, b, es, front, hop, query);
      var m := IntegrateAll(a, b, es, front, hop, query);
      var n := IntegrateAll(a, b, es, rs, hop, query);
      assert rs == front + [last];
      forall r | r in rs && r.eligible
        ensures Represented(a, b, n, r)
      {
        if Admits(a, b, m, last) && r == last {
          assert n[|m|] in n && n[|m|].sourceId == r.sourceId;
        } else if r in front {
          RepresentedGrows(a, b, m, n, r);
        }
      }
    }
  }

  // ---- contradictions -----------------------------------------------------------------

  /** More evidence never removes a claim, so it never removes a contradiction. */
  lemma ContradictionIsAbsorbing(a: Analysis, question: string, es: seq<Evidence>, more: seq<Evidence>)
    requires es <= more && Contradicted(a, es)
    ensures Contradicted(a, more) && Evaluate(a, question, more) == Contradictory
  {
    assert forall e :: e in es ==> e in more;
    var k :| k in ClaimKeys(a, es, false) && k in ClaimKeys(a, es, true);
    assert k in ClaimKeys(a, more, false) * ClaimKeys(a, more, true);
  }

  // ---- verdicts --------------------------------------------------------------------------

  ghost predicate Claims(a: Analysis, es: seq<Evidence>, claim: Claim) {
    exists e :: e in es && claim in a.claims(e.text)
  }

  /** Some key is asserted by one item and denied by one. */
  ghost predicate ClaimedBothWays(a: Analysis, es: seq<Evidence>) {
    exists key :: Claims(a, es, Claim(key, false)) && Claims(a, es, Claim(key, true))
  }

  /** The terms of the question that some item contains. */
  ghost function CoveredTerms(a: Analysis, question: string, es: seq<Evidence>): set<string> {
    set t | t in a.terms(question) && exists e :: e in es && t in a.terms(e.text)
  }

  /** At least three fifths of the question's terms are covered; a question without terms counts as one. */
  ghost predicate Covers(a: Analysis, question: string, es: seq<Evidence>) {
    5 * |CoveredTerms(a, question, es)| >= 3 * (if |a.terms(question)| >= 1 then |a.terms(question)| else 1)
  }

  /** What each status says about the evidence. */
  ghost predicate Means(a: Analysis, question: string, es: seq<Evidence>, status: Status) {
    match status
    case Unanswerable => es == []
    case Contradictory => es != [] && ClaimedBothWays(a, es)
    case Sufficient => es != [] && !ClaimedBothWays(a, es) && Covers(a, question, es)
    case NeedMoreEvidence => es != [] && !ClaimedBothWays(a, es) && !Covers(a, question, es)
    case _ => false
  }

  lemma ClaimKeysAre(a: Analysis, es: seq<Evidence>, key: string, negated: bool)
    ensures key in ClaimKeys(a, es, negated) <==> Claims(a, es, Claim(key, negated))
  {
    if key in ClaimKeys(a, es, negated) {
      var e, c :| e in es && c in a.claims(e.text) && c.negated == negated && c.key == key;
      assert c == Claim(key, negated);
    }
    if Claims(a, es, Claim(key, negated)) {
      assert Claim(key, negated).key == key;
    }
  }

  lemma ContradictedIff(a: Analysis, es: seq<Evidence>)
    ensures Contradicted(a, es) <==> ClaimedBothWays(a, es)
  {
    forall key, negated ensures key in ClaimKeys(a, es, negated) <==> Claims(a, es, Claim(key, negated)) {
      ClaimKeysAre(a, es, key, negated);
    }
    hide ClaimKeys, Claims;
    if ClaimedBothWays(a, es) {
      var key :| Claims(a, es, Claim(key, false)) && Claims(a, es, Claim(key, true));
      assert key in ClaimKeys(a, es, false) * ClaimKeys(a, es, true);
    }
  }

  lemma ShareIsAtLeast(n: nat, d: nat)
    requires d > 0
    ensures n as real / d as real >= 0.60 <==> 5 * n >= 3 * d
  {
    AtLeast(n as real / d as real, n as real, d as real);
  }

  lemma AtLeast(q: real, n: real, d: real)
    requires d > 0.0 && q == n / d
    ensures q >= 0.60 <==> n >= 0.60 * d
  {
    Quotient(n, d, q, q);
    if q >= 0.60 {
      Monotone(0.60, q, d);
    } else {
      StrictlyMonotone(q, 0.60, d);
    }
  }

  lemma CoverageIff(a: Analysis, question: string, es: seq<Evidence>)
    ensures Coverage(a, question, es) >= 0.60 <==> Covers(a, question, es)
  {
    var q := a.terms(question);
    assert q * EvidenceTerms(a, es) == CoveredTerms(a, question, es);
    ShareIsAtLeast(|q * EvidenceTerms(a, es)|, if |q| >= 1 then |q| else 1);
  }

  /** The verifier's status is the only one that is true of the evidence. */
  lemma EvaluateMeaning(a: Analysis, question: string, es: seq<Evidence>, status: Status)
    ensures Evaluate(a, question, es) == status <==> Means(a, question, es, status)
  {
    hide ClaimedBothWays, Covers, Contradicted, Coverage;
    ContradictedIff(a, es);
    CoverageIff(a, question, es);
  }

  // ---- queries -------------------------------------------------------------------------

  lemma {:induction false} FirstFreshIsFresh(a: Analysis, question: string, attempted: seq<string>, candidates: seq<string>)
    ensures var q := FirstFresh(a, question, attempted, candidates);
            && (q.Some? ==> q.value in candidates && IsFreshNeed(a, question, attempted, q.value))
            && (q.None? ==> forall c :: c in candidates ==> !IsFreshNeed(a, question, attempted, c))
  {
    if candidates != [] {
      FirstFreshIsFresh(a, question, attempted, candidates[1..]);
    }
  }

  /** The generator finds a fresh entity exactly when the evidence has one. */
  lemma {:induction false} NeedIsFresh(a: Analysis, question: string, es: seq<Evidence>, attempted: seq<string>)
    ensures var q := GenerateNeed(a, question, es, attempted);
            && (q.Some? ==> IsFreshNeed(a, question, attempted, q.value)
                            && exists e :: e in es && q.value in a.entities(e.text))
            && (q.None? ==> forall e, c :: e in es && c in a.entities(e.text) ==> !IsFreshNeed(a, question, attempted, c))
  {
    if es != [] {
      var last := es[|es| - 1];
      FirstFreshIsFresh(a, question, attempted, a.entities(last.text));
      NeedIsFresh(a, question, es[..|es| - 1], attempted);
      assert last in es && es == es[..|es| - 1] + [last];
    }
  }

  /** The advisor's reply if it is asked at all. */
  ghost function Consulted(b: Budget, o: Oracles, s: State, stop: Stop): Option<AdviceReply> {
    if stop in {NoNewEvidence, DuplicateQuery, StopContradictory} && o.advise.Some? && s.interventions < b.maxInterventions
    then Some(o.advise.value(s.interventions)) else None
  }

  /** Advice that proposes a query nobody asked yet, in whatever case and spacing, with room for it in both budgets. */
  ghost predicate Helps(a: Analysis, b: Budget, s: State, advice: Advice) {
    && advice.trigger && advice.queryAction && !advice.leaks && advice.confidence >= b.reflectionThreshold
    && Collapse(a.charset, advice.suggestedQuery) != ""
    && (forall q :: q in s.attempted ==> QueryKey(a.charset, q) != QueryKey(a.charset, Collapse(a.charset, advice.suggestedQuery)))
    && s.retrievalCalls < b.maxRetrievalCalls && |s.attempted| < b.maxHops
  }

  /** An advisor that is asked costs one intervention; its query is granted exactly when it helps. */
  lemma AdvisedQueryIsFresh(a: Analysis, b: Budget, o: Oracles, s: State, stop: Stop)
    requires a.charset.Valid()
    ensures var (s2, q) := AdvisedQuery(a, b, o, s, stop);
            var reply := Consulted(b, o, s, stop);
            && s2 == s.(interventions := s.interventions + if reply.Some? then 1 else 0)
            && s2.interventions <= (if s.interventions >= b.maxInterventions then s.interventions else b.maxInterventions)
            && q == (if reply.Some? && reply.value.Some? && Helps(a, b, s, reply.value.value)
                     then Some(Collapse(a.charset, reply.value.value.suggestedQuery)) else None)
            && (q.Some? ==> QueryKey(a.charset, q.value) !in QueryKeys(a.charset, s.attempted))
  {
    var reply := Consulted(b, o, s, stop);
    if reply.Some? && reply.value.Some? {
      CollapsedCandidateIsKey(a.charset, reply.value.value.suggestedQuery);
    }
    hide Collapse, QueryKey, Lower;
  }

  /** With the built-in generator the duplicate-query stop cannot be reached. */
  lemma DuplicateStopIsUnreachable(a: Analysis, b: Budget, question: string, s: State, status: Status, timeIsUp: bool)
    ensures StopReason(a, b, s, status, NextNeed(a, question, s, status), timeIsUp) != Some(DuplicateQuery)
  {
    NeedIsFresh(a, question, s.evidence, s.attempted);
  }

  /** With any generator it is reached exactly when no limit is and the next query repeats an attempted one. */
  lemma DuplicateStopIff(a: Analysis, o: Oracles, b: Budget, s: State, status: Status, next: Option<string>)
    ensures StopReason(a, b, s, status, next, o.timeIsUp(|s.attempted|)) == Some(DuplicateQuery) <==>
              && status == NeedMoreEvidence && Within(a, o, b, s, 5)
              && next.Some? && next.value != ""
              && exists q :: q in s.attempted && QueryKey(a.charset, q) == QueryKey(a.charset, next.value)
  {
    hide QueryKey, ContextTokens;
  }

  /** The context grows by an item's words, and by one if it has none. */
  lemma ContextTokensAppend(a: Analysis, es: seq<Evidence>, e: Evidence)
    ensures ContextTokens(a, []) == 0
    ensures ContextTokens(a, es + [e])
         == ContextTokens(a, es) + if Words(a.charset, e.text) == [] then 1 else |Words(a.charset, e.text)|
  {
    assert (es + [e])[..|es|] == es;
  }

  // ---- one retrieval ---------------------------------------------------------------------

  lemma DistinctKeysAppend(cs: Charset, queries: seq<string>, q: string)
    requires DistinctKeys(cs, queries) && QueryKey(cs, q) !in QueryKeys(cs, queries)
    ensures DistinctKeys(cs, queries + [q])
  {
    hide QueryKey;
    forall i | 0 <= i < |queries|
      ensures QueryKey(cs, queries[i]) != QueryKey(cs, q)
    {
      assert queries[i] in queries;
    }
  }

  lemma SourcesStay(o: Oracles, attempted: seq<string>, q: string, e: Evidence)
    requires HasSource(o, attempted, e)
    ensures HasSource(o, attempted + [q], e)
  {
  }

  lemma RetrievedKeepsStalled(a: Analysis, o: Oracles, b: Budget, s: State, query: string)
    requires Sound(a, o, b, s) && o.retrieve(|s.attempted|, query).Some?
    ensures Stalled(Retrieved(a, b, s, o.retrieve(|s.attempted|, query).value, query))
  {
    hide NoDuplicates, DistinctKeys, Highest, HasSource;
    var hop := |s.attempted|;
    var rs := o.retrieve(hop, query).value.results;
    IntegrateAllKeeps(a, b, s.evidence, rs, hop, query);
    var n := IntegrateAll(a, b, s.evidence, rs, hop, query);
    if n == s.evidence {
      if s.noProgressHops < |s.attempted| {
        var e :| e in s.evidence && e.hop + s.noProgressHops + 1 == |s.attempted|;
        assert e in n && e.hop + (s.noProgressHops + 1) + 1 == |s.attempted + [query]|;
      }
    } else {
      var e := n[|s.evidence|];
      assert e in n && e.hop + 1 == |s.attempted + [query]|;
      forall x | x in n ensures x.hop < |s.attempted + [query]| {
        var i :| 0 <= i < |n| && n[i] == x;
        if i < |s.evidence| {
          assert x == s.evidence[i];
        }
      }
    }
  }

  lemma RetrievedKeepsHighest(a: Analysis, o: Oracles, b: Budget, s: State, query: string)
    requires Highest(o, s) && o.retrieve(|s.attempted|, query).Some?
    ensures Highest(o, Retrieved(a, b, s, o.retrieve(|s.attempted|, query).value, query))
  {
    hide IntegrateAll;
    var k := |s.attempted|;
    var n := Retrieved(a, b, s, o.retrieve(k, query).value, query);
    assert n.attempted[k] == query;
    assert forall i :: 0 <= i < k ==> n.attempted[i] == s.attempted[i];
    if n.confidence == s.confidence && s.confidence != 0.0 {
      var i :| 0 <= i < k && o.retrieve(i, s.attempted[i]).Some? && o.retrieve(i, s.attempted[i]).value.confidence == s.confidence;
      assert n.attempted[i] == s.attempted[i];
    }
  }

  lemma RetrievedKeeps(a: Analysis, o: Oracles, b: Budget, s: State, query: string)
    requires Sound(a, o, b, s)
    requires QueryKey(a.charset, query) !in QueryKeys(a.charset, s.attempted)
    requires o.retrieve(|s.attempted|, query).Some?
    ensures var s1 := Retrieved(a, b, s, o.retrieve(|s.attempted|, query).value, query);
            && Sound(a, o, b, s1)
            && s.evidence <= s1.evidence
            && s1.attempted == s.attempted + [query]
  {
    hide QueryKey, Stalled, Highest;
    RetrievedKeepsStalled(a, o, b, s, query);
    RetrievedKeepsHighest(a, o, b, s, query);
    var hop := |s.attempted|;
    var rs := o.retrieve(hop, query).value.results;
    IntegrateAllKeeps(a, b, s.evidence, rs, hop, query);
    DistinctKeysAppend(a.charset, s.attempted, query);
    var n := IntegrateAll(a, b, s.evidence, rs, hop, query);
    forall i | 0 <= i < |n|
      ensures HasSource(o, s.attempted + [query], n[i])
    {
      if i < |s.evidence| {
        assert n[i] == s.evidence[i] && n[i] in s.evidence;
        SourcesStay(o, s.attempted, query, n[i]);
      }
    }
  }

  // ---- whole runs ---------------------------------------------------------------------------

  /** The evidence names no entity the loop could still ask for; so in particular when there is no evidence. */
  ghost predicate NothingLeft(a: Analysis, question: string, s: State) {
    forall e, c :: e in s.evidence && c in a.entities(e.text) ==> !IsFreshNeed(a, question, s.attempted, c)
  }

  /** None of the limits tested before the `k`-th is reached. */
  ghost predicate Within(a: Analysis, o: Oracles, b: Budget, s: State, k: nat) {
    && (k > 0 ==> !o.timeIsUp(|s.attempted|))
    && (k > 1 ==> s.retrievalCalls < b.maxRetrievalCalls)
    && (k > 2 ==> |s.attempted| < b.maxHops)
    && (k > 3 ==> ContextTokens(a, s.evidence) < b.maxContextTokens)
    && (k > 4 ==> s.noProgressHops < b.noProgressLimit)
  }

  /** The stop reason reports the first fact of the final state that stops the loop. */
  ghost predicate Honest(a: Analysis, o: Oracles, b: Budget, question: string, out: Outcome) {
    var s := out.state;
    match out.stop
    case StopSufficient => Means(a, question, s.evidence, Sufficient)
    case StopContradictory => Means(a, question, s.evidence, Contradictory)
    case TimeBudget => o.timeIsUp(|s.attempted|)
    case MaxRetrievalCalls => Within(a, o, b, s, 1) && s.retrievalCalls >= b.maxRetrievalCalls
    case MaxHops => Within(a, o, b, s, 2) && |s.attempted| >= b.maxHops
    case ContextBudget => Within(a, o, b, s, 3) && ContextTokens(a, s.evidence) >= b.maxContextTokens
    case NoNewEvidence => Within(a, o, b, s, 4) && s.noProgressHops >= b.noProgressLimit
    case StopUnanswerable => NothingLeft(a, question, s)
    case DuplicateQuery => false
    case StopAmbiguous => false
    case _ => true
  }

  /** What every run of the loop ends with. */
  ghost predicate Ended(a: Analysis, o: Oracles, request: Request, out: Outcome) {
    var b, s := request.budget, out.state;
    && Sound(a, o, b, s.(llmCalls := 0))
    && |s.attempted| <= Allowance(b)
    && (out.status == Error <==> out.stop in {StopError, MaxLlmCalls})
    && (out.status != Error ==> Means(a, request.question, s.evidence, out.status))
    && (out.stop == StopError ==> exists query :: o.retrieve(|s.attempted|, query).None?)
    && Answered(a, o, request, out)
    && Honest(a, o, b, request.question, out)
  }

  /** The synthesizer is asked once, for exactly the final evidence, if that covers the question; its answer counts if the LLM budget allows. */
  ghost predicate Answered(a: Analysis, o: Oracles, request: Request, out: Outcome) {
    var s, r := out.state, o.synthesize(out.state.evidence);
    && out.syntheses <= 1
    && (out.syntheses == 1 <==> out.stop != StopError && Means(a, request.question, s.evidence, Sufficient))
    && s.llmCalls == (if out.syntheses == 1 && r.llmUsed then 1 else 0)
    && (out.stop == MaxLlmCalls <==> out.syntheses == 1 && s.llmCalls > request.budget.maxLlmCalls)
    && out.answer == (if out.status == Error then Silence
                      else if out.syntheses == 1 then Generated(r.answer) else Abstention(out.stop))
  }

  lemma SynthesizeEnds(a: Analysis, o: Oracles, request: Request, s: State, stop: Stop)
    requires Sound(a, o, request.budget, s) && |s.attempted| <= Allowance(request.budget)
    requires stop !in {StopError, MaxLlmCalls}
    requires var status := Evaluate(a, request.question, s.evidence);
             Honest(a, o, request.budget, request.question, Outcome(Silence, status, stop, s, 0))
    ensures var out := Synthesize(request.budget, o, s, Evaluate(a, request.question, s.evidence), stop);
            && Ended(a, o, request, out)
            && s.attempted == out.state.attempted && s.evidence == out.state.evidence
  {
    hide Evaluate, ClaimedBothWays, Covers, Allowance, DistinctKeys, NoDuplicates, HasSource, ContextTokens;
    EvaluateMeaning(a, request.question, s.evidence, Evaluate(a, request.question, s.evidence));
    EvaluateMeaning(a, request.question, s.evidence, Sufficient);
    EvaluateMeaning(a, request.question, s.evidence, Error);
    var out := Synthesize(request.budget, o, s, Evaluate(a, request.question, s.evidence), stop);
    assert out.state.(llmCalls := 0) == s;
  }

  lemma NoEvidenceNothingLeft(a: Analysis, question: string, s: State)
    ensures Evaluate(a, question, s.evidence) == Unanswerable ==> NothingLeft(a, question, s)
  {
    hide Contradicted, Coverage;
  }

  lemma StopIsHonest(a: Analysis, o: Oracles, b: Budget, question: string, s: State)
    ensures var status := Evaluate(a, question, s.evidence);
            var stop := StopReason(a, b, s, status, NextNeed(a, question, s, status), o.timeIsUp(|s.attempted|));
            && (stop.Some? ==>
                  && Honest(a, o, b, question, Outcome(Silence, status, stop.value, s, 0))
                  && stop.value !in {StopError, MaxLlmCalls})
            && (stop.None? ==> Means(a, question, s.evidence, NeedMoreEvidence) && Within(a, o, b, s, 5))
  {
    hide Evaluate, ClaimedBothWays, Covers, QueryKey, ContextTokens, NothingLeft;
    EvaluateMeaning(a, question, s.evidence, Evaluate(a, question, s.evidence));
    EvaluateMeaning(a, question, s.evidence, Ambiguous);
    EvaluateMeaning(a, question, s.evidence, Error);
    assert Evaluate(a, question, s.evidence) == Unanswerable ==> NothingLeft(a, question, s) by {
      NoEvidenceNothingLeft(a, question, s);
    }
    DuplicateStopIsUnreachable(a, b, question, s, Evaluate(a, question, s.evidence), o.timeIsUp(|s.attempted|));
  }

  lemma {:induction false} LoopEnds(a: Analysis, o: Oracles, request: Request, route: Route, s: State, query: string)
    requires a.charset.Valid()
    requires Sound(a, o, request.budget, s)
    requires |s.attempted| < Allowance(request.budget)
    requires QueryKey(a.charset, query) !in QueryKeys(a.charset, s.attempted)
    ensures var out := Loop(a, o, request, route, s, query);
            && Ended(a, o, request, out)
            && s.attempted <= out.state.attempted
            && s.evidence <= out.state.evidence
            && (o.retrieve(|s.attempted|, query).Some? ==> s.attempted + [query] <= out.state.attempted)
            && (o.retrieve(|s.attempted|, query).None? ==> out.state == s && out.stop == StopError)
    decreases Allowance(request.budget) - |s.attempted|, 0
  {
    hide QueryKey, QueryKeys, Evaluate, AdvisedQuery, StopReason, Synthesize, Retrieved, Honest, GenerateNeed, Decide, Ended;
    var b := request.budget;
    var reply := o.retrieve(|s.attempted|, query);
    if reply.None? {
      FailedRetrievalEnds(a, o, request, s, query);
    } else {
      var s1 := Retrieved(a, b, s, reply.value, query);
      RetrievedKeeps(a, o, b, s, query);
      var status := Evaluate(a, request.question, s1.evidence);
      if route == SinglePass {
        SinglePassIsHonest(a, o, b, request.question, s1);
        SynthesizeEnds(a, o, request, s1, SinglePassDone);
      } else {
        DecideEnds(a, o, request, route, s1);
      }
    }
  }

  lemma FailedRetrievalEnds(a: Analysis, o: Oracles, request: Request, s: State, query: string)
    requires Sound(a, o, request.budget, s) && |s.attempted| <= Allowance(request.budget)
    requires o.retrieve(|s.attempted|, query).None?
    ensures Ended(a, o, request, Outcome(Silence, Error, StopError, s, 0))
  {
    hide Means, DistinctKeys, NoDuplicates, HasSource, Stalled, Highest;
    assert s.(llmCalls := 0) == s;
  }

  lemma SinglePassIsHonest(a: Analysis, o: Oracles, b: Budget, question: string, s: State)
    ensures Honest(a, o, b, question, Outcome(Silence, Evaluate(a, question, s.evidence), SinglePassDone, s, 0))
  {
  }

  /** The loop gives up only when no fresh entity is left to ask for. */
  lemma UnanswerableIsHonest(a: Analysis, o: Oracles, b: Budget, question: string, s: State)
    requires GenerateNeed(a, question, s.evidence, s.attempted).None?
    ensures Honest(a, o, b, question, Outcome(Silence, Evaluate(a, question, s.evidence), StopUnanswerable, s, 0))
  {
    NeedIsFresh(a, question, s.evidence, s.attempted);
  }

  lemma {:induction false} DecideEnds(a: Analysis, o: Oracles, request: Request, route: Route, s: State)
    requires a.charset.Valid()
    requires Sound(a, o, request.budget, s) && |s.attempted| <= Allowance(request.budget)
    ensures var out := Decide(a, o, request, route, s);
            && Ended(a, o, request, out)
            && s.attempted <= out.state.attempted
            && s.evidence <= out.state.evidence
    decreases Allowance(request.budget) - |s.attempted|, 1
  {
    hide QueryKey, QueryKeys, Evaluate, AdvisedQuery, StopReason, Synthesize, Honest, GenerateNeed, Mentions, Ended, Loop;
    var b := request.budget;
    var status := Evaluate(a, request.question, s.evidence);
    var need := NextNeed(a, request.question, s, status);
    StopIsHonest(a, o, b, request.question, s);
    match StopReason(a, b, s, status, need, o.timeIsUp(|s.attempted|))
    case Some(stop) =>
      AdvisedQueryIsFresh(a, b, o, s, stop);
      var (s2, q) := AdvisedQuery(a, b, o, s, stop);
      InterventionKeeps(a, o, request, s, s2, stop);
      if q.Some? {
        LoopEnds(a, o, request, route, s2, q.value);
      } else {
        SynthesizeEnds(a, o, request, s2, stop);
      }
    case None =>
      if need.Some? {
        NeedIsFresh(a, request.question, s.evidence, s.attempted);
        LoopEnds(a, o, request, route, s, need.value);
      } else {
        EvaluateMeaning(a, request.question, s.evidence, NeedMoreEvidence);
        UnanswerableIsHonest(a, o, b, request.question, s);
        SynthesizeEnds(a, o, request, s, StopUnanswerable);
      }
  }

  /** Counting an intervention changes nothing else. */
  lemma InterventionKeeps(a: Analysis, o: Oracles, request: Request, s: State, s2: State, stop: Stop)
    requires Sound(a, o, request.budget, s)
    requires s2 == s.(interventions := s2.interventions)
    requires s2.interventions == s.interventions || s2.interventions <= request.budget.maxInterventions
    requires var status := Evaluate(a, request.question, s.evidence);
             Honest(a, o, request.budget, request.question, Outcome(Silence, status, stop, s, 0))
    ensures Sound(a, o, request.budget, s2)
    ensures var status := Evaluate(a, request.question, s2.evidence);
            Honest(a, o, request.budget, request.question, Outcome(Silence, status, stop, s2, 0))
  {
    hide Evaluate, Contradicted, ContextTokens, HasSource, DistinctKeys, NoDuplicates;
  }

  /**
   * Every adaptive or single-pass run terminates within its allowance with
   * pairwise different queries, duplicate-free, eligible and traceable
   * evidence, a status that is true of it, at most one synthesis and that
   * only of evidence that covers the question and contradicts itself nowhere,
   * and a stop reason that is true of the final state. The question itself is
   * asked first, and `duplicate_query` never occurs.
   */
  lemma AnswerEnds(a: Analysis, o: Oracles, request: Request)
    requires a.charset.Valid()
    requires RouteOf(a.charset, request) in {SinglePass, Adaptive}
    ensures var out := Answer(a, o, request);
            && Ended(a, o, request, out)
            && (if o.retrieve(0, request.question).Some? then [request.question] <= out.state.attempted
                else out.state == START && out.stop == StopError)
  {
    assert Stalled(START) && Highest(o, START);
    LoopEnds(a, o, request, RouteOf(a.charset, request), START, request.question);
  }

  // ---- questions that need no search ------------------------------------------------------

  const GREETINGS := {"hi", "hello", "thanks", "thank you"}

  /**
   * A blank question is handed back and a greeting answered from no evidence,
   * unless the mode says otherwise; neither retrieves anything. All other
   * requests search: once in single-pass mode, adaptively in the rest.
   */
  lemma ShortcutsAnswer(a: Analysis, o: Oracles, request: Request, before: string, core: string, after: string)
    requires a.charset.Valid()
    requires request.question == before + core + after
    requires Blank(a.charset, before) && Blank(a.charset, after) && Trimmed(a.charset, core)
    ensures var out, r := Answer(a, o, request), o.synthesize([]);
            var open := request.mode !in {BypassMode, SinglePassMode};
            var greets := request.mode == BypassMode || (open && Lower(a.charset, core) in GREETINGS);
            && (open && core == "" ==> out == Outcome(Clarification, Ambiguous, Ambiguity, START, 0))
            && (greets ==>
                  && out.answer == Generated(r.answer) && out.stop == Bypassed && out.syntheses == 1
                  && (out.status == Unanswerable <==> r.answer == "")
                  && (out.status == Sufficient <==> r.answer != "")
                  && out.state.attempted == [] && out.state.retrievalCalls == 0 && out.state.evidence == []
                  && out.state.llmCalls == (if r.llmUsed then 1 else 0))
            && (RouteOf(a.charset, request) == Adaptive <==> open && core != "" && !greets)
            && (RouteOf(a.charset, request) == SinglePass <==> request.mode == SinglePassMode)
  {
    StripMeaning(a.charset, before, core, after);
    assert core != "" ==> a.charset.lower(core[0]) != "";
  }

  lemma SinglePassRetrievesOnce(a: Analysis, o: Oracles, request: Request)
    requires request.mode == SinglePassMode
    ensures var out := Answer(a, o, request);
            && (o.retrieve(0, request.question).Some? ==>
                  out.state.attempted == [request.question] && out.stop in {SinglePassDone, MaxLlmCalls})
            && (o.retrieve(0, request.question).None? ==> out.state == START && out.stop == StopError)
  {
  }

  /** An adaptive run ends for a reason found by the stopping policy, for want of a need, or in an error. */
  lemma {:induction false} AdaptiveLoopSearches(a: Analysis, o: Oracles, request: Request, s: State, query: string)
    requires s.retrievalCalls == |s.attempted| < Allowance(request.budget)
    ensures Loop(a, o, request, Adaptive, s, query).stop !in {SinglePassDone, Ambiguity, Bypassed}
    decreases Allowance(request.budget) - |s.attempted|
  {
    hide Evaluate, GenerateNeed, QueryKey, QueryKeys, ContextTokens, IntegrateAll;
    match o.retrieve(|s.attempted|, query)
    case None =>
    case Some(response) =>
      var b := request.budget;
      var s1 := Retrieved(a, b, s, response, query);
      var status := Evaluate(a, request.question, s1.evidence);
      var need := NextNeed(a, request.question, s1, status);
      match StopReason(a, b, s1, status, need, o.timeIsUp(|s1.attempted|))
      case Some(stop) =>
        var (s2, q) := AdvisedQuery(a, b, o, s1, stop);
        if q.Some? {
          AdaptiveLoopSearches(a, o, request, s2, q.value);
        }
      case None =>
        if need.Some? {
          AdaptiveLoopSearches(a, o, request, s1, need.value);
        }
  }

  /** With budgets of at least one, the run stays inside both of them. */
  lemma AnswerIsBounded(a: Analysis, o: Oracles, request: Request)
    requires a.charset.Valid()
    requires RouteOf(a.charset, request) in {SinglePass, Adaptive}
    ensures var s := Answer(a, o, request).state;
            && s.retrievalCalls == |s.attempted|
            && (request.budget.maxHops >= 1 && request.budget.maxRetrievalCalls >= 1 ==>
                  s.retrievalCalls <= request.budget.maxRetrievalCalls && |s.attempted| <= request.budget.maxHops)
            && (request.budget.maxHops < 1 || request.budget.maxRetrievalCalls < 1 ==> s.retrievalCalls <= 1)
  {
    AnswerEnds(a, o, request);
  }

  /** A run that ever held contradictory evidence abstains: it ends CONTRADICTORY or in an error, and nothing is synthesized. */
  lemma ContradictionDecides(a: Analysis, o: Oracles, request: Request, k: nat)
    requires a.charset.Valid()
    requires RouteOf(a.charset, request) in {SinglePass, Adaptive}
    requires var es := Answer(a, o, request).state.evidence; k <= |es| && Contradicted(a, es[..k])
    ensures var out := Answer(a, o, request);
            && out.status in {Contradictory, Error}
            && out.syntheses == 0 && !out.answer.Generated?
  {
    hide Answer, Evaluate, Contradicted, Means, Sound, Honest;
    var out := Answer(a, o, request);
    AnswerEnds(a, o, request);
    var es := out.state.evidence;
    ContradictionIsAbsorbing(a, request.question, es[..k], es);
    EvaluateMeaning(a, request.question, es, out.status);
    EvaluateMeaning(a, request.question, es, Sufficient);
  }

  /** The evidence of an intermediate turn is a prefix of the final evidence, so a contradiction seen there decides the run. */
  lemma ContradictionSeenDecides(a: Analysis, o: Oracles, request: Request, route: Route, s: State)
    requires a.charset.Valid()
    requires Sound(a, o, request.budget, s) && |s.attempted| <= Allowance(request.budget)
    requires Contradicted(a, s.evidence)
    ensures Decide(a, o, request, route, s).status in {Contradictory, Error}
    ensures Decide(a, o, request, route, s).syntheses == 0
  {
    hide Decide, Evaluate, Contradicted, Means, Honest, Highest, Stalled;
    var out := Decide(a, o, request, route, s);
    DecideEnds(a, o, request, route, s);
    ContradictionIsAbsorbing(a, request.question, s.evidence, out.state.evidence);
    EvaluateMeaning(a, request.question, out.state.evidence, out.status);
    EvaluateMeaning(a, request.question, out.state.evidence, Sufficient);
  }
}
