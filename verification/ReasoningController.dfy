/**
 * The reasoning components in the source's imperative form. Each method is
 * proved against the function of module Reasoning that specifies it.
 */
module ReasoningController {
  import opened Options
  import opened Text
  import opened Reasoning
  import opened ReasoningRuns

  class EvidenceState {
    var evidenceItems: seq<Evidence>
    var attemptedQueries: seq<string>
    var confidence: real
    var retrievalCalls: nat
    var llmCalls: nat
    var noProgressHops: nat
    var reflectionInterventions: nat

    /** The value the model works on. */
    function Value(): State
      reads this
    {
      State(evidenceItems, attemptedQueries, confidence, retrievalCalls, llmCalls, noProgressHops, reflectionInterventions)
    }

    constructor ()
      ensures Value() == START
    {
      evidenceItems, attemptedQueries, confidence := [], [], 0.0;
      retrievalCalls, llmCalls, noProgressHops, reflectionInterventions := 0, 0, 0, 0;
    }
  }

  /** `integrate`: the two seen-sets grow with the list they summarise. */
  method IntegrateResponse(a: Analysis, b: Budget, state: EvidenceState, response: Response, hop: nat, query: string)
    returns (added: nat, duplicates: nat, excluded: nat)
    modifies state
    ensures state.Value() == Integrate(a, b, old(state.Value()), response, hop, query)
    ensures added == |state.evidenceItems| - |old(state.evidenceItems)|
    ensures added + duplicates + excluded == |response.results|
  {
    var seenSources := SourceIds(state.evidenceItems);
    var seenText := NormalTexts(a, state.evidenceItems);
    added, duplicates, excluded := 0, 0, 0;
    var i := 0;
    while i < |response.results|
      invariant 0 <= i <= |response.results|
      invariant state.evidenceItems == IntegrateAll(a, b, old(state.evidenceItems), response.results[..i], hop, query)
      invariant state.Value() == old(state.Value()).(evidence := state.evidenceItems)
      invariant seenSources == SourceIds(state.evidenceItems)
      invariant seenText == NormalTexts(a, state.evidenceItems)
      invariant |state.evidenceItems| == |old(state.evidenceItems)| + added
      invariant old(state.evidenceItems) <= state.evidenceItems
      invariant added + duplicates + excluded == i
    {
      var result := response.results[i];
      assert response.results[..i + 1] == response.results[..i] + [result];
      i := i + 1;
      if !result.eligible {
        excluded := excluded + 1;
        continue;
      }
      var normalised := a.normalise(result.text);
      if result.sourceId in seenSources || normalised in seenText || |state.evidenceItems| >= b.maxDocuments {
        duplicates := duplicates + 1;
        continue;
      }
      ghost var before := state.evidenceItems;
      state.evidenceItems := state.evidenceItems + [Evidence(result.sourceId, result.text, hop, query)];
      SeenSetsGrow(a, before, Evidence(result.sourceId, result.text, hop, query));
      seenSources := seenSources + {result.sourceId};
      seenText := seenText + {normalised};
      added := added + 1;
    }
    assert response.results[..i] == response.results;
    state.confidence := MaxReal(state.confidence, response.confidence);
    state.noProgressHops := if added > 0 then 0 else state.noProgressHops + 1;
  }

  lemma SeenSetsGrow(a: Analysis, es: seq<Evidence>, e: Evidence)
    ensures SourceIds(es + [e]) == SourceIds(es) + {e.sourceId}
    ensures NormalTexts(a, es + [e]) == NormalTexts(a, es) + {a.normalise(e.text)}
  {
    var n := es + [e];
    assert forall x :: x in n <==> x in es || x == e;
    forall k | k in SourceIds(es) + {e.sourceId} ensures k in SourceIds(n) {
      if k != e.sourceId {
        var x :| x in es && x.sourceId == k;
        assert x in n;
      } else {
        assert e in n;
      }
    }
    forall k | k in NormalTexts(a, es) + {a.normalise(e.text)} ensures k in NormalTexts(a, n) {
      if k != a.normalise(e.text) {
        var x :| x in es && a.normalise(x.text) == k;
        assert x in n;
      } else {
        assert e in n;
      }
    }
  }

  function KeysOf(claims: seq<Claim>, negated: bool): set<string> {
    set c | c in claims && c.negated == negated :: c.key
  }

  lemma ClaimKeysGrow(a: Analysis, es: seq<Evidence>, e: Evidence, negated: bool)
    ensures ClaimKeys(a, es + [e], negated) == ClaimKeys(a, es, negated) + KeysOf(a.claims(e.text), negated)
  {
    var n := es + [e];
    assert forall x :: x in n <==> x in es || x == e;
    forall k | k in ClaimKeys(a, es, negated) ensures k in ClaimKeys(a, n, negated) {
      var x, c :| x in es && c in a.claims(x.text) && c.negated == negated && c.key == k;
      assert x in n;
    }
    forall k | k in KeysOf(a.claims(e.text), negated) ensures k in ClaimKeys(a, n, negated) {
      var c :| c in a.claims(e.text) && c.negated == negated && c.key == k;
      assert e in n;
    }
  }

  lemma KeysOfGrow(claims: seq<Claim>, c: Claim, negated: bool)
    ensures KeysOf(claims + [c], negated) == KeysOf(claims, negated) + if c.negated == negated then {c.key} else {}
  {
    var n := claims + [c];
    assert forall x :: x in n <==> x in claims || x == c;
    forall k | k in KeysOf(claims, negated) ensures k in KeysOf(n, negated) {
      var x :| x in claims && x.negated == negated && x.key == k;
      assert x in n;
    }
    if c.negated == negated {
      assert c in n;
    }
  }

  /** `_contradictions` */
  method Contradictions(a: Analysis, items: seq<Evidence>) returns (conflicts: set<string>)
    ensures conflicts == ClaimKeys(a, items, false) * ClaimKeys(a, items, true)
  {
    var positives: set<string>, negatives: set<string> := {}, {};
    for i := 0 to |items|
      invariant positives == ClaimKeys(a, items[..i], false)
      invariant negatives == ClaimKeys(a, items[..i], true)
    {
      var claims := a.claims(items[i].text);
      ghost var p, n := positives, negatives;
      for j := 0 to |claims|
        invariant positives == p + KeysOf(claims[..j], false)
        invariant negatives == n + KeysOf(claims[..j], true)
      {
        assert claims[..j + 1] == claims[..j] + [claims[j]];
        KeysOfGrow(claims[..j], claims[j], false);
        KeysOfGrow(claims[..j], claims[j], true);
        if claims[j].negated {
          negatives := negatives + {claims[j].key};
        } else {
          positives := positives + {claims[j].key};
        }
      }
      assert claims[..|claims|] == claims;
      assert items[..i + 1] == items[..i] + [items[i]];
      ClaimKeysGrow(a, items[..i], items[i], false);
      ClaimKeysGrow(a, items[..i], items[i], true);
    }
    assert items[..|items|] == items;
    conflicts := positives * negatives;
  }

  /** `evaluate` */
  method EvaluateEvidence(a: Analysis, question: string, items: seq<Evidence>) returns (status: Status)
    ensures status == Evaluate(a, question, items)
    ensures Means(a, question, items, status)
  {
    EvaluateMeaning(a, question, items, Evaluate(a, question, items));
    hide Means;
    if items == [] {
      return Unanswerable;
    }
    var coverage := Coverage(a, question, items);
    var conflicts := Contradictions(a, items);
    if conflicts != {} {
      return Contradictory;
    }
    if coverage >= 0.60 {
      return Sufficient;
    }
    return NeedMoreEvidence;
  }

  /** The controller: its request-independent collaborators. */
  class ReasoningController {
    const analysis: Analysis
    const oracles: Oracles

    constructor (a: Analysis, o: Oracles)
      ensures analysis == a && oracles == o
    {
      analysis, oracles := a, o;
    }

    /** `_advised_query` */
    method Advise(b: Budget, state: EvidenceState, stop: Stop) returns (query: Option<string>)
      modifies state
      ensures (state.Value(), query) == AdvisedQuery(analysis, b, oracles, old(state.Value()), stop)
    {
      var concerned := stop == NoNewEvidence || stop == DuplicateQuery || stop == StopContradictory;
      if !concerned || oracles.advise.None? || state.reflectionInterventions >= b.maxInterventions {
        return None;
      }
      var reply := oracles.advise.value(state.reflectionInterventions);
      state.reflectionInterventions := state.reflectionInterventions + 1;
      if reply.None? {
        return None;
      }
      var advice := reply.value;
      var candidate := Collapse(analysis.charset, advice.suggestedQuery);
      var rejected := !advice.trigger || !advice.queryAction || candidate == "" ||
                      advice.confidence < b.reflectionThreshold || advice.leaks;
      var attempted := QueryKeys(analysis.charset, state.attemptedQueries);
      var exceedsBudget := state.retrievalCalls + 1 > b.maxRetrievalCalls || |state.attemptedQueries| + 1 > b.maxHops;
      if rejected || Lower(analysis.charset, candidate) in attempted || exceedsBudget {
        return None;
      }
      return Some(candidate);
    }

    /** `_synthesize` */
    method Finish(b: Budget, state: EvidenceState, status: Status, stop: Stop) returns (out: Outcome)
      modifies state
      ensures out == Synthesize(b, oracles, old(state.Value()), status, stop)
    {
      if status != Sufficient {
        return Outcome(Abstention(stop), status, stop, state.Value(), 0);
      }
      var reply := oracles.synthesize(state.evidenceItems);
      state.llmCalls := state.llmCalls + if reply.llmUsed then 1 else 0;
      if state.llmCalls > b.maxLlmCalls {
        return Outcome(Silence, Error, MaxLlmCalls, state.Value(), 1);
      }
      return Outcome(Generated(reply.answer), status, stop, state.Value(), 1);
    }

    /** `answer` */
    method Run(request: Request) returns (out: Outcome)
      ensures out == Answer(analysis, oracles, request)
    {
      hide Means, Evaluate, Synthesize, NextNeed, RouteOf, QueryKeys, ContextTokens, QueryKey, Collapse, Lower;
      var b := request.budget;
      var state := new EvidenceState();
      var route := RouteOf(analysis.charset, request);
      if route == Clarify {
        return Outcome(Clarification, Ambiguous, Ambiguity, state.Value(), 0);
      }
      if route == Bypass {
        var reply := oracles.synthesize([]);
        state.llmCalls := if reply.llmUsed then 1 else 0;
        return Outcome(Generated(reply.answer), if reply.answer != "" then Sufficient else Unanswerable, Bypassed, state.Value(), 1);
      }
      var query := request.question;
      var hop := 0;
      while true
        invariant fresh(state)
        invariant hop == |state.attemptedQueries| == state.retrievalCalls < Allowance(b)
        invariant Answer(analysis, oracles, request) == Loop(analysis, oracles, request, route, state.Value(), query)
        decreases Allowance(b) - hop
      {
        var response := oracles.retrieve(hop, query);
        if response.None? {
          return Outcome(Silence, Error, StopError, state.Value(), 0);
        }
        ghost var before := state.Value();
        state.retrievalCalls := state.retrievalCalls + 1;
        var _, _, _ := IntegrateResponse(analysis, b, state, response.value, hop, query);
        state.attemptedQueries := state.attemptedQueries + [query];
        assert state.Value() == Retrieved(analysis, b, before, response.value, query) by {
          assert before.(retrievalCalls := before.retrievalCalls + 1).attempted == before.attempted;
        }
        var status := EvaluateEvidence(analysis, request.question, state.evidenceItems);
        if route == SinglePass {
          out := Finish(b, state, status, SinglePassDone);
          return;
        }
        var need := NextNeed(analysis, request.question, state.Value(), status);
        var stop := StopReason(analysis, b, state.Value(), status, need, oracles.timeIsUp(|state.attemptedQueries|));
        if stop.Some? {
          var reflected := Advise(b, state, stop.value);
          if reflected.Some? {
            query := reflected.value;
            hop := hop + 1;
            continue;
          }
          out := Finish(b, state, status, stop.value);
          return;
        }
        if need.None? {
          out := Finish(b, state, status, StopUnanswerable);
          return;
        }
        query := need.value;
        hop := hop + 1;
      }
    }
  }
}
