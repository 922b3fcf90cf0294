/**
 * The bounded evidence-acquisition loop: retrieve, integrate, verify, decide
 * whether to stop, and possibly let a reflection advisor re-enter the loop.
 * Retriever, advisor, clock and synthesizer are oracles; the text analyses
 * (regular expressions) are parameters.
 */
module Reasoning {
  import opened Options
  import opened Text

  datatype Mode = BypassMode | SinglePassMode | AdaptiveMode | DeliberativeMode | DiagnosticMode

  datatype Route = Bypass | SinglePass | Adaptive | Clarify

  datatype Status = Sufficient | NeedMoreEvidence | Ambiguous | Contradictory | Unanswerable | Error

  datatype Budget = Budget(
    maxHops: int,
    maxRetrievalCalls: int,
    maxLlmCalls: int,
    maxDocuments: int,
    maxContextTokens: int,
    noProgressLimit: int,
    maxInterventions: int,
    reflectionThreshold: real
  )

  datatype Request = Request(question: string, mode: Mode, budget: Budget)

  datatype Result = Result(sourceId: string, eligible: bool, text: string)

  datatype Response = Response(results: seq<Result>, confidence: real)

  datatype Evidence = Evidence(sourceId: string, text: string, hop: nat, query: string)

  datatype Claim = Claim(key: string, negated: bool)

  datatype Advice = Advice(trigger: bool, queryAction: bool, suggestedQuery: string, confidence: real, leaks: bool)

  /** `None`: the advisor raised. */
  type AdviceReply = Option<Advice>

  datatype Synthesis = Synthesis(answer: string, llmUsed: bool)

  /** Text analyses: evidence normalisation, terms, claims and (stripped) entity names. */
  datatype Analysis = Analysis(
    charset: Charset,
    normalise: string -> string,
    terms: string -> set<string>,
    claims: string -> seq<Claim>,
    entities: string -> seq<string>
  )

  /** The n-th retrieval, advice and clock reading of a run. */
  datatype Oracles = Oracles(
    retrieve: (nat, string) -> Option<Response>,
    advise: Option<nat -> AdviceReply>,
    timeIsUp: nat -> bool,
    synthesize: seq<Evidence> -> Synthesis
  )

  datatype Stop =
    | StopSufficient | StopAmbiguous | StopContradictory | StopUnanswerable | StopError
    | TimeBudget | MaxRetrievalCalls | MaxHops | ContextBudget | NoNewEvidence | DuplicateQuery
    | SinglePassDone | Ambiguity | Bypassed | MaxLlmCalls

  datatype State = State(
    evidence: seq<Evidence>,
    attempted: seq<string>,
    confidence: real,
    retrievalCalls: nat,
    llmCalls: nat,
    noProgressHops: nat,
    interventions: nat
  )

  const START := State([], [], 0.0, 0, 0, 0, 0)

  // ---- evidence integrator ---------------------------------------------------------

  function SourceIds(es: seq<Evidence>): set<string> { set e | e in es :: e.sourceId }

  function NormalTexts(a: Analysis, es: seq<Evidence>): set<string> { set e | e in es :: a.normalise(e.text) }

  predicate Admits(a: Analysis, b: Budget, es: seq<Evidence>, r: Result) {
    && r.eligible
    && r.sourceId !in SourceIds(es)
    && a.normalise(r.text) !in NormalTexts(a, es)
    && |es| < b.maxDocuments
  }

  function IntegrateOne(a: Analysis, b: Budget, es: seq<Evidence>, r: Result, hop: nat, query: string): seq<Evidence> {
    if Admits(a, b, es, r) then es + [Evidence(r.sourceId, r.text, hop, query)] else es
  }

  /** The evidence after a response's results were considered in order. */
  function IntegrateAll(a: Analysis, b: Budget, es: seq<Evidence>, rs: seq<Result>, hop: nat, query: string): seq<Evidence> {
    if rs == [] then es
    else IntegrateOne(a, b, IntegrateAll(a, b, es, rs[..|rs| - 1], hop, query), rs[|rs| - 1], hop, query)
  }

  function MaxReal(x: real, y: real): real { if x >= y then x else y }

  function Integrate(a: Analysis, b: Budget, s: State, r: Response, hop: nat, query: string): State {
    var es := IntegrateAll(a, b, s.evidence, r.results, hop, query);
    s.(evidence := es, confidence := MaxReal(s.confidence, r.confidence),
       noProgressHops := if es != s.evidence then 0 else s.noProgressHops + 1)
  }

  // ---- sufficiency verifier -----------------------------------------------------------

  function ClaimKeys(a: Analysis, es: seq<Evidence>, negated: bool): set<string> {
    set e, c | e in es && c in a.claims(e.text) && c.negated == negated :: c.key
  }

  predicate Contradicted(a: Analysis, es: seq<Evidence>) {
    ClaimKeys(a, es, false) * ClaimKeys(a, es, true) != {}
  }

  function EvidenceTerms(a: Analysis, es: seq<Evidence>): set<string> {
    set e, t | e in es && t in a.terms(e.text) :: t
  }

  function Coverage(a: Analysis, question: string, es: seq<Evidence>): real {
    var q := a.terms(question);
    |q * EvidenceTerms(a, es)| as real / (if |q| >= 1 then |q| else 1) as real
  }

  function Evaluate(a: Analysis, question: string, es: seq<Evidence>): Status {
    if es == [] then Unanswerable
    else if Contradicted(a, es) then Contradictory
    else if Coverage(a, question, es) >= 0.60 then Sufficient
    else NeedMoreEvidence
  }

  // ---- need generator and stopping policy ------------------------------------------------

  function QueryKeys(cs: Charset, queries: seq<string>): set<string> { set q | q in queries :: QueryKey(cs, q) }

  predicate IsFreshNeed(a: Analysis, question: string, attempted: seq<string>, candidate: string) {
    && !Mentions(Lower(a.charset, question), Lower(a.charset, candidate))
    && QueryKey(a.charset, candidate) !in QueryKeys(a.charset, attempted)
  }

  function FirstFresh(a: Analysis, question: string, attempted: seq<string>, candidates: seq<string>): Option<string> {
    if candidates == [] then None
    else if IsFreshNeed(a, question, attempted, candidates[0]) then Some(candidates[0])
    else FirstFresh(a, question, attempted, candidates[1..])
  }

  /** The next query: the first fresh entity of the most recent evidence that has one. */
  function GenerateNeed(a: Analysis, question: string, es: seq<Evidence>, attempted: seq<string>): Option<string> {
    if es == [] then None
    else
      match FirstFresh(a, question, attempted, a.entities(es[|es| - 1].text))
      case Some(q) => Some(q)
      case None => GenerateNeed(a, question, es[..|es| - 1], attempted)
  }

  function ContextTokens(a: Analysis, es: seq<Evidence>): nat {
    if es == [] then 0
    else
      var words := |Words(a.charset, es[|es| - 1].text)|;
      ContextTokens(a, es[..|es| - 1]) + if words >= 1 then words else 1
  }

  function StopReason(a: Analysis, b: Budget, s: State, status: Status, next: Option<string>, timeIsUp: bool): Option<Stop> {
    match status
    case Sufficient => Some(StopSufficient)
    case Ambiguous => Some(StopAmbiguous)
    case Contradictory => Some(StopContradictory)
    case Unanswerable => Some(StopUnanswerable)
    case Error => Some(StopError)
    case NeedMoreEvidence =>
      if timeIsUp then Some(TimeBudget)
      else if s.retrievalCalls >= b.maxRetrievalCalls then Some(MaxRetrievalCalls)
      else if |s.attempted| >= b.maxHops then Some(MaxHops)
      else if ContextTokens(a, s.evidence) >= b.maxContextTokens then Some(ContextBudget)
      else if s.noProgressHops >= b.noProgressLimit then Some(NoNewEvidence)
      else if next.Some? && next.value != ""
              && QueryKey(a.charset, next.value) in QueryKeys(a.charset, s.attempted) then Some(DuplicateQuery)
      else None
  }

  // ---- reflection ----------------------------------------------------------------------------

  /** `_advised_query`: the state it leaves and the query it grants. */
  function AdvisedQuery(a: Analysis, b: Budget, o: Oracles, s: State, stop: Stop): (State, Option<string>) {
    if !(stop == NoNewEvidence || stop == DuplicateQuery || stop == StopContradictory)
       || o.advise.None? || s.interventions >= b.maxInterventions then (s, None)
    else
      var s1 := s.(interventions := s.interventions + 1);
      match o.advise.value(s.interventions)
      case None => (s1, None)
      case Some(advice) =>
        var candidate := Collapse(a.charset, advice.suggestedQuery);
        if !advice.trigger || !advice.queryAction || candidate == "" || advice.confidence < b.reflectionThreshold
           || advice.leaks then (s1, None)
        else if Lower(a.charset, candidate) in QueryKeys(a.charset, s.attempted) then (s1, None)
        else if s.retrievalCalls + 1 > b.maxRetrievalCalls || |s.attempted| + 1 > b.maxHops then (s1, None)
        else (s1, Some(candidate))
  }

  // ---- controller --------------------------------------------------------------------------------

  /** The answer text: the synthesizer's, the abstention naming a stop reason, a clarification request, or nothing. */
  datatype Reply = Generated(text: string) | Abstention(reason: Stop) | Clarification | Silence

  datatype Outcome = Outcome(answer: Reply, status: Status, stop: Stop, state: State, syntheses: nat)

  function Synthesize(b: Budget, o: Oracles, s: State, status: Status, stop: Stop): Outcome {
    if status != Sufficient then Outcome(Abstention(stop), status, stop, s, 0)
    else
      var r := o.synthesize(s.evidence);
      var s1 := s.(llmCalls := s.llmCalls + if r.llmUsed then 1 else 0);
      if s1.llmCalls > b.maxLlmCalls then Outcome(Silence, Error, MaxLlmCalls, s1, 1)
      else Outcome(Generated(r.answer), status, stop, s1, 1)
  }

  /** Retrievals a run may make: the smaller budget, but always one. */
  function Allowance(b: Budget): nat {
    var m := if b.maxRetrievalCalls <= b.maxHops then b.maxRetrievalCalls else b.maxHops;
    if m >= 1 then m else 1
  }

  /** The state after the retrieval for `query` answered. */
  function Retrieved(a: Analysis, b: Budget, s: State, r: Response, query: string): State {
    Integrate(a, b, s.(retrievalCalls := s.retrievalCalls + 1), r, |s.attempted|, query)
      .(attempted := s.attempted + [query])
  }

  function NextNeed(a: Analysis, question: string, s: State, status: Status): Option<string> {
    if status == NeedMoreEvidence then GenerateNeed(a, question, s.evidence, s.attempted) else None
  }

  /** The loop from the retrieval for `query` on. The source's `hop` is always |attempted|. */
  function Loop(a: Analysis, o: Oracles, request: Request, route: Route, s: State, query: string): Outcome
    requires s.retrievalCalls == |s.attempted| < Allowance(request.budget)
    decreases Allowance(request.budget) - |s.attempted|, 0
  {
    match o.retrieve(|s.attempted|, query)
    case None => Outcome(Silence, Error, StopError, s, 0)
    case Some(response) =>
      var s1 := Retrieved(a, request.budget, s, response, query);
      if route == SinglePass then
        Synthesize(request.budget, o, s1, Evaluate(a, request.question, s1.evidence), SinglePassDone)
      else
        Decide(a, o, request, route, s1)
  }

  /** An adaptive turn after its retrieval: stop, let a reflection re-enter, or follow the next need. */
  function Decide(a: Analysis, o: Oracles, request: Request, route: Route, s: State): Outcome
    requires s.retrievalCalls == |s.attempted| <= Allowance(request.budget)
    decreases Allowance(request.budget) - |s.attempted|, 1
  {
    var b := request.budget;
    var status := Evaluate(a, request.question, s.evidence);
    var need := NextNeed(a, request.question, s, status);
    match StopReason(a, b, s, status, need, o.timeIsUp(|s.attempted|))
    case Some(stop) =>
      (match AdvisedQuery(a, b, o, s, stop)
       case (s2, Some(q)) => Loop(a, o, request, route, s2, q)
       case (s2, None) => Synthesize(b, o, s2, status, stop))
    case None =>
      match need
      case None => Synthesize(b, o, s, status, StopUnanswerable)
      case Some(q) => Loop(a, o, request, route, s, q)
  }

  /** `TaskAnalyzer.route` */
  function RouteOf(cs: Charset, request: Request): Route {
    match request.mode
    case BypassMode => Bypass
    case SinglePassMode => SinglePass
    case _ =>
      var question := Lower(cs, Strip(cs, request.question));
      if question == "" then Clarify
      else if question in {"hi", "hello", "thanks", "thank you"} then Bypass
      else Adaptive
  }

  /** `ReasoningController.answer` */
  function Answer(a: Analysis, o: Oracles, request: Request): Outcome {
    match RouteOf(a.charset, request)
    case Clarify => Outcome(Clarification, Ambiguous, Ambiguity, START, 0)
    case Bypass =>
      var r := o.synthesize([]);
      Outcome(Generated(r.answer), if r.answer != "" then Sufficient else Unanswerable, Bypassed,
              START.(llmCalls := if r.llmUsed then 1 else 0), 1)
    case route => Loop(a, o, request, route, START, request.question)
  }

  // ---- what one retrieval keeps ------------------------------------------------------------------

  predicate DistinctKeys(cs: Charset, queries: seq<string>) {
    forall i, j :: 0 <= i < j < |queries| ==> QueryKey(cs, queries[i]) != QueryKey(cs, queries[j])
  }

  /** No source and no normalised text twice. */
  predicate NoDuplicates(a: Analysis, es: seq<Evidence>) {
    forall i, j :: 0 <= i < j < |es| ==>
      es[i].sourceId != es[j].sourceId && a.normalise(es[i].text) != a.normalise(es[j].text)
  }

  /** The item was an eligible result of the retrieval its hop and query name. */
  ghost predicate HasSource(o: Oracles, attempted: seq<string>, e: Evidence) {
    && e.hop < |attempted| && attempted[e.hop] == e.query
    && o.retrieve(e.hop, e.query).Some?
    && exists r :: r in o.retrieve(e.hop, e.query).value.results && r.eligible && r.sourceId == e.sourceId && r.text == e.text
  }

  /** Exactly the last `noProgressHops` retrievals added nothing. */
  ghost predicate Stalled(s: State) {
    && s.noProgressHops <= |s.attempted|
    && (forall e :: e in s.evidence ==> e.hop + s.noProgressHops < |s.attempted|)
    && (s.noProgressHops < |s.attempted| ==> exists e :: e in s.evidence && e.hop + s.noProgressHops + 1 == |s.attempted|)
  }

  /** The confidence is the highest any retrieval reported, and never below zero. */
  ghost predicate Highest(o: Oracles, s: State) {
    && s.confidence >= 0.0
    && (forall k :: 0 <= k < |s.attempted| ==>
          o.retrieve(k, s.attempted[k]).Some? && o.retrieve(k, s.attempted[k]).value.confidence <= s.confidence)
    && (s.confidence == 0.0 || exists k :: 0 <= k < |s.attempted| && o.retrieve(k, s.attempted[k]).Some?
                                           && o.retrieve(k, s.attempted[k]).value.confidence == s.confidence)
  }

  ghost predicate Sound(a: Analysis, o: Oracles, b: Budget, s: State) {
    && s.retrievalCalls == |s.attempted|
    && DistinctKeys(a.charset, s.attempted)
    && NoDuplicates(a, s.evidence)
    && |s.evidence| <= (if b.maxDocuments >= 0 then b.maxDocuments else 0)
    && (forall e :: e in s.evidence ==> HasSource(o, s.attempted, e))
    && s.interventions <= (if b.maxInterventions >= 0 then b.maxInterventions else 0)
    && s.llmCalls == 0
    && Stalled(s) && Highest(o, s)
  }

  lemma {:induction false} IntegrateAllKeeps(a: Analysis, b: Budget, es: seq<Evidence>, rs: seq<Result>, hop: nat, query: string)
    requires NoDuplicates(a, es) && |es| <= (if b.maxDocuments >= 0 then b.maxDocuments else 0)
    ensures var n := IntegrateAll(a, b, es, rs, hop, query);
            && es <= n
            && NoDuplicates(a, n)
            && |n| <= (if b.maxDocuments >= 0 then b.maxDocuments else 0)
            && forall i :: |es| <= i < |n| ==>
                 n[i].hop == hop && n[i].query == query
                 && exists r :: r in rs && r.eligible && r.sourceId == n[i].sourceId && r.text == n[i].text
  {
    if rs != [] {
      var front, last := rs[..|rs| - 1], rs[|rs| - 1];
      IntegrateAllKeeps(a, b, es, front, hop, query);
      var m := IntegrateAll(a, b, es, front, hop, query);
      var n := IntegrateAll(a, b, es, rs, hop, query);
      assert rs == front + [last];
      if Admits(a, b, m, last) {
        forall i | 0 <= i < |m|
          ensures m[i].sourceId != last.sourceId && a.normalise(m[i].text) != a.normalise(last.text)
        {
          assert m[i].sourceId in SourceIds(m) && a.normalise(m[i].text) in NormalTexts(a, m);
        }
      }
    }
  }
}
