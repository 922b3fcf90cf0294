/**
 * The bounded provider every campaign benchmark shares: a semaphore, one lock,
 * a response cache and counters, used by any number of threads. One step is one
 * lock section, one provider call, or one semaphore operation of one thread.
 */
module Provider {
  import opened Options

  type Tid = nat
  type Key = string
  type Reply = string

  /** A request object: its identity and the cache key its fields serialize to. */
  datatype Request = Request(id: nat, key: Key)

  datatype Outcome = Replied(reply: Reply) | Raised

  /** Where a thread stands inside `send`. */
  datatype Pc =
    | Idle
    | Waiting(request: Request)
    | Holding(request: Request)
    | Calling(request: Request)
    | Storing(request: Request, reply: Reply, usageReadable: bool)
    | Excepting(request: Request, isTimeout: bool)
    | Finalizing(request: Request, outcome: Outcome)
    | Releasing(request: Request, outcome: Outcome)
  {
    /** Inside `with self._semaphore`. */
    predicate HoldsPermit() { !Idle? && !Waiting? }
    /** Between the increment and the decrement of `_active`. */
    predicate IsActive() { Calling? || Storing? || Excepting? || Finalizing? }
  }

  /** What the lock protects. */
  datatype Shared = Shared(
    cache: map<Key, Reply>,
    cacheHits: nat,
    attempts: nat,
    retries: nat,
    active: int,
    maxActive: int,
    successes: nat,
    timeouts: nat,
    latencies: nat
  )

  /** First lock section: a cached reply, or one more active request. */
  function Enter(s: Shared, request: Request, last: Option<nat>): (Shared, Option<Reply>) {
    if request.key in s.cache then (s.(cacheHits := s.cacheHits + 1), Some(s.cache[request.key]))
    else
      var active := s.active + 1;
      (s.(attempts := s.attempts + 1, retries := if last == Some(request.id) then s.retries + 1 else s.retries,
          active := active, maxActive := if s.maxActive >= active then s.maxActive else active), None)
  }

  /** Second lock section, after the provider replied. */
  function Store(s: Shared, key: Key, reply: Reply): Shared {
    s.(successes := s.successes + 1, cache := s.cache[key := reply])
  }

  /** The except clause's lock section. */
  function Except(s: Shared, isTimeout: bool): Shared {
    if isTimeout then s.(timeouts := s.timeouts + 1) else s
  }

  /** The finally clause's lock section. */
  function Leave(s: Shared): Shared {
    s.(active := s.active - 1, latencies := s.latencies + 1)
  }

  /** The provider's answer to one call. */
  datatype Answer = Ok(reply: Reply, usageReadable: bool) | ProviderFailure(isTimeout: bool) | OtherFailure

  /** What the answer to a call leaves before the finally clause. */
  function Answering(s: Shared, key: Key, answer: Answer): (Shared, Outcome) {
    match answer
    case Ok(reply, readable) => (Store(s, key, reply), if readable then Replied(reply) else Raised)
    case ProviderFailure(isTimeout) => (Except(s, isTimeout), Raised)
    case OtherFailure => (s, Raised)
  }

  /** A whole `send` that no other thread interrupts: the sections in order around the provider's answer. */
  function Alone(s: Shared, request: Request, last: Option<nat>, answer: Answer): (Shared, Outcome) {
    match Enter(s, request, last)
    case (s1, Some(reply)) => (s1, Replied(reply))
    case (s1, None) =>
      var (s2, outcome) := Answering(s1, request.key, answer);
      (Leave(s2), outcome)
  }

  /** The fields of `_BoundedProvider`, one method per lock section. */
  class BoundedProvider {
    var cache: map<Key, Reply>
    var cacheHits: nat
    var attempts: nat
    var retries: nat
    var active: int
    var maxActive: int
    var successes: nat
    var timeouts: nat
    var latencies: nat

    constructor ()
      ensures State() == INITIAL
    {
      cache, cacheHits, attempts, retries, active, maxActive := map[], 0, 0, 0, 0, 0;
      successes, timeouts, latencies := 0, 0, 0;
    }

    ghost function State(): Shared
      reads this
    {
      Shared(cache, cacheHits, attempts, retries, active, maxActive, successes, timeouts, latencies)
    }

    method EnterSection(request: Request, last: Option<nat>) returns (cached: Option<Reply>)
      modifies this
      ensures (State(), cached) == Enter(old(State()), request, last)
      ensures cached == if request.key in old(cache) then Some(old(cache)[request.key]) else None
      ensures retries == old(retries) + if cached.None? && last == Some(request.id) then 1 else 0
      ensures attempts == old(attempts) + if cached.None? then 1 else 0
    {
      if request.key in cache {
        cacheHits := cacheHits + 1;
        return Some(cache[request.key]);
      }
      attempts := attempts + 1;
      if last == Some(request.id) {
        retries := retries + 1;
      }
      active := active + 1;
      if active > maxActive {
        maxActive := active;
      }
      cached := None;
    }

    method StoreSection(key: Key, reply: Reply)
      modifies this
      ensures State() == Store(old(State()), key, reply)
    {
      successes := successes + 1;
      cache := cache[key := reply];
    }

    method ExceptSection(isTimeout: bool)
      modifies this
      ensures State() == Except(old(State()), isTimeout)
    {
      if isTimeout {
        timeouts := timeouts + 1;
      }
    }

    method FinallySection()
      modifies this
      ensures State() == Leave(old(State()))
    {
      active := active - 1;
      latencies := latencies + 1;
    }

    /** `send` between acquiring and releasing the semaphore, with the provider's answer and the thread's last request. */
    method Send(request: Request, last: Option<nat>, answer: Answer) returns (outcome: Outcome)
      modifies this
      ensures (State(), outcome) == Alone(old(State()), request, last, answer)
      ensures request.key in old(cache) ==> outcome == Replied(old(cache)[request.key]) && cache == old(cache)
      ensures request.key !in old(cache) ==>
                && (if answer.Ok? && answer.usageReadable then outcome == Replied(answer.reply) else outcome == Raised)
                && cache == (if answer.Ok? then old(cache)[request.key := answer.reply] else old(cache))
                && timeouts == old(timeouts) + (if answer == ProviderFailure(true) then 1 else 0)
      ensures active == old(active)
    {
      var cached := EnterSection(request, last);
      if cached.Some? {
        return Replied(cached.value);
      }
      match answer {
        case Ok(reply, readable) =>
          StoreSection(request.key, reply);
          outcome := if readable then Replied(reply) else Raised;
        case ProviderFailure(isTimeout) =>
          ExceptSection(isTimeout);
          outcome := Raised;
        case OtherFailure =>
          outcome := Raised;
      }
      FinallySection();
    }
  }

  const INITIAL := Shared(map[], 0, 0, 0, 0, 0, 0, 0, 0)

  /** Why `send` ends: the reply it found under its key, or the provider's answer. */
  datatype Cause = Found(reply: Reply) | Got(answer: Answer)

  /** One finished `send`. */
  datatype Delivery = Delivery(request: Request, cause: Option<Cause>, outcome: Outcome)

  /** What happened outside the object, kept for the statements below, oldest first. */
  datatype Log = Log(
    returned: seq<(Key, Reply)>,        // replies the provider itself returned
    answers: seq<Answer>,               // all its answers
    delivered: seq<Delivery>,           // what `send` gave back to its callers
    sent: seq<(Tid, Request)>,          // the provider calls started, and by whom
    causes: map<Tid, Cause>             // each thread's latest cause
  ) {
    function CauseOf(t: Tid): Option<Cause> {
      if t in causes then Some(causes[t]) else None
    }
  }

  datatype World = World(
    permits: nat,
    shared: Shared,
    pcs: map<Tid, Pc>,
    lastRequest: map<Tid, nat>,
    log: Log
  ) {
    function At(t: Tid): Pc {
      if t in pcs then pcs[t] else Idle
    }

    function Move(t: Tid, pc: Pc): World {
      this.(pcs := pcs[t := pc])
    }
  }

  const EMPTY_LOG := Log([], [], [], [], map[])

  ghost predicate Init(limit: nat, w: World) {
    w == World(limit, INITIAL, map[], map[], EMPTY_LOG)
  }

  datatype Action =
    | Send(request: Request)     // a caller enters `send`
    | Acquire                    // the semaphore lets the thread in
    | EnterLock
    | Answered(answer: Answer)   // the provider returns or raises
    | StoreLock
    | ExceptLock
    | FinallyLock
    | Release                    // the semaphore is given back and `send` ends

  predicate Enabled(w: World, t: Tid, a: Action) {
    match a
    case Send(_) => w.At(t).Idle?
    case Acquire => w.At(t).Waiting? && w.permits > 0
    case EnterLock => w.At(t).Holding?
    case Answered(_) => w.At(t).Calling?
    case StoreLock => w.At(t).Storing?
    case ExceptLock => w.At(t).Excepting?
    case FinallyLock => w.At(t).Finalizing?
    case Release => w.At(t).Releasing?
  }

  /** One step of thread `t`. */
  function Next(w: World, t: Tid, a: Action): World
    requires Enabled(w, t, a)
  {
    var pc := w.At(t);
    match a
    case Send(request) => w.Move(t, Waiting(request))
    case Acquire => w.Move(t, Holding(pc.request)).(permits := w.permits - 1)
    case EnterLock =>
      var (shared, cached) := Enter(w.shared, pc.request, Last(w, t));
      if cached.Some? then
        w.Move(t, Releasing(pc.request, Replied(cached.value)))
         .(shared := shared,
           log := if pc.request.key in w.shared.cache
                  then w.log.(causes := w.log.causes[t := Found(w.shared.cache[pc.request.key])]) else w.log)
      else
        w.Move(t, Calling(pc.request))
         .(shared := shared, lastRequest := w.lastRequest[t := pc.request.id],
           log := w.log.(sent := w.log.sent + [(t, pc.request)]))
    case Answered(answer) =>
      var log := w.log.(answers := w.log.answers + [answer], causes := w.log.causes[t := Got(answer)]);
      (match answer
       case Ok(reply, readable) =>
         w.Move(t, Storing(pc.request, reply, readable))
          .(log := log.(returned := w.log.returned + [(pc.request.key, reply)]))
       case ProviderFailure(isTimeout) => w.Move(t, Excepting(pc.request, isTimeout)).(log := log)
       case OtherFailure => w.Move(t, Finalizing(pc.request, Raised)).(log := log))
    case StoreLock =>
      w.Move(t, Finalizing(pc.request, if pc.usageReadable then Replied(pc.reply) else Raised))
       .(shared := Store(w.shared, pc.request.key, pc.reply))
    case ExceptLock => w.Move(t, Finalizing(pc.request, Raised)).(shared := Except(w.shared, pc.isTimeout))
    case FinallyLock => w.Move(t, Releasing(pc.request, pc.outcome)).(shared := Leave(w.shared))
    case Release =>
      w.Move(t, Idle).(permits := w.permits + 1,
                       log := w.log.(delivered := w.log.delivered + [Delivery(pc.request, w.log.CauseOf(t), pc.outcome)]))
  }

  /** Any interleaving of any threads: a schedule of enabled steps. */
  ghost predicate Runs(w: World, schedule: seq<(Tid, Action)>)
    decreases |schedule|
  {
    schedule == [] ||
    (Enabled(w, schedule[0].0, schedule[0].1) && Runs(Next(w, schedule[0].0, schedule[0].1), schedule[1..]))
  }

  ghost function After(w: World, schedule: seq<(Tid, Action)>): World
    requires Runs(w, schedule)
    decreases |schedule|
  {
    if schedule == [] then w else After(Next(w, schedule[0].0, schedule[0].1), schedule[1..])
  }

  // ---- one thread alone ----------------------------------------------------

  /** The steps of an undisturbed `send` after its first lock section. */
  function Ending(t: Tid, hit: bool, answer: Answer): seq<(Tid, Action)> {
    if hit then [(t, Release)]
    else
      match answer
      case Ok(_, _) => [(t, Answered(answer)), (t, StoreLock), (t, FinallyLock), (t, Release)]
      case ProviderFailure(_) => [(t, Answered(answer)), (t, ExceptLock), (t, FinallyLock), (t, Release)]
      case OtherFailure => [(t, Answered(answer)), (t, FinallyLock), (t, Release)]
  }

  function Solo(t: Tid, request: Request, hit: bool, answer: Answer): seq<(Tid, Action)> {
    [(t, Send(request)), (t, Acquire), (t, EnterLock)] + Ending(t, hit, answer)
  }

  function Last(w: World, t: Tid): Option<nat> {
    if t in w.lastRequest then Some(w.lastRequest[t]) else None
  }

  /** The world after an undisturbed `send` of an idle thread. */
  function Served(w: World, t: Tid, request: Request, answer: Answer): World {
    var (shared, outcome) := Alone(w.shared, request, Last(w, t), answer);
    var hit := request.key in w.shared.cache;
    var cause := if hit then Found(w.shared.cache[request.key]) else Got(answer);
    w.(shared := shared,
       pcs := w.pcs[t := Idle],
       lastRequest := if hit then w.lastRequest else w.lastRequest[t := request.id],
       log := Log(if !hit && answer.Ok? then w.log.returned + [(request.key, answer.reply)] else w.log.returned,
                  if hit then w.log.answers else w.log.answers + [answer],
                  w.log.delivered + [Delivery(request, Some(cause), outcome)],
                  if hit then w.log.sent else w.log.sent + [(t, request)],
                  w.log.causes[t := cause]))
  }

  lemma RunsStep(w: World, t: Tid, a: Action, rest: seq<(Tid, Action)>)
    requires Enabled(w, t, a) && Runs(Next(w, t, a), rest)
    ensures Runs(w, [(t, a)] + rest) && After(w, [(t, a)] + rest) == After(Next(w, t, a), rest)
  {
    assert ([(t, a)] + rest)[1..] == rest;
  }

  lemma OpeningIsEnabled(w: World, t: Tid, request: Request)
    requires w.At(t).Idle? && w.permits > 0
    ensures Enabled(w, t, Send(request))
    ensures Enabled(Next(w, t, Send(request)), t, Acquire)
    ensures Enabled(Next(Next(w, t, Send(request)), t, Acquire), t, EnterLock)
  {
  }

  lemma SoloIs(t: Tid, request: Request, hit: bool, answer: Answer)
    ensures Solo(t, request, hit, answer)
         == [(t, Send(request))] + ([(t, Acquire)] + ([(t, EnterLock)] + Ending(t, hit, answer)))
  {
  }

  /** The object's `Send` is one of the schedules: the same shared state, one delivered outcome, no permit lost. */
  lemma SendIsASchedule(w: World, t: Tid, request: Request, answer: Answer)
    requires w.At(t).Idle? && w.permits > 0
    ensures var schedule := Solo(t, request, request.key in w.shared.cache, answer);
            Runs(w, schedule) && After(w, schedule) == Served(w, t, request, answer)
  {
    hide *;
    OpeningIsEnabled(w, t, request);
    var w1 := Next(w, t, Send(request));
    var w2 := Next(w1, t, Acquire);
    var w3 := Next(w2, t, EnterLock);
    var rest := Ending(t, request.key in w.shared.cache, answer);
    EndingServes(w, w3, t, request, answer);
    RunsStep(w2, t, EnterLock, rest);
    RunsStep(w1, t, Acquire, [(t, EnterLock)] + rest);
    RunsStep(w, t, Send(request), [(t, Acquire)] + ([(t, EnterLock)] + rest));
    SoloIs(t, request, request.key in w.shared.cache, answer);
  }

  lemma EndingServes(w: World, w3: World, t: Tid, request: Request, answer: Answer)
    requires w.At(t).Idle? && w.permits > 0
    requires w3 == Next(Next(Next(w, t, Send(request)), t, Acquire), t, EnterLock)
    ensures var s3 := Ending(t, request.key in w.shared.cache, answer);
            Runs(w3, s3) && After(w3, s3) == Served(w, t, request, answer)
  {
    var (s1, cached) := Enter(w.shared, request, Last(w, t));
    if request.key in w.shared.cache {
      RunsStep(w3, t, Release, []);
    } else {
      assert w3.At(t) == Calling(request) && w3.shared == s1 && w3.permits == w.permits - 1;
      assert w3.pcs == w.pcs[t := Calling(request)];
      CallRuns(w3, t, answer);
      hide Runs, After, Enter, Next;
    }
  }

  /** From the provider call to the end of `send`. */
  lemma CallRuns(w: World, t: Tid, answer: Answer)
    requires w.At(t).Calling?
    ensures var request, s := w.At(t).request, Ending(t, false, answer);
            var (shared, outcome) := Answering(w.shared, request.key, answer);
            && Runs(w, s)
            && After(w, s) == w.(shared := Leave(shared), pcs := w.pcs[t := Idle], permits := w.permits + 1,
                                 log := Log(if answer.Ok? then w.log.returned + [(request.key, answer.reply)] else w.log.returned,
                                            w.log.answers + [answer],
                                            w.log.delivered + [Delivery(request, Some(Got(answer)), outcome)],
                                            w.log.sent, w.log.causes[t := Got(answer)]))
  {
    var w1 := Next(w, t, Answered(answer));
    match answer
    case Ok(_, _) =>
      var w2 := Next(w1, t, StoreLock);
      LeavingRuns(w2, t);
      RunsStep(w1, t, StoreLock, [(t, FinallyLock), (t, Release)]);
      RunsStep(w, t, Answered(answer), [(t, StoreLock), (t, FinallyLock), (t, Release)]);
      hide Runs, After;
      assert w2.pcs[t := Idle] == w.pcs[t := Idle];
    case ProviderFailure(_) =>
      var w2 := Next(w1, t, ExceptLock);
      LeavingRuns(w2, t);
      RunsStep(w1, t, ExceptLock, [(t, FinallyLock), (t, Release)]);
      RunsStep(w, t, Answered(answer), [(t, ExceptLock), (t, FinallyLock), (t, Release)]);
      hide Runs, After;
      assert w2.pcs[t := Idle] == w.pcs[t := Idle];
    case OtherFailure =>
      LeavingRuns(w1, t);
      RunsStep(w, t, Answered(answer), [(t, FinallyLock), (t, Release)]);
      hide Runs, After;
      assert w1.pcs[t := Idle] == w.pcs[t := Idle];
  }

  lemma LeavingRuns(w: World, t: Tid)
    requires w.At(t).Finalizing?
    ensures var s := [(t, FinallyLock), (t, Release)];
            && Runs(w, s)
            && After(w, s) == w.(shared := Leave(w.shared), pcs := w.pcs[t := Idle], permits := w.permits + 1,
                                 log := w.log.(delivered := w.log.delivered
                                                 + [Delivery(w.At(t).request, w.log.CauseOf(t), w.At(t).outcome)]))
  {
    var n := Next(w, t, FinallyLock);
    RunsStep(n, t, Release, []);
    RunsStep(w, t, FinallyLock, [(t, Release)]);
    assert n.pcs[t := Idle] == w.pcs[t := Idle];
  }

  // ---- counting threads ----------------------------------------------------

  /** How many threads stand at a point satisfying `f`. */
  ghost function Count(pcs: map<Tid, Pc>, f: Pc -> bool): nat {
    |Standing(pcs, f)|
  }

  ghost function Standing(pcs: map<Tid, Pc>, f: Pc -> bool): set<Tid> {
    set t | t in pcs && f(pcs[t])
  }

  ghost function Bit(b: bool): nat { if b then 1 else 0 }

  lemma CountUpdate(pcs: map<Tid, Pc>, t: Tid, pc: Pc, f: Pc -> bool)
    ensures Count(pcs[t := pc], f) + Bit(t in pcs && f(pcs[t])) == Count(pcs, f) + Bit(f(pc))
  {
    var s, r := Standing(pcs, f), Standing(pcs[t := pc], f);
    var others := s - {t};
    assert forall u :: u in r <==> (if u == t then f(pc) else u in s);
    assert s == if t in s then others + {t} else others;
    assert r == if t in r then others + {t} else others;
  }

  lemma CountMove(w: World, t: Tid, pc: Pc, f: Pc -> bool)
    requires !f(Idle)
    ensures Count(w.Move(t, pc).pcs, f) + Bit(f(w.At(t))) == Count(w.pcs, f) + Bit(f(pc))
  {
    CountUpdate(w.pcs, t, pc, f);
    hide Count;
  }

  lemma CountSubset(pcs: map<Tid, Pc>, f: Pc -> bool, g: Pc -> bool)
    requires forall pc :: f(pc) ==> g(pc)
    ensures Count(pcs, f) <= Count(pcs, g)
  {
    SubsetCardinality(Standing(pcs, f), Standing(pcs, g));
  }

  lemma SubsetCardinality<T>(s: set<T>, r: set<T>)
    requires s <= r
    ensures |s| <= |r|
  {
    assert r == s + (r - s);
  }

  lemma CountPositive(pcs: map<Tid, Pc>, f: Pc -> bool) returns (t: Tid)
    requires Count(pcs, f) > 0
    ensures t in pcs && f(pcs[t])
  {
    t :| t in Standing(pcs, f);
  }

  function Permits(pc: Pc): bool { pc.HoldsPermit() }
  function Active(pc: Pc): bool { pc.IsActive() }
  function Releases(pc: Pc): bool { pc.Releasing? }
  function StoresFor(key: Key): Pc -> bool { (pc: Pc) => pc.Storing? && pc.request.key == key }
  function CallsFor(key: Key): Pc -> bool { (pc: Pc) => pc.Calling? && pc.request.key == key }
  function BusyFor(key: Key): Pc -> bool { (pc: Pc) => (pc.Calling? || pc.Storing?) && pc.request.key == key }

  /** Replies the provider returned for `key`. */
  function Successes(returned: seq<(Key, Reply)>, key: Key): nat {
    if returned == [] then 0
    else Successes(returned[..|returned| - 1], key) + if returned[|returned| - 1].0 == key then 1 else 0
  }

  lemma SuccessesAppend(returned: seq<(Key, Reply)>, x: (Key, Reply), key: Key)
    ensures Successes(returned + [x], key) == Successes(returned, key) + if x.0 == key then 1 else 0
  {
    assert (returned + [x])[..|returned|] == returned;
  }

  lemma CountSplit(pcs: map<Tid, Pc>, key: Key)
    ensures Count(pcs, CallsFor(key)) + Count(pcs, StoresFor(key)) == Count(pcs, BusyFor(key))
  {
    var c, s := Standing(pcs, CallsFor(key)), Standing(pcs, StoresFor(key));
    assert Standing(pcs, BusyFor(key)) == c + s && c !! s;
  }

  // ---- invariant --------------------------------------------------------------

  /** Counters and semaphore agree with where the threads stand. */
  ghost predicate Counted(limit: nat, w: World) {
    && Count(w.pcs, Permits) + w.permits == limit
    && Count(w.pcs, Active) == w.shared.active <= w.shared.maxActive <= limit
    && w.shared.attempts == w.shared.latencies + w.shared.active == |w.log.sent|
    && w.shared.cacheHits + w.shared.latencies == |w.log.delivered| + Count(w.pcs, Releases)
    && w.shared.successes + Count(w.pcs, Stores) == |w.log.returned|
  }

  function Stores(pc: Pc): bool { pc.Storing? }

  /** A reply a thread carries was returned by the provider for its key. */
  predicate Carries(returned: seq<(Key, Reply)>, pc: Pc) {
    match pc
    case Storing(request, reply, _) => (request.key, reply) in returned
    case Finalizing(request, Replied(reply)) => (request.key, reply) in returned
    case Releasing(request, Replied(reply)) => (request.key, reply) in returned
    case _ => true
  }

  ghost predicate Genuine(w: World) {
    && (forall k :: k in w.shared.cache ==> (k, w.shared.cache[k]) in w.log.returned)
    && (forall t :: t in w.pcs ==> Carries(w.log.returned, w.pcs[t]))
    && (forall d :: d in w.log.delivered && d.outcome.Replied? ==> (d.request.key, d.outcome.reply) in w.log.returned)
  }

  /** Before a key is cached its successes are still on their way to the cache; afterwards only old calls are left. */
  ghost predicate Rationed(limit: nat, w: World, key: Key) {
    if key in w.shared.cache then Successes(w.log.returned, key) + Count(w.pcs, CallsFor(key)) <= limit
    else Successes(w.log.returned, key) == Count(w.pcs, StoresFor(key))
  }

  ghost predicate Inv(limit: nat, w: World) {
    Counted(limit, w) && Genuine(w) && forall key :: Rationed(limit, w, key)
  }

  lemma NextKeepsCounted(limit: nat, w: World, t: Tid, a: Action)
    requires Counted(limit, w) && Enabled(w, t, a)
    ensures Counted(limit, Next(w, t, a))
  {
    hide Count;
    var pc := Next(w, t, a).At(t);
    CountMove(w, t, pc, Permits);
    CountMove(w, t, pc, Active);
    CountMove(w, t, pc, Releases);
    CountMove(w, t, pc, Stores);
    CountSubset(Next(w, t, a).pcs, Active, Permits);
    assert Next(w, t, a).pcs == w.Move(t, pc).pcs;
  }

  lemma NextKeepsGenuine(w: World, t: Tid, a: Action)
    requires Genuine(w) && Enabled(w, t, a)
    ensures Genuine(Next(w, t, a))
  {
    var n := Next(w, t, a);
    assert Carries(w.log.returned, w.At(t));
    assert forall x :: x in w.log.returned ==> x in n.log.returned;
  }

  lemma NextKeepsRationed(limit: nat, w: World, t: Tid, a: Action, key: Key)
    requires Counted(limit, w) && Enabled(w, t, a) && Rationed(limit, w, key)
    ensures Rationed(limit, Next(w, t, a), key)
  {
    var n, pc := Next(w, t, a), Next(w, t, a).At(t);
    CountMove(w, t, pc, CallsFor(key));
    CountMove(w, t, pc, StoresFor(key));
    CountSplit(w.pcs, key);
    CountSubset(w.pcs, BusyFor(key), Permits);
    assert n.pcs == w.Move(t, pc).pcs;
    hide Count;
    if a.Answered? && a.answer.Ok? {
      SuccessesAppend(w.log.returned, (w.At(t).request.key, a.answer.reply), key);
    }
  }

  lemma NextKeepsInv(limit: nat, w: World, t: Tid, a: Action)
    requires Inv(limit, w) && Enabled(w, t, a)
    ensures Inv(limit, Next(w, t, a))
  {
    NextKeepsCounted(limit, w, t, a);
    NextKeepsGenuine(w, t, a);
    forall key
      ensures Rationed(limit, Next(w, t, a), key)
    {
      NextKeepsRationed(limit, w, t, a, key);
    }
  }

  lemma {:induction false} RunKeepsInv(limit: nat, w: World, schedule: seq<(Tid, Action)>)
    requires Inv(limit, w) && Runs(w, schedule)
    ensures Inv(limit, After(w, schedule))
    decreases |schedule|
  {
    if schedule != [] {
      NextKeepsInv(limit, w, schedule[0].0, schedule[0].1);
      hide Inv, Next;
      RunKeepsInv(limit, Next(w, schedule[0].0, schedule[0].1), schedule[1..]);
    }
  }

  lemma CountEmpty(f: Pc -> bool)
    ensures Count(map[], f) == 0
  {
    assert Standing(map[], f) == {};
  }

  lemma InitIsInv(limit: nat, w: World)
    requires Init(limit, w)
    ensures Inv(limit, w)
  {
    CountEmpty(Permits);
    CountEmpty(Active);
    CountEmpty(Releases);
    CountEmpty(Stores);
    forall key
      ensures Rationed(limit, w, key)
    {
      CountEmpty(StoresFor(key));
    }
  }

  // ---- main results --------------------------------------------------------------

  /**
   * In every interleaving: active requests are counted right and never exceed
   * the limit, attempts are finished attempts plus active ones, every reply that
   * is cached or handed out came from the provider for that key, and the
   * provider succeeds at most `limit` times for one key.
   */
  lemma EveryInterleavingIsBounded(limit: nat, w: World, schedule: seq<(Tid, Action)>)
    requires Init(limit, w) && Runs(w, schedule)
    ensures var n := After(w, schedule);
            && 0 <= n.shared.active == Count(n.pcs, Active) <= n.shared.maxActive <= limit
            && n.shared.attempts == n.shared.latencies + n.shared.active
            && n.shared.attempts == |n.log.sent|
            && (forall k :: k in n.shared.cache ==> (k, n.shared.cache[k]) in n.log.returned)
            && (forall d :: d in n.log.delivered && d.outcome.Replied? ==> (d.request.key, d.outcome.reply) in n.log.returned)
            && (forall key :: Successes(n.log.returned, key) <= limit)
  {
    InitIsInv(limit, w);
    RunKeepsInv(limit, w, schedule);
    var n := After(w, schedule);
    forall key
      ensures Successes(n.log.returned, key) <= limit
    {
      assert Rationed(limit, n, key);
      CountSplit(n.pcs, key);
      CountSubset(n.pcs, BusyFor(key), Permits);
    }
  }

  /** When every thread is outside `send`, no permit has leaked and every call is accounted for exactly once. */
  lemma QuiescentRunsBalance(limit: nat, w: World, schedule: seq<(Tid, Action)>)
    requires Init(limit, w) && Runs(w, schedule)
    requires forall t :: After(w, schedule).At(t).Idle?
    ensures var n := After(w, schedule);
            && n.permits == limit && n.shared.active == 0
            && n.shared.attempts == n.shared.latencies
            && n.shared.cacheHits + n.shared.attempts == |n.log.delivered|
            && n.shared.successes == |n.log.returned|
  {
    InitIsInv(limit, w);
    RunKeepsInv(limit, w, schedule);
    var n := After(w, schedule);
    assert forall t :: t in n.pcs ==> n.At(t).Idle?;
    assert Standing(n.pcs, Permits) == {} && Standing(n.pcs, Active) == {};
    assert Standing(n.pcs, Releases) == {} && Standing(n.pcs, Stores) == {};
  }

  /** Calls sent for `key`. */
  function Sends(sent: seq<(Tid, Request)>, key: Key): nat {
    if sent == [] then 0 else Sends(sent[..|sent| - 1], key) + if sent[|sent| - 1].1.key == key then 1 else 0
  }

  /** Once a key is cached, no schedule sends it again. */
  lemma {:induction false} CachedKeyIsNeverSentAgain(w: World, schedule: seq<(Tid, Action)>, key: Key)
    requires key in w.shared.cache && Runs(w, schedule)
    ensures key in After(w, schedule).shared.cache
    ensures Sends(After(w, schedule).log.sent, key) == Sends(w.log.sent, key)
    decreases |schedule|
  {
    if schedule != [] {
      var n := Next(w, schedule[0].0, schedule[0].1);
      if n.log.sent != w.log.sent {
        assert n.log.sent[..|w.log.sent|] == w.log.sent;
      }
      CachedKeyIsNeverSentAgain(n, schedule[1..], key);
    }
  }

  /** With at least one permit the provider never deadlocks: some thread inside `send` can step. */
  lemma NeverStuck(limit: nat, w: World, schedule: seq<(Tid, Action)>, t: Tid)
    requires limit > 0 && Init(limit, w) && Runs(w, schedule)
    requires !After(w, schedule).At(t).Idle?
    ensures exists u, a: Action :: !a.Send? && Enabled(After(w, schedule), u, a)
  {
    InitIsInv(limit, w);
    RunKeepsInv(limit, w, schedule);
    var n := After(w, schedule);
    if n.permits > 0 && n.At(t).Waiting? {
      assert Enabled(n, t, Acquire);
    } else {
      var u := t;
      if n.At(t).Waiting? {
        u := CountPositive(n.pcs, Permits);
      }
      assert Permits(n.At(u));
      var a := match n.At(u)
        case Holding(_) => EnterLock
        case Calling(_) => Answered(OtherFailure)
        case Storing(_, _, _) => StoreLock
        case Excepting(_, _) => ExceptLock
        case Finalizing(_, _) => FinallyLock
        case _ => Release;
      assert Enabled(n, u, a);
    }
  }

  // ---- what callers get ----------------------------------------------------------------

  /** What a `send` owes its caller: the reply found, or a reply whose usage could be read; else the exception. */
  function Owed(cause: Cause): Outcome {
    match cause
    case Found(reply) => Replied(reply)
    case Got(Ok(reply, true)) => Replied(reply)
    case Got(_) => Raised
  }

  /** Where the thread stands agrees with the cause recorded for it. */
  predicate Keeps(cause: Option<Cause>, pc: Pc) {
    match pc
    case Storing(_, reply, readable) => cause == Some(Got(Ok(reply, readable)))
    case Excepting(_, isTimeout) => cause == Some(Got(ProviderFailure(isTimeout)))
    case Finalizing(_, outcome) => cause.Some? && outcome == Owed(cause.value)
    case Releasing(_, outcome) => cause.Some? && outcome == Owed(cause.value)
    case _ => true
  }

  function TimingOut(pc: Pc): bool { pc.Excepting? && pc.isTimeout }

  /** The answers that were timeouts of the provider. */
  function Timeouts(answers: seq<Answer>): nat {
    if answers == [] then 0
    else Timeouts(answers[..|answers| - 1]) + if answers[|answers| - 1] == ProviderFailure(true) then 1 else 0
  }

  /** The request of the thread's latest call. */
  function Latest(sent: seq<(Tid, Request)>, t: Tid): Option<nat> {
    if sent == [] then None
    else if sent[|sent| - 1].0 == t then Some(sent[|sent| - 1].1.id)
    else Latest(sent[..|sent| - 1], t)
  }

  /** The calls whose thread's previous call carried the same request. */
  function Repeats(sent: seq<(Tid, Request)>): nat {
    if sent == [] then 0
    else
      var front, last := sent[..|sent| - 1], sent[|sent| - 1];
      Repeats(front) + if Latest(front, last.0) == Some(last.1.id) then 1 else 0
  }

  /** Every finished `send` gave what it owed, and every open one is on its way to it. */
  ghost predicate Due(w: World) {
    && (forall t :: t in w.pcs ==> Keeps(w.log.CauseOf(t), w.pcs[t]))
    && (forall d :: d in w.log.delivered ==> d.cause.Some? && d.outcome == Owed(d.cause.value))
  }

  ghost predicate TimeoutsCounted(w: World) {
    w.shared.timeouts + Count(w.pcs, TimingOut) == Timeouts(w.log.answers)
  }

  ghost predicate RetriesCounted(w: World) {
    (forall t :: Last(w, t) == Latest(w.log.sent, t)) && w.shared.retries == Repeats(w.log.sent)
  }

  ghost predicate Accountable(w: World) {
    Due(w) && TimeoutsCounted(w) && RetriesCounted(w)
  }

  lemma AnswersAppend(answers: seq<Answer>, a: Answer)
    ensures Timeouts(answers + [a]) == Timeouts(answers) + if a == ProviderFailure(true) then 1 else 0
  {
    assert (answers + [a])[..|answers|] == answers;
  }

  lemma SentAppend(sent: seq<(Tid, Request)>, x: (Tid, Request))
    ensures Repeats(sent + [x]) == Repeats(sent) + if Latest(sent, x.0) == Some(x.1.id) then 1 else 0
    ensures forall t :: Latest(sent + [x], t) == if t == x.0 then Some(x.1.id) else Latest(sent, t)
  {
    assert (sent + [x])[..|sent|] == sent;
  }

  lemma NextKeepsDue(w: World, t: Tid, a: Action)
    requires Due(w) && Enabled(w, t, a)
    ensures Due(Next(w, t, a))
  {
    assert Keeps(w.log.CauseOf(t), w.At(t));
  }

  lemma NextKeepsTimeouts(w: World, t: Tid, a: Action)
    requires TimeoutsCounted(w) && Enabled(w, t, a)
    ensures TimeoutsCounted(Next(w, t, a))
  {
    hide Count;
    var n := Next(w, t, a);
    CountMove(w, t, n.At(t), TimingOut);
    assert n.pcs == w.Move(t, n.At(t)).pcs;
    if a.Answered? {
      AnswersAppend(w.log.answers, a.answer);
    }
  }

  lemma NextKeepsRetries(w: World, t: Tid, a: Action)
    requires RetriesCounted(w) && Enabled(w, t, a)
    ensures RetriesCounted(Next(w, t, a))
  {
    if a.EnterLock? {
      SentAppend(w.log.sent, (t, w.At(t).request));
    }
    hide Latest, Repeats;
    assert Last(w, t) == Latest(w.log.sent, t);
  }

  lemma NextKeepsAccountable(w: World, t: Tid, a: Action)
    requires Accountable(w) && Enabled(w, t, a)
    ensures Accountable(Next(w, t, a))
  {
    NextKeepsDue(w, t, a);
    NextKeepsTimeouts(w, t, a);
    NextKeepsRetries(w, t, a);
    hide Due, TimeoutsCounted, RetriesCounted, Next;
  }

  lemma {:induction false} RunKeepsAccountable(w: World, schedule: seq<(Tid, Action)>)
    requires Accountable(w) && Runs(w, schedule)
    ensures Accountable(After(w, schedule))
    decreases |schedule|
  {
    if schedule != [] {
      NextKeepsAccountable(w, schedule[0].0, schedule[0].1);
      hide Accountable, Next;
      RunKeepsAccountable(Next(w, schedule[0].0, schedule[0].1), schedule[1..]);
    }
  }

  /**
   * In every interleaving: a call answered with a readable reply delivers
   * exactly that reply, a hit the reply it found, and every other call raises;
   * timeouts count the provider's timeouts, and retries the calls whose thread
   * had just made the same request.
   */
  lemma EveryCallerIsServed(limit: nat, w: World, schedule: seq<(Tid, Action)>)
    requires Init(limit, w) && Runs(w, schedule)
    ensures var n := After(w, schedule);
            && (forall d :: d in n.log.delivered ==> d.cause.Some? && d.outcome == Owed(d.cause.value))
            && n.shared.timeouts + Count(n.pcs, TimingOut) == Timeouts(n.log.answers)
            && n.shared.retries == Repeats(n.log.sent)
  {
    CountEmpty(TimingOut);
    RunKeepsAccountable(w, schedule);
  }

  /** The highest number of active requests along a run. */
  ghost function Peak(w: World, schedule: seq<(Tid, Action)>): int
    requires Runs(w, schedule)
    decreases |schedule|
  {
    if schedule == [] then w.shared.active
    else
      var later := Peak(Next(w, schedule[0].0, schedule[0].1), schedule[1..]);
      if w.shared.active >= later then w.shared.active else later
  }

  /** `max_active` is exactly the highest number of requests that were active at once. */
  lemma {:induction false} MaxActiveIsPeak(limit: nat, w: World, schedule: seq<(Tid, Action)>)
    requires Counted(limit, w) && Runs(w, schedule)
    ensures var peak, n := Peak(w, schedule), After(w, schedule);
            n.shared.maxActive == if w.shared.maxActive >= peak then w.shared.maxActive else peak
    decreases |schedule|
  {
    if schedule != [] {
      var n := Next(w, schedule[0].0, schedule[0].1);
      NextKeepsCounted(limit, w, schedule[0].0, schedule[0].1);
      MaxActiveIsPeak(limit, n, schedule[1..]);
      hide After, Peak, Runs;
    }
  }
}
