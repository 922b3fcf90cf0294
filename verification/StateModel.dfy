/**
 * Cognitive states under optimistic version checks, as values: the in-memory
 * manager and whole runs of it.
 */
module StateModel {
  import opened Options

  type Section = map<string, string>

  datatype Cognitive = Cognitive(
    goal: Section,
    task: Section,
    confidence: Section,
    environment: Section,
    metadata: Section,
    emotional: string,
    version: int,
    createdAt: int,
    updatedAt: int
  )

  type Store = map<string, Cognitive>

  /** A change to one section; `None` when the delta's value is not a mapping. */
  datatype Change = Change(section: string, values: Option<Section>)

  datatype Reply = Saved(state: Cognitive) | EmptySession | Conflict(expected: int, found: int) | BadSection(name: string)

  function Fresh(now: int): Cognitive {
    Cognitive(map[], map[], map[], map[], map[], "", 0, now, now)
  }

  function LoadFrom(store: Store, session: string, now: int): Cognitive {
    if session in store then store[session] else Fresh(now)
  }

  /** The stored version, 0 for an unknown session. */
  function Actual(store: Store, session: string): int {
    if session in store then store[session].version else 0
  }

  function SaveInto(store: Store, session: string, state: Cognitive, expected: int, now: int): (Store, Reply) {
    if session == "" then (store, EmptySession)
    else if Actual(store, session) != expected then (store, Conflict(expected, Actual(store, session)))
    else
      var saved := state.(version := expected + 1, updatedAt := now,
                          createdAt := if session in store then store[session].createdAt else state.createdAt);
      (store[session := saved], Saved(saved))
  }

  /** The sections a delta may update. */
  datatype Slot = GoalSlot | TaskSlot | ConfidenceSlot | EnvironmentSlot | MetadataSlot

  /** The section an attribute name stands for. Other attributes, `emotional` among them, are no mappings. */
  function SlotOf(name: string): Option<Slot> {
    if name == "goal" || name == "goal_state" then Some(GoalSlot)
    else if name == "task" || name == "task_state" then Some(TaskSlot)
    else if name == "confidence" || name == "confidence_state" then Some(ConfidenceSlot)
    else if name == "environment" || name == "environment_state" then Some(EnvironmentSlot)
    else if name == "metadata" then Some(MetadataSlot)
    else None
  }

  function Get(c: Cognitive, slot: Slot): Section {
    match slot
    case GoalSlot => c.goal
    case TaskSlot => c.task
    case ConfidenceSlot => c.confidence
    case EnvironmentSlot => c.environment
    case MetadataSlot => c.metadata
  }

  function Put(c: Cognitive, slot: Slot, section: Section): Cognitive {
    match slot
    case GoalSlot => c.(goal := section)
    case TaskSlot => c.(task := section)
    case ConfidenceSlot => c.(confidence := section)
    case EnvironmentSlot => c.(environment := section)
    case MetadataSlot => c.(metadata := section)
  }

  /** One change; a value that is no mapping and an unsupported section are refused. */
  function ApplyChange(state: Cognitive, change: Change): Option<Cognitive> {
    match (SlotOf(change.section), change.values)
    case (Some(slot), Some(values)) => Some(Put(state, slot, Get(state, slot) + values))
    case _ => None
  }

  datatype Applied = Changed(state: Cognitive) | Refused(name: string)

  function ApplyChanges(state: Cognitive, changes: seq<Change>): Applied
    decreases |changes|
  {
    if changes == [] then Changed(state)
    else
      match ApplyChange(state, changes[0])
      case None => Refused(changes[0].section)
      case Some(next) => ApplyChanges(next, changes[1..])
  }

  /** `apply_delta`, with the state it loaded and the store it saves into. */
  function DeltaInto(store: Store, loaded: Cognitive, session: string, changes: seq<Change>, expected: int, now: int): (Store, Reply) {
    match ApplyChanges(loaded, changes)
    case Refused(name) => (store, BadSection(name))
    case Changed(state) => SaveInto(store, session, state, expected, now)
  }

  function ResetIn(store: Store, session: Option<string>): Store {
    match session
    case None => map[]
    case Some(s) => store - {s}
  }

  // ---- runs of the in-memory manager ------------------------------------------------

  /**
   * One lock section. `apply_delta` has two: a load, and the save of a
   * `DeltaOp`, whose `loaded` state may be older than the store it meets.
   */
  datatype Op =
    | SaveOp(session: string, state: Cognitive, expected: int, now: int)
    | DeltaOp(session: string, loaded: Cognitive, changes: seq<Change>, expected: int, now: int)
    | ResetOp(target: Option<string>)

  function Perform(store: Store, op: Op): (Store, Option<Reply>) {
    match op
    case SaveOp(s, state, expected, now) =>
      var (next, reply) := SaveInto(store, s, state, expected, now);
      (next, Some(reply))
    case DeltaOp(s, loaded, changes, expected, now) =>
      var (next, reply) := DeltaInto(store, loaded, s, changes, expected, now);
      (next, Some(reply))
    case ResetOp(target) => (ResetIn(store, target), None)
  }

  function Final(store: Store, ops: seq<Op>): Store
    decreases |ops|
  {
    if ops == [] then store else Final(Perform(store, ops[0]).0, ops[1..])
  }

  predicate Writes(store: Store, op: Op, session: string) {
    !op.ResetOp? && op.session == session && Perform(store, op).1 != None && Perform(store, op).1.value.Saved?
  }

  /** How many saves of `session` succeed along the run. */
  function Successes(store: Store, ops: seq<Op>, session: string): nat
    decreases |ops|
  {
    if ops == [] then 0
    else (if Writes(store, ops[0], session) then 1 else 0) + Successes(Perform(store, ops[0]).0, ops[1..], session)
  }

  predicate Spares(op: Op, session: string) {
    op.ResetOp? ==> op.target.Some? && op.target.value != session
  }

  /** No operation of the run resets `session`. */
  predicate SparesAll(ops: seq<Op>, session: string) {
    forall op :: op in ops ==> Spares(op, session)
  }

  /** What the store knows of one session. */
  function View(store: Store, session: string): Option<Cognitive> {
    if session in store then Some(store[session]) else None
  }

  /** The same contents in every section. */
  predicate SameContents(a: Cognitive, b: Cognitive) {
    && a.goal == b.goal && a.task == b.task && a.confidence == b.confidence
    && a.environment == b.environment && a.metadata == b.metadata && a.emotional == b.emotional
  }

  /**
   * A save succeeds exactly on the stored version; then the store holds, and
   * the caller gets, the contents that were passed in, one version later, with
   * the session's own creation time. Otherwise it says why and changes nothing.
   */
  lemma SaveStores(store: Store, session: string, state: Cognitive, expected: int, now: int)
    ensures var (next, reply) := SaveInto(store, session, state, expected, now);
            var found := if session in store then store[session].version else 0;
            && (reply.Saved? <==> session != "" && expected == found)
            && (reply.Saved? ==>
                  && session in next && next[session] == reply.state
                  && SameContents(reply.state, state)
                  && reply.state.version == expected + 1 && reply.state.updatedAt == now
                  && reply.state.createdAt == (if session in store then store[session].createdAt else state.createdAt)
                  && forall s :: s != session ==> View(next, s) == View(store, s))
            && (!reply.Saved? ==> next == store && reply == if session == "" then EmptySession else Conflict(expected, found))
  {
  }

  /** What was saved is what is loaded, until the session is saved again or reset. */
  lemma LoadReturnsSaved(
    store: Store, session: string, state: Cognitive, expected: int, now: int, ops: seq<Op>, later: int)
    requires SaveInto(store, session, state, expected, now).1.Saved?
    requires var next := SaveInto(store, session, state, expected, now).0;
             SparesAll(ops, session) && Successes(next, ops, session) == 0
    ensures var (next, reply) := SaveInto(store, session, state, expected, now);
            var loaded := LoadFrom(Final(next, ops), session, later);
            loaded == reply.state && SameContents(loaded, state) && loaded.version == expected + 1
  {
    VersionCountsSaves(SaveInto(store, session, state, expected, now).0, ops, session);
    SaveStores(store, session, state, expected, now);
  }

  /** One operation: an unsuccessful one changes nothing, a successful save touches its own session only. */
  lemma PerformFrame(store: Store, op: Op, session: string)
    requires Spares(op, session)
    ensures !Writes(store, op, session) ==> View(Perform(store, op).0, session) == View(store, session)
    ensures Writes(store, op, session) ==>
              && session in Perform(store, op).0
              && Actual(Perform(store, op).0, session) == Actual(store, session) + 1
              && (session in store ==> Perform(store, op).0[session].createdAt == store[session].createdAt)
    ensures !op.ResetOp? && !Perform(store, op).1.value.Saved? ==> Perform(store, op).0 == store
  {
    hide ApplyChanges;
  }

  /** Between resets a session's version is the number of its successful saves. */
  lemma {:induction false} VersionCountsSaves(store: Store, ops: seq<Op>, session: string)
    requires SparesAll(ops, session)
    ensures Actual(Final(store, ops), session) == Actual(store, session) + Successes(store, ops, session)
    ensures Successes(store, ops, session) == 0 ==> View(Final(store, ops), session) == View(store, session)
    ensures session in store ==>
              session in Final(store, ops) && Final(store, ops)[session].createdAt == store[session].createdAt
    decreases |ops|
  {
    hide Perform, Writes;
    if ops != [] {
      PerformFrame(store, ops[0], session);
      VersionCountsSaves(Perform(store, ops[0]).0, ops[1..], session);
    }
  }

  /**
   * Optimistic concurrency: a save based on a load succeeds exactly when no
   * other save of the session succeeded in between, and then it replaces the
   * very state that was loaded.
   */
  lemma NoLostUpdate(store: Store, ops: seq<Op>, session: string, state: Cognitive, loadedAt: int, now: int)
    requires session != "" && SparesAll(ops, session)
    ensures var expected := LoadFrom(store, session, loadedAt).version;
            var before := Final(store, ops);
            var (after, reply) := SaveInto(before, session, state, expected, now);
            && (reply.Saved? <==> Successes(store, ops, session) == 0)
            && (reply.Saved? ==> View(before, session) == View(store, session))
            && (!reply.Saved? ==> after == before && reply == Conflict(expected, expected + Successes(store, ops, session)))
  {
    VersionCountsSaves(store, ops, session);
  }

  /** A session that was reset starts over: its version again counts the saves since. */
  lemma VersionCountsSavesSinceReset(store: Store, target: Option<string>, ops: seq<Op>, session: string)
    requires !Spares(ResetOp(target), session) && SparesAll(ops, session)
    ensures Actual(Final(store, [ResetOp(target)] + ops), session) == Successes(ResetIn(store, target), ops, session)
  {
    var run := [ResetOp(target)] + ops;
    assert run[1..] == ops;
    VersionCountsSaves(ResetIn(store, target), ops, session);
  }

  // ---- deltas ------------------------------------------------------------------------

  /** Everything but the fields a save overwrites. */
  function Payload(c: Cognitive): Cognitive {
    c.(version := 0, createdAt := 0, updatedAt := 0)
  }

  /** What a list of changes writes into one section, later changes winning. */
  function Written(changes: seq<Change>, slot: Slot): Section
    decreases |changes|
  {
    if changes == [] then map[]
    else
      (if SlotOf(changes[0].section) == Some(slot) && changes[0].values.Some? then changes[0].values.value else map[])
      + Written(changes[1..], slot)
  }

  predicate Supported(changes: seq<Change>)
    decreases |changes|
  {
    changes == [] || (SlotOf(changes[0].section).Some? && changes[0].values.Some? && Supported(changes[1..]))
  }

  /** Writing one section touches no other. */
  lemma PutFrame(c: Cognitive, slot: Slot, section: Section)
    ensures var n := Put(c, slot, section);
            && (forall other :: Get(n, other) == if other == slot then section else Get(c, other))
            && n.emotional == c.emotional && n.version == c.version
            && n.createdAt == c.createdAt && n.updatedAt == c.updatedAt
  {
  }

  /** A delta is refused for what it is, never for the state it meets; otherwise it writes its keys and nothing else. */
  lemma {:induction false} ApplyMeaning(state: Cognitive, changes: seq<Change>)
    ensures ApplyChanges(state, changes).Changed? <==> Supported(changes)
    ensures Supported(changes) ==>
              var next := ApplyChanges(state, changes).state;
              && (forall slot :: Get(next, slot) == Get(state, slot) + Written(changes, slot))
              && next.emotional == state.emotional && next.version == state.version
              && next.createdAt == state.createdAt && next.updatedAt == state.updatedAt
    decreases |changes|
  {
    if changes == [] {
      assert forall slot :: Get(state, slot) + map[] == Get(state, slot);
    } else {
      var slot, values := SlotOf(changes[0].section), changes[0].values;
      hide SlotOf, Get, Put;
      if slot.Some? && values.Some? {
        var next := Put(state, slot.value, Get(state, slot.value) + values.value);
        PutFrame(state, slot.value, Get(state, slot.value) + values.value);
        ApplyMeaning(next, changes[1..]);
        if Supported(changes) {
          forall other
            ensures Get(ApplyChanges(state, changes).state, other) == Get(state, other) + Written(changes, other)
          {
            SumOfSections(Get(state, other), if slot == Some(other) then values.value else map[], Written(changes[1..], other));
          }
        }
      }
    }
  }

  /** What the changes that name one of `names` write, later ones winning. */
  function WrittenTo(changes: seq<Change>, names: set<string>): Section
    decreases |changes|
  {
    if changes == [] then map[]
    else
      (if changes[0].section in names && changes[0].values.Some? then changes[0].values.value else map[])
      + WrittenTo(changes[1..], names)
  }

  const GOAL := {"goal", "goal_state"}
  const TASK := {"task", "task_state"}
  const CONFIDENCE := {"confidence", "confidence_state"}
  const ENVIRONMENT := {"environment", "environment_state"}
  const METADATA := {"metadata"}

  predicate IsNamed(change: Change) {
    change.values.Some? && change.section in GOAL + TASK + CONFIDENCE + ENVIRONMENT + METADATA
  }

  function NamesOf(slot: Slot): set<string> {
    match slot
    case GoalSlot => GOAL
    case TaskSlot => TASK
    case ConfidenceSlot => CONFIDENCE
    case EnvironmentSlot => ENVIRONMENT
    case MetadataSlot => METADATA
  }

  lemma SlotIsNamed(name: string, slot: Slot)
    ensures SlotOf(name) == Some(slot) <==> name in NamesOf(slot)
    ensures SlotOf(name).Some? <==> name in GOAL + TASK + CONFIDENCE + ENVIRONMENT + METADATA
  {
  }

  lemma {:induction false} WrittenByName(changes: seq<Change>, slot: Slot)
    ensures Written(changes, slot) == WrittenTo(changes, NamesOf(slot))
    ensures Supported(changes) <==> forall c :: c in changes ==> IsNamed(c)
    decreases |changes|
  {
    if changes != [] {
      WrittenByName(changes[1..], slot);
      SlotIsNamed(changes[0].section, slot);
      hide SlotOf, NamesOf;
      assert Supported(changes) <==> IsNamed(changes[0]) && Supported(changes[1..]);
      hide Supported, IsNamed;
      assert changes[0] in changes;
      assert forall c :: c in changes <==> c == changes[0] || c in changes[1..];
    }
  }

  /** `n` has the contents of `loaded` with every named section updated by what was written to it. */
  predicate HasWritten(loaded: Cognitive, changes: seq<Change>, n: Cognitive) {
    && n.goal == loaded.goal + WrittenTo(changes, GOAL) && n.task == loaded.task + WrittenTo(changes, TASK)
    && n.confidence == loaded.confidence + WrittenTo(changes, CONFIDENCE)
    && n.environment == loaded.environment + WrittenTo(changes, ENVIRONMENT)
    && n.metadata == loaded.metadata + WrittenTo(changes, METADATA) && n.emotional == loaded.emotional
  }

  /**
   * A delta is accepted exactly when every section it names is one of the
   * five or an alias; each field of the state then gains what was written
   * under its own names, and nothing else changes. Otherwise the first other
   * section is reported.
   */
  lemma DeltaWritesItsFields(state: Cognitive, changes: seq<Change>)
    ensures var applied := ApplyChanges(state, changes);
            && (applied.Changed? <==> forall c :: c in changes ==> IsNamed(c))
            && (applied.Changed? ==>
                  applied.state == state.(goal := state.goal + WrittenTo(changes, GOAL),
                                          task := state.task + WrittenTo(changes, TASK),
                                          confidence := state.confidence + WrittenTo(changes, CONFIDENCE),
                                          environment := state.environment + WrittenTo(changes, ENVIRONMENT),
                                          metadata := state.metadata + WrittenTo(changes, METADATA)))
            && (applied.Refused? ==>
                  exists k :: 0 <= k < |changes| && !IsNamed(changes[k]) && applied.name == changes[k].section
                              && forall j :: 0 <= j < k ==> IsNamed(changes[j]))
  {
    ApplyMeaning(state, changes);
    WrittenByName(changes, GoalSlot);
    WrittenByName(changes, TaskSlot);
    WrittenByName(changes, ConfidenceSlot);
    WrittenByName(changes, EnvironmentSlot);
    WrittenByName(changes, MetadataSlot);
    if Supported(changes) {
      hide ApplyChanges, Written, WrittenTo;
      var next := ApplyChanges(state, changes).state;
      assert Get(next, GoalSlot) == Get(state, GoalSlot) + Written(changes, GoalSlot);
      assert Get(next, TaskSlot) == Get(state, TaskSlot) + Written(changes, TaskSlot);
      assert Get(next, ConfidenceSlot) == Get(state, ConfidenceSlot) + Written(changes, ConfidenceSlot);
      assert Get(next, EnvironmentSlot) == Get(state, EnvironmentSlot) + Written(changes, EnvironmentSlot);
      assert Get(next, MetadataSlot) == Get(state, MetadataSlot) + Written(changes, MetadataSlot);
    } else {
      FirstRefused(state, changes);
    }
  }

  lemma {:induction false} FirstRefused(state: Cognitive, changes: seq<Change>)
    requires ApplyChanges(state, changes).Refused?
    ensures exists k :: 0 <= k < |changes| && !IsNamed(changes[k]) && ApplyChanges(state, changes).name == changes[k].section
                        && forall j :: 0 <= j < k ==> IsNamed(changes[j])
    decreases |changes|
  {
    var next := ApplyChange(state, changes[0]);
    NamedIff(state, changes[0]);
    hide ApplyChange, IsNamed;
    if next.Some? {
      FirstRefused(next.value, changes[1..]);
      var rest := changes[1..];
      var k :| 0 <= k < |rest| && !IsNamed(rest[k]) && ApplyChanges(next.value, rest).name == rest[k].section
               && forall j :: 0 <= j < k ==> IsNamed(rest[j]);
      assert changes[k + 1] == rest[k];
      forall j | 0 <= j < k + 1 ensures IsNamed(changes[j]) {
        if j > 0 {
          assert changes[j] == rest[j - 1];
        }
      }
    } else {
      assert !IsNamed(changes[0]);
    }
  }

  lemma NamedIff(state: Cognitive, change: Change)
    ensures ApplyChange(state, change).Some? <==> IsNamed(change)
  {
  }

  lemma SumOfSections(a: Section, b: Section, c: Section)
    ensures (a + b) + c == a + (b + c)
    ensures a + map[] == a
  {
  }

  lemma {:induction false} RefusalIsStateless(a: Cognitive, b: Cognitive, changes: seq<Change>)
    ensures ApplyChanges(a, changes).Refused? ==> ApplyChanges(a, changes) == ApplyChanges(b, changes)
    decreases |changes|
  {
    if changes != [] {
      var x, y := ApplyChange(a, changes[0]), ApplyChange(b, changes[0]);
      if x.Some? {
        RefusalIsStateless(x.value, y.value, changes[1..]);
      }
    }
  }

  /** Two states differ, outside what the changes overwrite, in nothing. */
  ghost predicate AgreeOutside(a: Cognitive, b: Cognitive, changes: seq<Change>) {
    && a.emotional == b.emotional
    && forall slot, key :: key !in Written(changes, slot) ==> SameAt(Get(a, slot), Get(b, slot), key)
  }

  predicate SameAt(a: Section, b: Section, key: string) {
    if key in a then key in b && a[key] == b[key] else key !in b
  }

  lemma SumsAgreeIff(a: Section, b: Section, more: Section)
    ensures a + more == b + more <==> forall key :: key !in more ==> SameAt(a, b, key)
  {
    if a + more == b + more {
      forall key | key !in more ensures SameAt(a, b, key) {
        assert key in a <==> key in a + more;
        assert key in b <==> key in b + more;
        if key in a {
          assert (a + more)[key] == (b + more)[key];
        }
      }
    }
    if forall key :: key !in more ==> SameAt(a, b, key) {
      forall key
        ensures key in a + more <==> key in b + more
        ensures key in a + more && key in b + more ==> (a + more)[key] == (b + more)[key]
      {
        if key !in more {
          assert SameAt(a, b, key);
        }
      }
    }
  }

  /** The same changes make two states equal exactly when they already agreed on every key the changes leave alone. */
  lemma AppliedAgreeIff(a: Cognitive, b: Cognitive, changes: seq<Change>)
    requires Supported(changes)
    ensures ApplyChanges(a, changes).Changed? && ApplyChanges(b, changes).Changed?
    ensures Payload(ApplyChanges(a, changes).state) == Payload(ApplyChanges(b, changes).state) <==> AgreeOutside(a, b, changes)
  {
    hide ApplyChanges, Written, Supported;
    ApplyMeaning(a, changes);
    ApplyMeaning(b, changes);
    var x, y := ApplyChanges(a, changes).state, ApplyChanges(b, changes).state;
    forall slot
      ensures Get(x, slot) == Get(y, slot) <==>
              forall key :: key !in Written(changes, slot) ==> SameAt(Get(a, slot), Get(b, slot), key)
    {
      SumsAgreeIff(Get(a, slot), Get(b, slot), Written(changes, slot));
    }
    SlotsDecide(x, y);
  }

  lemma SlotsDecide(x: Cognitive, y: Cognitive)
    ensures Payload(x) == Payload(y) <==> x.emotional == y.emotional && forall slot :: Get(x, slot) == Get(y, slot)
  {
    if forall slot :: Get(x, slot) == Get(y, slot) {
      assert Get(x, GoalSlot) == Get(y, GoalSlot) && Get(x, TaskSlot) == Get(y, TaskSlot);
      assert Get(x, ConfidenceSlot) == Get(y, ConfidenceSlot) && Get(x, EnvironmentSlot) == Get(y, EnvironmentSlot);
      assert Get(x, MetadataSlot) == Get(y, MetadataSlot);
    }
  }

  /** Saving either load would carry the same creation time. */
  predicate SameBirth(store: Store, session: string, a: Cognitive, b: Cognitive) {
    session in store || a.createdAt == b.createdAt
  }

  /**
   * A delta computed on `stale` does to the store exactly what one computed on
   * `current` does, if and only if it cannot be saved at all, is refused, or
   * the two loads agree on every key it does not overwrite.
   */
  lemma StaleDeltaAgreesIff(
    store: Store, session: string, stale: Cognitive, current: Cognitive, changes: seq<Change>, expected: int, now: int)
    ensures DeltaInto(store, stale, session, changes, expected, now) == DeltaInto(store, current, session, changes, expected, now)
       <==> || session == "" || expected != Actual(store, session) || !Supported(changes)
            || (AgreeOutside(stale, current, changes) && SameBirth(store, session, stale, current))
  {
    hide ApplyChanges, AgreeOutside, Supported;
    ApplyMeaning(stale, changes);
    ApplyMeaning(current, changes);
    if Supported(changes) {
      AppliedAgreeIff(stale, current, changes);
    } else {
      RefusalIsStateless(stale, current, changes);
    }
  }

  /** Whatever the delta: two loads are interchangeable exactly when their contents are the same, or nothing can be saved. */
  lemma StaleLoadIsGoodIff(store: Store, session: string, stale: Cognitive, current: Cognitive, expected: int, now: int)
    ensures (forall changes ::
               DeltaInto(store, stale, session, changes, expected, now) == DeltaInto(store, current, session, changes, expected, now))
       <==> || session == "" || expected != Actual(store, session)
            || (Payload(stale) == Payload(current) && SameBirth(store, session, stale, current))
  {
    hide DeltaInto;
    StaleDeltaAgreesIff(store, session, stale, current, [], expected, now);
    AppliedAgreeIff(stale, current, []);
    if || session == "" || expected != Actual(store, session)
       || (Payload(stale) == Payload(current) && SameBirth(store, session, stale, current)) {
      SlotsDecide(stale, current);
      forall changes
        ensures DeltaInto(store, stale, session, changes, expected, now) == DeltaInto(store, current, session, changes, expected, now)
      {
        StaleDeltaAgreesIff(store, session, stale, current, changes, expected, now);
      }
    }
  }

  /**
   * `apply_delta` is two lock sections. With the version it loaded itself it
   * is nevertheless atomic: whatever runs between load and save, it ends as if
   * it had loaded at the moment of the save.
   */
  lemma DeltaIsAtomic(store: Store, ops: seq<Op>, session: string, changes: seq<Change>, loadedAt: int, now: int)
    requires session != "" && SparesAll(ops, session)
    ensures var loaded := LoadFrom(store, session, loadedAt);
            var before := Final(store, ops);
            && DeltaInto(before, loaded, session, changes, loaded.version, now)
               == DeltaInto(before, LoadFrom(before, session, loadedAt), session, changes, loaded.version, now)
            && (DeltaInto(before, loaded, session, changes, loaded.version, now).1.Saved? <==>
                  Supported(changes) && Successes(store, ops, session) == 0)
  {
    hide ApplyChanges, Supported;
    var loaded, before := LoadFrom(store, session, loadedAt), Final(store, ops);
    VersionCountsSaves(store, ops, session);
    ApplyMeaning(loaded, changes);
    RefusalIsStateless(loaded, LoadFrom(before, session, loadedAt), changes);
    ApplyMeaning(LoadFrom(before, session, loadedAt), changes);
  }

  lemma OneChange(state: Cognitive, change: Change, slot: Slot)
    requires SlotOf(change.section) == Some(slot) && change.values.Some?
    ensures ApplyChanges(state, [change]) == Changed(Put(state, slot, Get(state, slot) + change.values.value))
  {
    assert [change][1..] == [];
  }

  /** With a version it did not load it is not: the later of two overlapping deltas drops what the earlier one wrote. */
  lemma OverlappingDeltasLoseUpdate()
    ensures var loaded := LoadFrom(map[], "s", 0);
            var first := DeltaOp("s", loaded, [Change("goal", Some(map["plan" := "A"]))], 0, 1);
            var second := DeltaOp("s", loaded, [Change("task", Some(map["step" := "1"]))], 1, 2);
            && Writes(map[], first, "s") && Writes(Final(map[], [first]), second, "s")
            && "s" in Final(map[], [first, second]) && Final(map[], [first, second])["s"].goal == map[]
  {
    var loaded := LoadFrom(map[], "s", 0);
    var c, d := Change("goal", Some(map["plan" := "A"])), Change("task", Some(map["step" := "1"]));
    var first, second := DeltaOp("s", loaded, [c], 0, 1), DeltaOp("s", loaded, [d], 1, 2);
    OneChange(loaded, c, GoalSlot);
    OneChange(loaded, d, TaskSlot);
    hide ApplyChanges;
    assert [first, second][1..] == [second] && [second][1..] == [] && [first][1..] == [];
    var one := Perform(map[], first).0;
    assert Final(map[], [first]) == Final(one, []) == one;
    var two := Perform(one, second).0;
    assert Final(map[], [first, second]) == Final(one, [second]) == Final(two, []) == two;
  }
}
