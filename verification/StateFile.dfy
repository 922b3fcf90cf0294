/**
 * The JSON-backed manager: any number of managers, each with its own memory,
 * over one file. A save rereads the file first; a load and a reset do not.
 */
module StateFile {
  import opened Options
  import opened StateModel

  /** One successful save. */
  datatype Entry = Entry(session: string, state: Cognitive)

  /** `base`: the file's contents right after the last reset; `log`: the successful saves since. */
  datatype World = World(file: Option<Store>, memory: map<nat, Store>, base: Store, log: seq<Entry>)

  const EMPTY := World(None, map[], map[], [])

  /** What is on disk; no file holds nothing. */
  function Disk(w: World): Store {
    if w.file.Some? then w.file.value else map[]
  }

  /** The store a save of manager `m` starts from. */
  function Base(w: World, m: nat): Store
    requires m in w.memory
  {
    if w.file.Some? then w.file.value else w.memory[m]
  }

  function Commit(w: World, m: nat, session: string, effect: (Store, Reply)): (World, Reply) {
    var (store, reply) := effect;
    if reply.Saved? then
      (World(Some(store), w.memory[m := store], w.base, w.log + [Entry(session, reply.state)]), reply)
    else
      (w.(memory := w.memory[m := store]), reply)
  }

  function JsonSave(w: World, m: nat, session: string, state: Cognitive, expected: int, now: int): (World, Reply)
    requires m in w.memory
  {
    Commit(w, m, session, SaveInto(Base(w, m), session, state, expected, now))
  }

  /** `apply_delta` is inherited: it loads from memory, without rereading the file. */
  function JsonDelta(w: World, m: nat, session: string, changes: seq<Change>, expected: int, now: int): (World, Reply)
    requires m in w.memory
  {
    match ApplyChanges(LoadFrom(w.memory[m], session, now), changes)
    case Refused(name) => (w, BadSection(name))
    case Changed(state) => JsonSave(w, m, session, state, expected, now)
  }

  /** `reset` writes the manager's own memory out. */
  function JsonReset(w: World, m: nat, target: Option<string>): World
    requires m in w.memory
  {
    var store := ResetIn(w.memory[m], target);
    World(Some(store), w.memory[m := store], store, [])
  }

  datatype Step =
    | Open(m: nat)
    | Save(m: nat, session: string, state: Cognitive, expected: int, now: int)
    | Delta(m: nat, session: string, changes: seq<Change>, expected: int, now: int)
    | Reset(m: nat, target: Option<string>)

  /** A step of a manager that was never opened does nothing. */
  function Next(w: World, step: Step): (World, Option<Reply>) {
    match step
    case Open(m) => (w.(memory := w.memory[m := Disk(w)]), None)
    case Save(m, s, state, expected, now) =>
      if m !in w.memory then (w, None)
      else
        var (next, reply) := JsonSave(w, m, s, state, expected, now);
        (next, Some(reply))
    case Delta(m, s, changes, expected, now) =>
      if m !in w.memory then (w, None)
      else
        var (next, reply) := JsonDelta(w, m, s, changes, expected, now);
        (next, Some(reply))
    case Reset(m, target) => if m !in w.memory then (w, None) else (JsonReset(w, m, target), None)
  }

  function After(w: World, steps: seq<Step>): World {
    if steps == [] then w else Next(After(w, steps[..|steps| - 1]), steps[|steps| - 1]).0
  }

  predicate Calm(steps: seq<Step>) {
    forall step :: step in steps ==> !step.Reset?
  }

  /** Without a file no manager remembers anything. */
  predicate Plausible(w: World) {
    w.file.None? ==> forall m :: m in w.memory ==> w.memory[m] == map[]
  }

  lemma BaseIsDisk(w: World, m: nat)
    requires Plausible(w) && m in w.memory
    ensures Base(w, m) == Disk(w)
  {
  }

  // ---- one manager alone ------------------------------------------------------------------

  predicate OnlyBy(steps: seq<Step>, m: nat) {
    forall step :: step in steps ==> step.m == m
  }

  /** The in-memory manager doing the same. */
  function Obey(store: Store, step: Step): (Store, Option<Reply>) {
    match step
    case Open(_) => (store, None)
    case Save(_, s, state, expected, now) => Perform(store, SaveOp(s, state, expected, now))
    case Delta(_, s, changes, expected, now) =>
      Perform(store, DeltaOp(s, LoadFrom(store, s, now), changes, expected, now))
    case Reset(_, target) => Perform(store, ResetOp(target))
  }

  function ObeyAll(store: Store, steps: seq<Step>): Store {
    if steps == [] then store else Obey(ObeyAll(store, steps[..|steps| - 1]), steps[|steps| - 1]).0
  }

  function Replies(w: World, steps: seq<Step>): seq<Option<Reply>> {
    if steps == [] then []
    else Replies(w, steps[..|steps| - 1]) + [Next(After(w, steps[..|steps| - 1]), steps[|steps| - 1]).1]
  }

  function RepliesObeyed(store: Store, steps: seq<Step>): seq<Option<Reply>> {
    if steps == [] then []
    else RepliesObeyed(store, steps[..|steps| - 1]) + [Obey(ObeyAll(store, steps[..|steps| - 1]), steps[|steps| - 1]).1]
  }

  predicate InStep(w: World, m: nat) {
    m in w.memory && w.memory[m] == Disk(w)
  }

  lemma StepRefines(w: World, m: nat, step: Step)
    requires InStep(w, m) && step.m == m
    ensures var (next, reply) := Next(w, step);
            InStep(next, m) && (Disk(next), reply) == Obey(Disk(w), step)
  {
  }

  /**
   * A manager alone on its file is the in-memory manager: over any saves,
   * deltas and resets it gives the same replies, and memory and file stay
   * equal to the in-memory store.
   */
  lemma {:induction false} SequentialRefinement(w: World, m: nat, steps: seq<Step>)
    requires InStep(w, m) && OnlyBy(steps, m)
    ensures InStep(After(w, steps), m)
    ensures Disk(After(w, steps)) == ObeyAll(Disk(w), steps)
    ensures Replies(w, steps) == RepliesObeyed(Disk(w), steps)
  {
    hide Next, Obey;
    if steps != [] {
      var front, last := steps[..|steps| - 1], steps[|steps| - 1];
      assert last in steps;
      SequentialRefinement(w, m, front);
      StepRefines(After(w, front), m, last);
    }
  }

  // ---- versions ---------------------------------------------------------------------------------

  predicate Wrote(reply: Option<Reply>) { reply.Some? && reply.value.Saved? }

  /** The successful saves of `session` along the steps, by any manager. */
  function SavesOf(w: World, steps: seq<Step>, session: string): nat {
    if steps == [] then 0
    else
      var front, last := steps[..|steps| - 1], steps[|steps| - 1];
      SavesOf(w, front, session)
      + if (last.Save? || last.Delta?) && last.session == session && Wrote(Next(After(w, front), last).1) then 1 else 0
  }

  /** What a step that is no reset does to the file: a successful save is one version more of its own session, all else is nothing. */
  lemma CalmStep(w: World, step: Step, session: string)
    requires Plausible(w) && !step.Reset?
    ensures var (next, reply) := Next(w, step);
            && Plausible(next) && w.memory.Keys <= next.memory.Keys
            && if (step.Save? || step.Delta?) && step.session == session && Wrote(reply)
               then session in Disk(next) && Actual(Disk(next), session) == Actual(Disk(w), session) + 1
               else View(Disk(next), session) == View(Disk(w), session)
  {
    hide ApplyChanges;
    if step.m in w.memory {
      BaseIsDisk(w, step.m);
    }
  }

  /**
   * From any world a run can reach, right after a reset included, and over
   * any reset-free steps of any managers, the file's version of a session
   * grows by exactly its successful saves.
   */
  lemma {:induction false} VersionCountsFrom(w: World, steps: seq<Step>, session: string)
    requires Plausible(w) && Calm(steps)
    ensures Plausible(After(w, steps)) && w.memory.Keys <= After(w, steps).memory.Keys
    ensures Actual(Disk(After(w, steps)), session) == Actual(Disk(w), session) + SavesOf(w, steps, session)
    ensures SavesOf(w, steps, session) == 0 ==> View(Disk(After(w, steps)), session) == View(Disk(w), session)
  {
    hide Next;
    if steps != [] {
      assert steps[|steps| - 1] in steps;
      VersionCountsFrom(w, steps[..|steps| - 1], session);
      CalmStep(After(w, steps[..|steps| - 1]), steps[|steps| - 1], session);
    }
  }

  // ---- the log explains the file ------------------------------------------------------------

  function StoreOf(base: Store, log: seq<Entry>): Store {
    if log == [] then base
    else StoreOf(base, log[..|log| - 1])[log[|log| - 1].session := log[|log| - 1].state]
  }

  function CountOf(log: seq<Entry>, session: string): nat {
    if log == [] then 0
    else CountOf(log[..|log| - 1], session) + if log[|log| - 1].session == session then 1 else 0
  }

  /** The k-th save of a session since the reset carries k versions more than the reset left. */
  predicate Versioned(base: Store, log: seq<Entry>) {
    log == [] ||
    (&& Versioned(base, log[..|log| - 1])
     && log[|log| - 1].state.version == Actual(base, log[|log| - 1].session) + CountOf(log, log[|log| - 1].session))
  }

  ghost predicate Snapshot(w: World, store: Store, k: int) {
    0 <= k <= |w.log| && store == StoreOf(w.base, w.log[..k])
  }

  /** The file is what the last reset left plus every save since. */
  ghost predicate Explained(w: World) {
    && Plausible(w)
    && Versioned(w.base, w.log)
    && Disk(w) == StoreOf(w.base, w.log)
    && (w.file.None? ==> w.base == map[] && w.log == [])
  }

  /** The manager's memory is a content the file has had since the last reset. */
  ghost predicate InEpoch(w: World, m: nat) {
    m in w.memory && exists k :: Snapshot(w, w.memory[m], k)
  }

  lemma {:induction false} StoreCounts(base: Store, log: seq<Entry>, session: string)
    requires Versioned(base, log)
    ensures Actual(StoreOf(base, log), session) == Actual(base, session) + CountOf(log, session)
  {
    if log != [] {
      StoreCounts(base, log[..|log| - 1], session);
    }
  }

  lemma {:induction false} PrefixVersioned(base: Store, log: seq<Entry>, k: nat)
    requires Versioned(base, log) && k <= |log|
    ensures Versioned(base, log[..k])
  {
    if k == |log| {
      assert log[..k] == log;
    } else {
      var front := log[..|log| - 1];
      assert front[..k] == log[..k];
      PrefixVersioned(base, front, k);
    }
  }

  lemma {:induction false} CountGrows(base: Store, log: seq<Entry>, k: nat, session: string)
    requires k <= |log|
    ensures CountOf(log[..k], session) <= CountOf(log, session)
    ensures CountOf(log[..k], session) == CountOf(log, session) ==>
              View(StoreOf(base, log[..k]), session) == View(StoreOf(base, log), session)
  {
    if k == |log| {
      assert log[..k] == log;
    } else {
      var front := log[..|log| - 1];
      assert front[..k] == log[..k];
      CountGrows(base, front, k, session);
    }
  }

  /** Such a memory shows the current state of a session exactly when it shows the current version. */
  lemma SnapshotIsCurrentIff(w: World, m: nat, session: string)
    requires Explained(w) && InEpoch(w, m)
    ensures Actual(w.memory[m], session) <= Actual(Disk(w), session)
    ensures View(w.memory[m], session) == View(Disk(w), session) <==>
            Actual(w.memory[m], session) == Actual(Disk(w), session)
  {
    var k :| Snapshot(w, w.memory[m], k);
    PrefixVersioned(w.base, w.log, k);
    StoreCounts(w.base, w.log[..k], session);
    StoreCounts(w.base, w.log, session);
    CountGrows(w.base, w.log, k, session);
  }

  lemma AppendVersioned(base: Store, log: seq<Entry>, e: Entry)
    requires Versioned(base, log) && e.state.version == Actual(StoreOf(base, log), e.session) + 1
    ensures Versioned(base, log + [e]) && StoreOf(base, log + [e]) == StoreOf(base, log)[e.session := e.state]
  {
    var more := log + [e];
    assert more[..|log|] == log;
    StoreCounts(base, log, e.session);
  }

  lemma CommitKeeps(w: World, m: nat, session: string, state: Cognitive, expected: int, now: int)
    requires Explained(w) && m in w.memory
    ensures var next := JsonSave(w, m, session, state, expected, now).0;
            Explained(next) && InEpoch(next, m) && next.base == w.base && w.log <= next.log
  {
    hide StoreOf, Versioned;
    var (store, reply) := SaveInto(Disk(w), session, state, expected, now);
    BaseIsDisk(w, m);
    var next := JsonSave(w, m, session, state, expected, now).0;
    if reply.Saved? {
      AppendVersioned(w.base, w.log, Entry(session, reply.state));
    }
    hide SaveInto, Plausible;
    LastSnapshot(next, m);
  }

  lemma LastSnapshot(w: World, m: nat)
    requires m in w.memory && w.memory[m] == StoreOf(w.base, w.log)
    ensures InEpoch(w, m)
  {
    assert w.log[..|w.log|] == w.log;
    assert Snapshot(w, w.memory[m], |w.log|);
  }

  /** Every step, resets included, leaves the file explained; every step but a reset keeps memories in their epoch. */
  lemma NextKeeps(w: World, step: Step)
    requires Explained(w)
    ensures var next := Next(w, step).0;
            && Explained(next)
            && (!step.Reset? ==> next.base == w.base && w.log <= next.log)
            && (step.m in next.memory && !step.Delta? ==> InEpoch(next, step.m))
            && (step.Delta? && InEpoch(w, step.m) ==> InEpoch(next, step.m))
            && (forall m :: m in w.memory && m != step.m ==> m in next.memory && next.memory[m] == w.memory[m])
  {
    hide InEpoch, JsonSave, ApplyChanges, StoreOf, Versioned;
    match step {
      case Open(m) =>
        LastSnapshot(Next(w, step).0, m);
      case Save(m, s, state, expected, now) =>
        if m in w.memory {
          CommitKeeps(w, m, s, state, expected, now);
          SaveFrame(w, m, s, state, expected, now);
        }
      case Delta(m, s, changes, expected, now) =>
        if m in w.memory {
          var applied := ApplyChanges(LoadFrom(w.memory[m], s, now), changes);
          if applied.Changed? {
            CommitKeeps(w, m, s, applied.state, expected, now);
            SaveFrame(w, m, s, applied.state, expected, now);
          }
        }
      case Reset(m, target) =>
        if m in w.memory {
          NothingLogged(JsonReset(w, m, target).base);
          LastSnapshot(JsonReset(w, m, target), m);
        }
    }
  }

  lemma NothingLogged(base: Store)
    ensures Versioned(base, []) && StoreOf(base, []) == base
  {
  }

  lemma SaveFrame(w: World, m: nat, session: string, state: Cognitive, expected: int, now: int)
    requires m in w.memory
    ensures var next := JsonSave(w, m, session, state, expected, now).0;
            forall i :: i in w.memory && i != m ==> i in next.memory && next.memory[i] == w.memory[i]
  {
  }

  lemma EpochStays(w: World, next: World, m: nat)
    requires InEpoch(w, m) && next.base == w.base && w.log <= next.log
    requires m in next.memory && next.memory[m] == w.memory[m]
    ensures InEpoch(next, m)
  {
    var k :| Snapshot(w, w.memory[m], k);
    assert next.log[..k] == w.log[..k];
    assert Snapshot(next, next.memory[m], k);
  }

  /** The manager opened, saved or reset since the last reset. */
  predicate UpToDate(steps: seq<Step>, m: nat) {
    if steps == [] then false
    else
      var last := steps[|steps| - 1];
      if last.m == m && !last.Delta? then true
      else if last.Reset? then false
      else UpToDate(steps[..|steps| - 1], m)
  }

  /**
   * Over every run of any managers, resets included: the file holds what the
   * last reset left and every save since, and the memory of every manager
   * that read or wrote it since then is one of its contents of that time.
   */
  lemma {:induction false} EveryRunIsExplained(steps: seq<Step>, m: nat)
    ensures Explained(After(EMPTY, steps))
    ensures m in After(EMPTY, steps).memory && UpToDate(steps, m) ==> InEpoch(After(EMPTY, steps), m)
  {
    if steps != [] {
      var front, last := steps[..|steps| - 1], steps[|steps| - 1];
      EveryRunIsExplained(front, m);
      var w, next := After(EMPTY, front), After(EMPTY, steps);
      NextKeeps(w, last);
      if m in next.memory && UpToDate(steps, m) && last.m != m {
        NewOnlyByOpen(w, last, m);
        hide Next, Explained, InEpoch;
        EpochStays(w, next, m);
      }
    }
  }

  lemma NewOnlyByOpen(w: World, step: Step, m: nat)
    requires m in Next(w, step).0.memory
    ensures m in w.memory || step == Open(m)
  {
  }

  /** All memories are such contents. */
  ghost predicate Linear(w: World) {
    Explained(w) && forall m :: m in w.memory ==> InEpoch(w, m)
  }

  /** Before the first reset all memories are earlier contents of the file. */
  lemma {:induction false} EveryRunIsLinear(steps: seq<Step>)
    requires Calm(steps)
    ensures Linear(After(EMPTY, steps))
  {
    if steps != [] {
      var front, last := steps[..|steps| - 1], steps[|steps| - 1];
      assert last in steps;
      EveryRunIsLinear(front);
      var w, next := After(EMPTY, front), After(EMPTY, steps);
      NextKeeps(w, last);
      forall m | m in next.memory ensures InEpoch(next, m) {
        NewOnlyByOpen(w, last, m);
        hide Next, InEpoch;
        if last.m != m {
          EpochStays(w, next, m);
        }
      }
    }
  }

  lemma {:induction false} EpochFrom(w: World, steps: seq<Step>)
    requires Explained(w) && Calm(steps)
    ensures var n := After(w, steps); Explained(n) && n.base == w.base && w.log <= n.log
  {
    hide Next;
    if steps != [] {
      assert steps[|steps| - 1] in steps;
      EpochFrom(w, steps[..|steps| - 1]);
      NextKeeps(After(w, steps[..|steps| - 1]), steps[|steps| - 1]);
    }
  }

  // ---- saves --------------------------------------------------------------------------------------

  /**
   * The JSON manager's save is the in-memory save on the file's contents:
   * same reply, same new contents, and afterwards the manager's memory is
   * the file, whether or not the save succeeded. A refused save leaves the
   * file alone.
   */
  lemma SaveRefines(w: World, m: nat, session: string, state: Cognitive, expected: int, now: int)
    requires Plausible(w) && m in w.memory
    ensures var (next, reply) := JsonSave(w, m, session, state, expected, now);
            && (Disk(next), Some(reply)) == Perform(Disk(w), SaveOp(session, state, expected, now))
            && next.memory[m] == Disk(next)
            && (forall i :: i in w.memory && i != m ==> next.memory[i] == w.memory[i])
            && (!reply.Saved? ==> next.file == w.file)
  {
    BaseIsDisk(w, m);
  }

  /** After a calm step the manager still remembers a session nobody saved. */
  lemma CalmStepKeepsMemory(w: World, step: Step, m: nat, session: string)
    requires Plausible(w) && !step.Reset? && m in w.memory
    requires View(w.memory[m], session) == View(Disk(w), session)
    ensures var (next, reply) := Next(w, step);
            !((step.Save? || step.Delta?) && step.session == session && Wrote(reply)) ==>
              m in next.memory && View(next.memory[m], session) == View(Disk(next), session) == View(Disk(w), session)
  {
    hide ApplyChanges;
    if step.m in w.memory {
      BaseIsDisk(w, step.m);
    }
  }

  /**
   * What a manager saved, it loads and the file holds: exactly the contents
   * passed in, over any reset-free steps of any managers that do not save the
   * session again.
   */
  lemma {:induction false} JsonLoadReturnsSaved(
    w: World, m: nat, session: string, state: Cognitive, expected: int, now: int, steps: seq<Step>, later: int)
    requires Plausible(w) && m in w.memory && JsonSave(w, m, session, state, expected, now).1.Saved?
    requires Calm(steps) && SavesOf(JsonSave(w, m, session, state, expected, now).0, steps, session) == 0
    ensures var (next, reply) := JsonSave(w, m, session, state, expected, now);
            var n := After(next, steps);
            && Plausible(n) && m in n.memory
            && View(n.memory[m], session) == View(Disk(n), session) == Some(reply.state)
            && LoadFrom(n.memory[m], session, later) == reply.state
            && SameContents(reply.state, state) && reply.state.version == expected + 1
  {
    var (next, reply) := JsonSave(w, m, session, state, expected, now);
    BaseIsDisk(w, m);
    SaveStores(Base(w, m), session, state, expected, now);
    hide Next, SaveInto, JsonSave, SameContents;
    if steps != [] {
      var front, last := steps[..|steps| - 1], steps[|steps| - 1];
      assert last in steps;
      JsonLoadReturnsSaved(w, m, session, state, expected, now, front, later);
      var n := After(next, front);
      CalmStep(n, last, session);
      CalmStepKeepsMemory(n, last, m, session);
    }
  }

  /** A save of any manager succeeds exactly when it expects what the reset left plus the saves since. */
  lemma SaveSucceedsIff(w: World, m: nat, session: string, state: Cognitive, expected: int, now: int)
    requires Explained(w) && m in w.memory
    ensures JsonSave(w, m, session, state, expected, now).1.Saved? <==>
            session != "" && expected == Actual(w.base, session) + CountOf(w.log, session)
  {
    BaseIsDisk(w, m);
    StoreCounts(w.base, w.log, session);
  }

  /**
   * No lost update across managers and stale memories: a save that expects
   * the version manager `reader` showed earlier succeeds exactly when no
   * save of the session was completed since that memory was current, and
   * then replaces the very state the memory showed.
   */
  lemma NoLostUpdateAcrossManagers(
    w: World, reader: nat, steps: seq<Step>, m: nat, session: string, state: Cognitive, loadedAt: int, now: int)
    requires Explained(w) && InEpoch(w, reader) && Calm(steps) && session != ""
    requires m in After(w, steps).memory
    ensures var w2 := After(w, steps);
            var expected := LoadFrom(w.memory[reader], session, loadedAt).version;
            var reply := JsonSave(w2, m, session, state, expected, now).1;
            && (reply.Saved? <==> Actual(Disk(w2), session) == Actual(w.memory[reader], session))
            && (reply.Saved? ==> View(Disk(w2), session) == View(w.memory[reader], session))
  {
    hide Next;
    var w2 := After(w, steps);
    VersionCountsFrom(w, steps, session);
    BaseIsDisk(w2, m);
    SnapshotIsCurrentIff(w, reader, session);
  }

  /** No save that expects the version `reader` shows can, over any later reset-free steps, replace a state it never showed. */
  ghost predicate NeverOverwritesUnseen(w: World, reader: nat, session: string)
    requires reader in w.memory
  {
    forall steps, m, state, now {:trigger JsonSave(After(w, steps), m, session, state, Actual(w.memory[reader], session), now)} ::
      Calm(steps) && m in After(w, steps).memory
      && JsonSave(After(w, steps), m, session, state, Actual(w.memory[reader], session), now).1.Saved? ==>
        View(Disk(After(w, steps)), session) == View(w.memory[reader], session)
  }

  /**
   * In any world, resets behind it or not: a memory is safe to base saves on
   * exactly when the file has a later version of the session or the very same
   * state. A manager can tell by comparing its memory with the file.
   */
  lemma MemoryIsSafeIff(w: World, reader: nat, session: string)
    requires Plausible(w) && reader in w.memory && session != ""
    ensures NeverOverwritesUnseen(w, reader, session) <==>
            || Actual(w.memory[reader], session) < Actual(Disk(w), session)
            || View(w.memory[reader], session) == View(Disk(w), session)
  {
    var shown, stored := Actual(w.memory[reader], session), Actual(Disk(w), session);
    if shown < stored || View(w.memory[reader], session) == View(Disk(w), session) {
      forall steps, m, state, now |
        && Calm(steps) && m in After(w, steps).memory
        && JsonSave(After(w, steps), m, session, state, shown, now).1.Saved?
        ensures View(Disk(After(w, steps)), session) == View(w.memory[reader], session)
      {
        VersionCountsFrom(w, steps, session);
        BaseIsDisk(After(w, steps), m);
      }
    } else {
      UnsafeMemory(w, reader, session);
    }
  }

  /** A payload the given view does not have. */
  function Unlike(view: Option<Cognitive>): Cognitive {
    Fresh(0).(emotional := if view.Some? then view.value.emotional + "!" else "")
  }

  lemma UnsafeMemory(w: World, reader: nat, session: string)
    requires Plausible(w) && reader in w.memory && session != ""
    requires Actual(w.memory[reader], session) >= Actual(Disk(w), session)
    requires View(w.memory[reader], session) != View(Disk(w), session)
    ensures !NeverOverwritesUnseen(w, reader, session)
  {
    var shown, stored := Actual(w.memory[reader], session), Actual(Disk(w), session);
    var other := Unlike(View(w.memory[reader], session));
    var steps := Catching(w, reader, session, other, shown - stored);
    var n := After(w, steps);
    BaseIsDisk(n, reader);
    assert JsonSave(n, reader, session, other, shown, 0).1.Saved?;
    assert View(Disk(n), session) != View(w.memory[reader], session);
  }

  /** `count` saves of one state in a row. */
  lemma {:induction false} Catching(w: World, m: nat, session: string, state: Cognitive, count: nat) returns (steps: seq<Step>)
    requires Plausible(w) && m in w.memory && session != ""
    ensures var n := After(w, steps);
            && Calm(steps) && Plausible(n) && m in n.memory
            && Actual(Disk(n), session) == Actual(Disk(w), session) + count
            && (count == 0 ==> n == w)
            && (count > 0 ==> session in Disk(n) && Disk(n)[session].emotional == state.emotional)
    decreases count
  {
    if count == 0 {
      steps := [];
    } else {
      var front := Catching(w, m, session, state, count - 1);
      var n := After(w, front);
      var last := Save(m, session, state, Actual(Disk(n), session), 0);
      steps := front + [last];
      assert steps[..|front|] == front;
      BaseIsDisk(n, m);
    }
  }

  /**
   * Resets are why the memory matters: after one, versions start again, and a
   * save based on a load from before the reset succeeds and replaces a state
   * that load never showed.
   */
  lemma ResetLetsStaleSaveOverwrite()
    ensures var before, mine := Fresh(0).(emotional := "before"), Fresh(0).(emotional := "mine");
            var w := After(EMPTY, [Open(0), Save(0, "s", before, 0, 1), Open(1), Reset(0, None), Save(0, "s", mine, 0, 2)]);
            && 1 in w.memory
            && var loaded := LoadFrom(w.memory[1], "s", 3);
            var (next, reply) := JsonSave(w, 1, "s", loaded, loaded.version, 4);
            && "s" in Disk(w) && Disk(w)["s"].emotional == "mine"
            && loaded.emotional == "before"
            && reply.Saved? && "s" in Disk(next) && Disk(next)["s"].emotional == "before"
  {
    var before, mine := Fresh(0).(emotional := "before"), Fresh(0).(emotional := "mine");
    var run := [Open(0), Save(0, "s", before, 0, 1), Open(1), Reset(0, None), Save(0, "s", mine, 0, 2)];
    var kept := before.(version := 1, updatedAt := 1);
    var s1 := map["s" := kept];
    var w2 := World(Some(s1), map[0 := s1], map[], [Entry("s", kept)]);
    var w4 := World(Some(map[]), map[0 := map[], 1 := s1], map[], []);
    assert Next(Next(EMPTY, run[0]).0, run[1]).0 == w2;
    assert Next(Next(w2, run[2]).0, run[3]).0 == w4;
    FiveSteps(EMPTY, run[0], run[1], run[2], run[3], run[4]);
    hide After;
  }

  lemma ThreeSteps(w: World, a: Step, b: Step, c: Step)
    ensures After(w, [a, b, c]) == Next(Next(Next(w, a).0, b).0, c).0
  {
    hide Next;
    assert [a, b, c][..2] == [a, b] && [a, b][..1] == [a] && [a][..0] == [];
    assert After(w, [a]) == Next(w, a).0;
    assert After(w, [a, b]) == Next(After(w, [a]), b).0;
  }

  lemma FiveSteps(w: World, a: Step, b: Step, c: Step, d: Step, e: Step)
    ensures After(w, [a, b, c, d, e]) == Next(Next(Next(Next(Next(w, a).0, b).0, c).0, d).0, e).0
  {
    hide Next;
    ThreeSteps(w, a, b, c);
    assert [a, b, c, d, e][..4] == [a, b, c, d] && [a, b, c, d][..3] == [a, b, c];
    assert After(w, [a, b, c, d]) == Next(After(w, [a, b, c]), d).0;
  }

  // ---- deltas ---------------------------------------------------------------------------------------

  /** With a memory that shows the expected version, `apply_delta` too is the in-memory operation on the file. */
  lemma DeltaRefines(w: World, m: nat, session: string, changes: seq<Change>, expected: int, now: int)
    requires Explained(w) && InEpoch(w, m)
    requires Actual(w.memory[m], session) == expected || expected != Actual(Disk(w), session)
    ensures var (next, reply) := JsonDelta(w, m, session, changes, expected, now);
            (Disk(next), reply) == DeltaInto(Disk(w), LoadFrom(Disk(w), session, now), session, changes, expected, now)
  {
    hide ApplyChanges;
    SnapshotIsCurrentIff(w, m, session);
    DeltaIsStale(w, m, session, changes, expected, now);
    if expected != Actual(Disk(w), session) {
      StaleDeltaAgreesIff(Disk(w), session, LoadFrom(w.memory[m], session, now), LoadFrom(Disk(w), session, now),
                          changes, expected, now);
    }
  }

  /** It always is the delta on the file's contents of whatever memory shows. */
  lemma DeltaIsStale(w: World, m: nat, session: string, changes: seq<Change>, expected: int, now: int)
    requires Plausible(w) && m in w.memory
    ensures var (next, reply) := JsonDelta(w, m, session, changes, expected, now);
            (Disk(next), reply) == DeltaInto(Disk(w), LoadFrom(w.memory[m], session, now), session, changes, expected, now)
  {
    hide ApplyChanges;
    BaseIsDisk(w, m);
  }

  /**
   * In any world a given delta acts on the file as the in-memory manager
   * would, if and only if it cannot be saved, is refused, or memory and file
   * agree on every key it does not overwrite.
   */
  lemma DeltaRefinesIff(w: World, m: nat, session: string, changes: seq<Change>, expected: int, now: int)
    requires Plausible(w) && m in w.memory
    ensures var (next, reply) := JsonDelta(w, m, session, changes, expected, now);
            var shown, stored := LoadFrom(w.memory[m], session, now), LoadFrom(Disk(w), session, now);
            (Disk(next), reply) == DeltaInto(Disk(w), stored, session, changes, expected, now) <==>
            || session == "" || expected != Actual(Disk(w), session) || !Supported(changes)
            || (AgreeOutside(shown, stored, changes) && SameBirth(Disk(w), session, shown, stored))
  {
    hide ApplyChanges, AgreeOutside, Supported;
    DeltaIsStale(w, m, session, changes, expected, now);
    StaleDeltaAgreesIff(Disk(w), session, LoadFrom(w.memory[m], session, now), LoadFrom(Disk(w), session, now),
                        changes, expected, now);
  }

  /** Before any delta is known: all of them act as in memory exactly when none can be saved or memory shows the file's contents. */
  lemma AllDeltasRefineIff(w: World, m: nat, session: string, expected: int, now: int)
    requires Plausible(w) && m in w.memory
    ensures var shown, stored := LoadFrom(w.memory[m], session, now), LoadFrom(Disk(w), session, now);
            (forall changes ::
               (Disk(JsonDelta(w, m, session, changes, expected, now).0), JsonDelta(w, m, session, changes, expected, now).1)
               == DeltaInto(Disk(w), stored, session, changes, expected, now)) <==>
            || session == "" || expected != Actual(Disk(w), session)
            || (Payload(shown) == Payload(stored) && SameBirth(Disk(w), session, shown, stored))
  {
    hide JsonDelta, DeltaInto;
    forall changes
      ensures (Disk(JsonDelta(w, m, session, changes, expected, now).0), JsonDelta(w, m, session, changes, expected, now).1)
              == DeltaInto(Disk(w), LoadFrom(w.memory[m], session, now), session, changes, expected, now)
    {
      DeltaIsStale(w, m, session, changes, expected, now);
    }
    StaleLoadIsGoodIff(Disk(w), session, LoadFrom(w.memory[m], session, now), LoadFrom(Disk(w), session, now), expected, now);
  }

  /** A delta through a stale memory with the right version number undoes another manager's update. */
  lemma StaleDeltaLosesUpdate()
    ensures var first := Fresh(0).(goal := map["plan" := "A"]);
            var second := Change("task", Some(map["step" := "1"]));
            var w := After(EMPTY, [Open(0), Open(1), Save(1, "s", first, 0, 1)]);
            && 0 in w.memory
            && var (next, reply) := JsonDelta(w, 0, "s", [second], 1, 2);
            && "s" in Disk(w) && Disk(w)["s"].goal == map["plan" := "A"]
            && reply.Saved? && reply.state.version == 2
            && "s" in Disk(next) && Disk(next)["s"].goal == map[]
  {
    var first := Fresh(0).(goal := map["plan" := "A"]);
    var second := Change("task", Some(map["step" := "1"]));
    var run := [Open(0), Open(1), Save(1, "s", first, 0, 1)];
    assert Next(Next(EMPTY, run[0]).0, run[1]).0 == World(None, map[0 := map[], 1 := map[]], map[], []);
    ThreeSteps(EMPTY, run[0], run[1], run[2]);
    hide After;
    OneChange(Fresh(2), second, TaskSlot);
    hide ApplyChanges;
  }

  // ---- reset --------------------------------------------------------------------------------------

  /** A reset removes its session from the file and nothing else exactly when the manager's memory holds the file's other sessions. */
  lemma ResetRefinesIff(w: World, m: nat, target: Option<string>)
    requires m in w.memory
    ensures Disk(JsonReset(w, m, target)) == ResetIn(Disk(w), target) <==>
            target.None? || forall s :: s != target.value ==> View(w.memory[m], s) == View(Disk(w), s)
  {
    if target.Some? {
      var after, want := ResetIn(w.memory[m], target), ResetIn(Disk(w), target);
      SameViews(after, want);
      assert forall s :: s != target.value ==>
        View(after, s) == View(w.memory[m], s) && View(want, s) == View(Disk(w), s);
      assert View(after, target.value) == None == View(want, target.value);
    }
  }

  /** For a manager that read or wrote the file since the last reset, comparing version numbers is enough. */
  lemma ResetRefinesIffVersions(w: World, m: nat, target: Option<string>)
    requires Explained(w) && InEpoch(w, m)
    ensures Disk(JsonReset(w, m, target)) == ResetIn(Disk(w), target) <==>
            target.None? || forall s :: s != target.value ==> Actual(w.memory[m], s) == Actual(Disk(w), s)
  {
    hide Explained, View;
    ResetRefinesIff(w, m, target);
    forall s
      ensures View(w.memory[m], s) == View(Disk(w), s) <==> Actual(w.memory[m], s) == Actual(Disk(w), s)
    {
      SnapshotIsCurrentIff(w, m, s);
    }
  }

  lemma SameViews(a: Store, b: Store)
    ensures a == b <==> forall s :: View(a, s) == View(b, s)
  {
    if forall s :: View(a, s) == View(b, s) {
      forall s
        ensures s in a <==> s in b
        ensures s in a && s in b ==> a[s] == b[s]
      {
        assert View(a, s) == View(b, s);
      }
    }
  }

  /** A reset of one session through a stale memory removes another session that was saved meanwhile. */
  lemma StaleResetLosesSession()
    ensures var w := After(EMPTY, [Open(0), Open(1), Save(1, "kept", Fresh(0), 0, 1)]);
            && "kept" in Disk(w)
            && 0 in w.memory
            && "kept" !in Disk(JsonReset(w, 0, Some("other")))
  {
    var run := [Open(0), Open(1), Save(1, "kept", Fresh(0), 0, 1)];
    assert Next(Next(EMPTY, run[0]).0, run[1]).0 == World(None, map[0 := map[], 1 := map[]], map[], []);
    ThreeSteps(EMPTY, run[0], run[1], run[2]);
    hide After;
  }
}
