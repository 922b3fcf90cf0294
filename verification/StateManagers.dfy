/** The two managers in the source's imperative form, proved against modules StateModel and StateFile. */
module StateManagers {
  import opened Options
  import opened StateModel
  import StateFile

  class InMemoryStateManager {
    var states: Store

    constructor ()
      ensures states == map[]
    {
      states := map[];
    }

    method Load(session: string, now: int) returns (state: Cognitive)
      ensures state == LoadFrom(states, session, now)
    {
      if session in states {
        return states[session];
      }
      return Fresh(now);
    }

    /** A refused save changes nothing; a successful one stores the next version and keeps the creation time. */
    method Save(session: string, state: Cognitive, expected: int, now: int) returns (reply: Reply)
      modifies this
      ensures (states, reply) == SaveInto(old(states), session, state, expected, now)
      ensures reply.Saved? ==>
                && session in states && states[session] == reply.state && SameContents(reply.state, state)
                && reply.state.version == expected + 1 && reply.state.updatedAt == now
    {
      if session == "" {
        return EmptySession;
      }
      var actual := 0;
      if session in states {
        actual := states[session].version;
      }
      if actual != expected {
        return Conflict(expected, actual);
      }
      var saved := state.(version := expected + 1, updatedAt := now);
      if session in states {
        saved := saved.(createdAt := states[session].createdAt);
      }
      states := states[session := saved];
      return Saved(saved);
    }

    /** `apply_delta`, called while nobody else holds the lock in between. */
    method ApplyDelta(session: string, changes: seq<Change>, expected: int, now: int) returns (reply: Reply)
      modifies this
      ensures (states, reply) == DeltaInto(old(states), LoadFrom(old(states), session, now), session, changes, expected, now)
      ensures reply.Saved? ==> HasWritten(LoadFrom(old(states), session, now), changes, reply.state)
    {
      DeltaWritesItsFields(LoadFrom(states, session, now), changes);
      var loaded := Load(session, now);
      reply := SaveDelta(session, loaded, changes, expected, now);
    }

    /** The rest of `apply_delta` after its load, which may have been of an older store. */
    method SaveDelta(session: string, loaded: Cognitive, changes: seq<Change>, expected: int, now: int) returns (reply: Reply)
      modifies this
      ensures (states, reply) == DeltaInto(old(states), loaded, session, changes, expected, now)
    {
      var applied := Update(loaded, changes);
      if applied.Refused? {
        return BadSection(applied.name);
      }
      reply := Save(session, applied.state, expected, now);
    }

    method Reset(target: Option<string>)
      modifies this
      ensures states == ResetIn(old(states), target)
    {
      match target
      case None => states := map[];
      case Some(session) => states := states - {session};
    }
  }

  /** The loop of `apply_delta`: it stops at the first section it does not support. */
  method Update(loaded: Cognitive, changes: seq<Change>) returns (applied: Applied)
    ensures applied == ApplyChanges(loaded, changes)
  {
    var state := loaded;
    for i := 0 to |changes|
      invariant ApplyChanges(loaded, changes) == ApplyChanges(state, changes[i..])
    {
      var next := ApplyChange(state, changes[i]);
      if next.None? {
        return Refused(changes[i].section);
      }
      state := next.value;
      assert changes[i..][1..] == changes[i + 1..];
    }
    return Changed(state);
  }

  /** The backing file; `None` until the first write. */
  class StateFileOnDisk {
    var content: Option<Store>

    constructor ()
      ensures content == None
    {
      content := None;
    }
  }

  class JsonStateManager {
    const file: StateFileOnDisk
    var states: Store

    constructor (f: StateFileOnDisk)
      ensures file == f
      ensures states == if f.content.Some? then f.content.value else map[]
    {
      file := f;
      states := if f.content.Some? then f.content.value else map[];
    }

    method Write()
      modifies file
      ensures file.content == Some(states)
    {
      file.content := Some(states);
    }

    /** A save starts from the file when there is one; only a successful save writes. */
    method Save(session: string, state: Cognitive, expected: int, now: int) returns (reply: Reply)
      modifies this, file
      ensures var base := if old(file.content).Some? then old(file.content).value else old(states);
              (states, reply) == SaveInto(base, session, state, expected, now)
      ensures file.content == if reply.Saved? then Some(states) else old(file.content)
      ensures reply.Saved? ==>
                && session in states && states[session] == reply.state && SameContents(reply.state, state)
                && reply.state.version == expected + 1 && reply.state.updatedAt == now
    {
      if file.content.Some? {
        states := file.content.value;
      }
      if session == "" {
        return EmptySession;
      }
      var actual := if session in states then states[session].version else 0;
      if actual != expected {
        return Conflict(expected, actual);
      }
      var created := if session in states then states[session].createdAt else state.createdAt;
      var saved := state.(version := expected + 1, updatedAt := now, createdAt := created);
      states := states[session := saved];
      Write();
      return Saved(saved);
    }

    method ApplyDelta(session: string, changes: seq<Change>, expected: int, now: int) returns (reply: Reply)
      modifies this, file
      ensures forall m: nat, w: StateFile.World ::
                m in w.memory && w.file == old(file.content) && w.memory[m] == old(states) ==>
                  var (next, r) := StateFile.JsonDelta(w, m, session, changes, expected, now);
                  m in next.memory && reply == r && next.file == file.content && next.memory[m] == states
      ensures reply.Saved? ==> HasWritten(LoadFrom(old(states), session, now), changes, reply.state)
    {
      DeltaWritesItsFields(LoadFrom(states, session, now), changes);
      var loaded := if session in states then states[session] else Fresh(now);
      var applied := Update(loaded, changes);
      if applied.Refused? {
        return BadSection(applied.name);
      }
      reply := Save(session, applied.state, expected, now);
    }

    method Reset(target: Option<string>)
      modifies this, file
      ensures states == ResetIn(old(states), target)
      ensures file.content == Some(states)
    {
      match target {
        case None => states := map[];
        case Some(session) => states := states - {session};
      }
      Write();
    }
  }
}
