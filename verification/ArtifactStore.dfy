/**
 * The store object itself: every method writes exactly the durable writes the
 * model lists, in order, so a crash inside a method is a prefix of them.
 */
module ArtifactStore {
  import opened Options
  import opened Sequences
  import opened Artifacts
  import Runs = ArtifactRuns

  /** The campaign directory, with the history of its durable writes. */
  class ArtifactFiles {
    var disk: Disk
    ghost var history: seq<Write>

    constructor (disk: Disk)
      ensures this.disk == disk && history == []
    {
      this.disk, history := disk, [];
    }

    method Perform(w: Write)
      modifies this
      ensures disk == Apply(old(disk), w)
      ensures history == old(history) + [w]
    {
      disk := Apply(disk, w);
      history := history + [w];
    }
  }

  class BenchmarkArtifactStore {
    const files: ArtifactFiles
    var checkpointIndex: Option<set<string>>
    var predictionIndex: Option<set<string>>
    var failureIndex: Option<set<string>>

    constructor (files: ArtifactFiles)
      ensures this.files == files && Keys() == UNLOADED
    {
      this.files := files;
      checkpointIndex, predictionIndex, failureIndex := None, None, None;
    }

    ghost function Keys(): Index
      reads this
    {
      Index(checkpointIndex, predictionIndex, failureIndex)
    }

    /** The store made exactly the writes `ws`, and its files show them. */
    twostate predicate Wrote(ws: seq<Write>)
      reads files
    {
      files.disk == ApplyAll(old(files.disk), ws) && files.history == old(files.history) + ws
    }

    /** `_append_unique` for checkpoints, predictions and failures. */
    method AppendUnique(section: Section) returns (appended: bool)
      modifies this, files
      ensures Wrote(SectionWrites(old(files.disk), old(Keys()), section))
      ensures Keys() == SectionIndex(old(files.disk), old(Keys()), section)
      ensures appended == (SectionWrites(old(files.disk), old(Keys()), section) != [])
    {
      appended := false;
      match section {
        case CheckpointSection(c) =>
          var existing := Loaded(checkpointIndex, CaseIds(files.disk.checkpoints));
          if c.caseId !in existing {
            files.Perform(AddCheckpoint(c));
            appended := true;
          }
          checkpointIndex := Some(existing + {c.caseId});
        case PredictionSection(p) =>
          var existing := Loaded(predictionIndex, PredictionIds(Rows(files.disk.predictions)));
          if p.caseId !in existing {
            files.Perform(AddPrediction(p));
            appended := true;
          }
          predictionIndex := Some(existing + {p.caseId});
        case FailureSection(f) =>
          var key := FailureKey(f);
          var existing := Loaded(failureIndex, FailureRowKeys(Rows(files.disk.failures)));
          if key !in existing {
            files.Perform(AddFailure(f));
            appended := true;
          }
          failureIndex := Some(existing + {key});
      }
      if appended {
        ApplyOne(old(files.disk), SectionWrites(old(files.disk), old(Keys()), section)[0]);
      }
    }

    /** The checkpoint row first, then its mirrors. */
    method AppendCheckpoint(record: Checkpoint) returns (appended: bool)
      requires record.Valid()
      modifies this, files
      ensures Wrote(CheckpointWrites(old(files.disk), old(Keys()), record))
      ensures Keys() == CheckpointIndex(old(files.disk), old(Keys()), record)
      ensures appended == (record.caseId !in Loaded(old(checkpointIndex), CaseIds(old(files.disk.checkpoints))))
    {
      ghost var d, x := files.disk, Keys();
      ghost var ws := SectionWrites(d, x, CheckpointSection(record));
      appended := AppendUnique(CheckpointSection(record));
      if appended {
        if record.prediction.Some? {
          ghost var d1, x1 := files.disk, Keys();
          var _ := AppendUnique(PredictionSection(record.prediction.value));
          ApplyConcat(d, ws, SectionWrites(d1, x1, PredictionSection(record.prediction.value)));
          ws := ws + SectionWrites(d1, x1, PredictionSection(record.prediction.value));
        }
        if record.failure.Some? {
          ghost var d2, x2 := files.disk, Keys();
          var _ := AppendUnique(FailureSection(record.failure.value));
          ApplyConcat(d, ws, SectionWrites(d2, x2, FailureSection(record.failure.value)));
          ws := ws + SectionWrites(d2, x2, FailureSection(record.failure.value));
        }
      }
      assert ws == CheckpointWrites(d, x, record) by {
        MirrorsDontInterfere(d, x, record);
      }
    }

    /** Rebuild the mirrors from the authoritative checkpoints. */
    method Reconcile()
      modifies this, files
      ensures Wrote(ReconcileWrites(old(files.disk)))
      ensures Keys() == ReconciledIndex(old(files.disk), old(Keys()))
    {
      var d := files.disk;
      if d.checkpoints == [] && d.predictions.None? && d.failures.None? {
        return;
      }
      var predictions := PredictionsOf(d.checkpoints);
      var failures := FailuresOf(d.checkpoints);
      var campaign := CampaignRows(Rows(d.failures));
      files.Perform(ReplacePredictions(predictions));
      files.Perform(ReplaceFailures(campaign + failures));
      checkpointIndex := Some(CaseIds(d.checkpoints));
      predictionIndex := Some(PredictionIds(predictions));
      failureIndex := Some(FailureRowKeys(campaign + failures));
      ApplyTwo(d, ReplacePredictions(predictions), ReplaceFailures(campaign + failures));
    }

    /** False is the `ValueError` for a manifest that already says COMPLETE. */
    method Initialize(manifest: Manifest) returns (ok: bool)
      modifies this, files
      ensures ok == (manifest.status != Complete)
      ensures !ok ==> Wrote([]) && Keys() == old(Keys())
      ensures ok ==> Wrote(InitializeWrites(old(files.disk), manifest))
      ensures ok ==> Keys() == ReconciledIndex(old(files.disk), old(Keys()))
    {
      if manifest.status == Complete {
        return false;
      }
      ghost var d := files.disk;
      files.Perform(WriteManifest(manifest));
      Reconcile();
      InitializedIs(d, manifest);
      ok := true;
    }

    /** False is one of the `ValueError`s; then nothing is written. */
    method Finalize(summary: Summary) returns (ok: bool)
      requires files.disk.manifest.Some?
      modifies files
      ensures ok == MayFinalize(old(files.disk), summary)
      ensures Wrote(if ok then FinalizeWrites(old(files.disk), summary) else [])
      ensures DistinctCases(old(files.disk.checkpoints)) ==>
                (ok <==> && summary.campaignId == old(files.disk.manifest.value.campaignId)
                         && (summary.status == Complete ==> SelectedEnded(old(files.disk), old(files.disk.manifest.value)))
                         && CountsAgree(old(files.disk), summary))
      ensures ok ==> files.disk == old(files.disk).(summary := Some(summary),
                                                    manifest := Some(old(files.disk.manifest.value).(status := summary.status)))
    {
      var d := files.disk;
      var manifest := d.manifest.value;
      if DistinctCases(d.checkpoints) {
        MayFinalizeIff(d, summary);
      }
      if summary.campaignId != manifest.campaignId {
        return false;
      }
      if summary.status == Complete && TerminalIds(d.checkpoints) != Elements(manifest.selectedIds) {
        return false;
      }
      var completed := CountCheckpoints(Complete);
      var failed := CountCheckpoints(Failed);
      var cancelled := CountCheckpoints(Cancelled);
      if completed != summary.completed || failed != summary.failed || cancelled != summary.cancelled {
        return false;
      }
      files.Perform(WriteSummary(summary));
      files.Perform(WriteManifest(manifest.(status := summary.status)));
      ApplyTwo(d, WriteSummary(summary), WriteManifest(manifest.(status := summary.status)));
      ok := true;
    }

    method CountCheckpoints(status: RunStatus) returns (actual: nat)
      ensures actual == CountStatus(files.disk.checkpoints, status)
    {
      var checkpoints := files.disk.checkpoints;
      actual := 0;
      for i := 0 to |checkpoints|
        invariant actual == CountStatus(checkpoints[..i], status)
      {
        assert checkpoints[..i + 1][..i] == checkpoints[..i];
        if checkpoints[i].status == status {
          actual := actual + 1;
        }
      }
      assert checkpoints[..|checkpoints|] == checkpoints;
    }
  }

  // ---- whole appends -----------------------------------------------------------------

  /** The writes of `append_checkpoint` run without interference. */
  function CheckpointWrites(d: Disk, x: Index, c: Checkpoint): seq<Write> {
    var row := SectionWrites(d, x, CheckpointSection(c));
    if row == [] then []
    else row
         + (match c.prediction case Some(p) => SectionWrites(d, x, PredictionSection(p)) case None => [])
         + (match c.failure case Some(f) => SectionWrites(d, x, FailureSection(f)) case None => [])
  }

  function CheckpointIndex(d: Disk, x: Index, c: Checkpoint): Index {
    var x1 := SectionIndex(d, x, CheckpointSection(c));
    if SectionWrites(d, x, CheckpointSection(c)) == [] then x1
    else
      var x2 := match c.prediction case Some(p) => SectionIndex(d, x1, PredictionSection(p)) case None => x1;
      match c.failure case Some(f) => SectionIndex(d, x2, FailureSection(f)) case None => x2
  }

  lemma {:induction false} ApplyConcat(d: Disk, a: seq<Write>, b: seq<Write>)
    ensures ApplyAll(d, a + b) == ApplyAll(ApplyAll(d, a), b)
    decreases |a|
  {
    if a == [] {
      assert a + b == b;
    } else {
      assert (a + b)[1..] == a[1..] + b;
      ApplyConcat(Apply(d, a[0]), a[1..], b);
    }
  }

  /** The three files are disjoint, so each section's decision can be read off the directory before the append. */
  lemma MirrorsDontInterfere(d: Disk, x: Index, c: Checkpoint)
    ensures var row := SectionWrites(d, x, CheckpointSection(c));
            var d1, x1 := ApplyAll(d, row), SectionIndex(d, x, CheckpointSection(c));
            && d1.predictions == d.predictions && d1.failures == d.failures
            && (c.prediction.Some? ==>
                  var p := PredictionSection(c.prediction.value);
                  SectionWrites(d1, x1, p) == SectionWrites(d, x, p) && ApplyAll(d1, SectionWrites(d1, x1, p)).failures == d.failures)
  {
    var row := SectionWrites(d, x, CheckpointSection(c));
    ApplyOne(d, AddCheckpoint(c));
    var d1 := ApplyAll(d, row);
    if c.prediction.Some? {
      ApplyOne(d1, AddPrediction(c.prediction.value));
    }
  }

  /** A live store in step with its files. */
  ghost predicate InStep(d: Disk, x: Index) {
    && Rows(d.predictions) == PredictionsOf(d.checkpoints)
    && Loaded(x.checkpoints, CaseIds(d.checkpoints)) == CaseIds(d.checkpoints)
    && Loaded(x.predictions, PredictionIds(Rows(d.predictions))) == PredictionIds(Rows(d.predictions))
  }

  function Optional<T>(x: Option<T>): seq<T> {
    match x
    case Some(v) => [v]
    case None => []
  }

  lemma PredictionsAppend(cs: seq<Checkpoint>, c: Checkpoint)
    ensures PredictionsOf(cs + [c]) == PredictionsOf(cs) + Optional(c.prediction)
    ensures CaseIds(cs + [c]) == CaseIds(cs) + {c.caseId}
  {
    assert (cs + [c])[..|cs|] == cs;
    assert forall x :: x in cs + [c] <==> x in cs || x == c;
  }

  lemma PredictionIdsAppend(ps: seq<Prediction>, p: Prediction)
    ensures PredictionIds(ps + [p]) == PredictionIds(ps) + {p.caseId}
  {
    assert forall x :: x in ps + [p] <==> x in ps || x == p;
  }

  lemma {:induction false} PredictionIdsOfValid(cs: seq<Checkpoint>)
    requires forall c :: c in cs ==> c.Valid()
    ensures PredictionIds(PredictionsOf(cs)) <= CaseIds(cs)
  {
    if cs != [] {
      var front, last := cs[..|cs| - 1], cs[|cs| - 1];
      assert cs == front + [last];
      assert forall c :: c in cs <==> c in front || c == last;
      assert last in cs && last.Valid();
      PredictionIdsOfValid(front);
      PredictionsAppend(front, last);
      if last.prediction.Some? {
        PredictionIdsAppend(PredictionsOf(front), last.prediction.value);
      }
    }
  }

  /** What the writes of one append do to the directory. */
  lemma CheckpointWritesEffect(d: Disk, x: Index, c: Checkpoint)
    requires SectionWrites(d, x, CheckpointSection(c)) != []
    ensures var n := ApplyAll(d, CheckpointWrites(d, x, c));
            && n.checkpoints == d.checkpoints + [c]
            && Rows(n.predictions) == Rows(d.predictions)
                 + (if c.prediction.Some? && SectionWrites(d, x, PredictionSection(c.prediction.value)) != []
                    then [c.prediction.value] else [])
            && Rows(n.failures) == Rows(d.failures)
                 + (if c.failure.Some? && SectionWrites(d, x, FailureSection(c.failure.value)) != []
                    then [c.failure.value] else [])
  {
    var row := SectionWrites(d, x, CheckpointSection(c));
    var ps := match c.prediction case Some(p) => SectionWrites(d, x, PredictionSection(p)) case None => [];
    var fs := match c.failure case Some(f) => SectionWrites(d, x, FailureSection(f)) case None => [];
    ApplyOne(d, AddCheckpoint(c));
    ApplyConcat(d, row, ps);
    ApplyConcat(d, row + ps, fs);
    if ps != [] {
      ApplyOne(ApplyAll(d, row), ps[0]);
    }
    if fs != [] {
      ApplyOne(ApplyAll(d, row + ps), fs[0]);
    }
  }

  /** An uninterrupted append leaves the prediction mirror equal to what a reconcile would rebuild. */
  lemma AppendKeepsMirror(d: Disk, x: Index, c: Checkpoint)
    requires InStep(d, x) && c.Valid() && forall r :: r in d.checkpoints ==> r.Valid()
    ensures var n := ApplyAll(d, CheckpointWrites(d, x, c));
            && InStep(n, CheckpointIndex(d, x, c))
            && n.checkpoints == (if c.caseId in CaseIds(d.checkpoints) then d.checkpoints else d.checkpoints + [c])
  {
    if SectionWrites(d, x, CheckpointSection(c)) == [] {
      assert CaseIds(d.checkpoints) + {c.caseId} == CaseIds(d.checkpoints);
    } else {
      CheckpointWritesEffect(d, x, c);
      PredictionIdsOfValid(d.checkpoints);
      PredictionsAppend(d.checkpoints, c);
      hide CheckpointWrites, PredictionsOf, CaseIds, PredictionIds, FailureKey, FailureRowKeys;
      var n := ApplyAll(d, CheckpointWrites(d, x, c));
      assert CheckpointIndex(d, x, c).checkpoints == Some(CaseIds(n.checkpoints));
      if c.prediction.Some? {
        PredictionIdsAppend(PredictionsOf(d.checkpoints), c.prediction.value);
        assert CheckpointIndex(d, x, c).predictions == Some(PredictionIds(Rows(n.predictions)));
      } else {
        assert Rows(d.predictions) + [] == Rows(d.predictions);
        assert CheckpointIndex(d, x, c).predictions == x.predictions;
      }
    }
  }

  // ---- appends as schedules ----------------------------------------------------------------

  /** What a thread that works off `sections` undisturbed writes. */
  function SectionsWrites(d: Disk, x: Index, sections: seq<Section>): seq<Write>
    decreases |sections|
  {
    if sections == [] then []
    else
      var ws := SectionWrites(d, x, sections[0]);
      ws + SectionsWrites(ApplyAll(d, ws), SectionIndex(d, x, sections[0]), sections[1..])
  }

  function SectionsIndex(d: Disk, x: Index, sections: seq<Section>): Index
    decreases |sections|
  {
    if sections == [] then x
    else SectionsIndex(ApplyAll(d, SectionWrites(d, x, sections[0])), SectionIndex(d, x, sections[0]), sections[1..])
  }

  lemma ScheduleStep(s: Runs.Campaign, a: Runs.Action, rest: seq<Runs.Action>)
    requires Runs.Enabled(s, a) && Runs.Runs(Runs.Next(s, a), rest)
    ensures Runs.Runs(s, [a] + rest) && Runs.After(s, [a] + rest) == Runs.After(Runs.Next(s, a), rest)
  {
    assert ([a] + rest)[1..] == rest;
  }

  /** Mirror sections are locked and written one after the other. */
  lemma {:induction false} WorksOff(s: Runs.Campaign, t: Runs.Tid, sections: seq<Section>)
    requires s.mode.Live? && Runs.Todo(s.mode, t) == sections && forall x :: x in sections ==> !x.CheckpointSection?
    requires t in s.mode.threads ==> s.mode.threads[t] != []
    ensures var schedule := Runs.Locked(t, |sections|);
            && Runs.Runs(s, schedule)
            && var n := Runs.After(s, schedule);
            && n.disk == ApplyAll(s.disk, SectionsWrites(s.disk, s.mode.index, sections))
            && n.mode == Runs.Live(SectionsIndex(s.disk, s.mode.index, sections), s.mode.threads - {t})
    decreases |sections|
  {
    if sections == [] {
      assert t !in s.mode.threads;
      assert s.mode.threads - {t} == s.mode.threads;
    } else {
      var d, x := s.disk, s.mode.index;
      var ws := SectionWrites(d, x, sections[0]);
      var n := Runs.Next(s, Runs.LockSection(t));
      assert sections[0] in sections && FollowUps(d, x, sections[0]) == [];
      assert [] + sections[1..] == sections[1..];
      assert n.mode.Live? && n.disk == ApplyAll(d, ws) && n.mode.index == SectionIndex(d, x, sections[0]);
      assert Runs.Todo(n.mode, t) == sections[1..];
      assert n.mode.threads - {t} == s.mode.threads - {t};
      WorksOff(n, t, sections[1..]);
      ScheduleStep(s, Runs.LockSection(t), Runs.Locked(t, |sections| - 1));
      ApplyConcat(d, ws, SectionsWrites(ApplyAll(d, ws), SectionIndex(d, x, sections[0]), sections[1..]));
    }
  }

  /** The object's `AppendCheckpoint` is one of the schedules: the same writes and the same keys. */
  lemma AppendIsASchedule(s: Runs.Campaign, t: Runs.Tid, c: Checkpoint)
    requires s.mode.Live? && t !in s.mode.threads && c.Valid()
    ensures var d, x := s.disk, s.mode.index;
            var follow := if SectionWrites(d, x, CheckpointSection(c)) == [] then [] else Mirrors(c);
            var schedule := [Runs.AppendCheckpoint(t, c)] + ([Runs.LockSection(t)] + Runs.Locked(t, |follow|));
            && Runs.Runs(s, schedule)
            && Runs.After(s, schedule).disk == ApplyAll(d, CheckpointWrites(d, x, c))
            && Runs.After(s, schedule).mode == Runs.Live(CheckpointIndex(d, x, c), s.mode.threads)
  {
    var d, x := s.disk, s.mode.index;
    var row := SectionWrites(d, x, CheckpointSection(c));
    var follow := if row == [] then [] else Mirrors(c);
    var s1 := Runs.Next(s, Runs.AppendCheckpoint(t, c));
    var s2 := Runs.Next(s1, Runs.LockSection(t));
    LockedCheckpoint(s, t, c);
    WorksOff(s2, t, follow);
    FollowedWrites(d, x, c);
    ApplyConcat(d, row, SectionsWrites(ApplyAll(d, row), SectionIndex(d, x, CheckpointSection(c)), follow));
    hide Runs.Next, Runs.Enabled, ApplyAll, SectionWrites, SectionIndex, CheckpointWrites, CheckpointIndex, SectionsWrites, SectionsIndex, Mirrors;
    ScheduleStep(s1, Runs.LockSection(t), Runs.Locked(t, |follow|));
    ScheduleStep(s, Runs.AppendCheckpoint(t, c), [Runs.LockSection(t)] + Runs.Locked(t, |follow|));
  }

  lemma LockedCheckpoint(s: Runs.Campaign, t: Runs.Tid, c: Checkpoint)
    requires s.mode.Live? && t !in s.mode.threads && c.Valid()
    ensures var d, x := s.disk, s.mode.index;
            var row := SectionWrites(d, x, CheckpointSection(c));
            var follow := if row == [] then [] else Mirrors(c);
            && Runs.Enabled(s, Runs.AppendCheckpoint(t, c))
            && var s1 := Runs.Next(s, Runs.AppendCheckpoint(t, c));
            && Runs.Enabled(s1, Runs.LockSection(t))
            && var s2 := Runs.Next(s1, Runs.LockSection(t));
            && s2.mode.Live? && Runs.Todo(s2.mode, t) == follow && s2.mode.threads - {t} == s.mode.threads
            && (t in s2.mode.threads ==> s2.mode.threads[t] != [])
            && s2.disk == ApplyAll(d, row) && s2.mode.index == SectionIndex(d, x, CheckpointSection(c))
            && forall y :: y in follow ==> !y.CheckpointSection?
  {
    var x := [CheckpointSection(c)];
    assert x[1..] == [];
    assert Mirrors(c) + [] == Mirrors(c);
  }

  /** The row and its mirrors, whichever there are. */
  lemma FollowedWrites(d: Disk, x: Index, c: Checkpoint)
    ensures var row, x1 := SectionWrites(d, x, CheckpointSection(c)), SectionIndex(d, x, CheckpointSection(c));
            var follow := if row == [] then [] else Mirrors(c);
            && CheckpointWrites(d, x, c) == row + SectionsWrites(ApplyAll(d, row), x1, follow)
            && CheckpointIndex(d, x, c) == SectionsIndex(ApplyAll(d, row), x1, follow)
  {
    var row, x1 := SectionWrites(d, x, CheckpointSection(c)), SectionIndex(d, x, CheckpointSection(c));
    MirrorsDontInterfere(d, x, c);
    if row != [] {
      MirrorsAre(d, x, c);
    }
  }

  lemma MirrorsAre(d: Disk, x: Index, c: Checkpoint)
    requires SectionWrites(d, x, CheckpointSection(c)) != []
    ensures var row, x1 := SectionWrites(d, x, CheckpointSection(c)), SectionIndex(d, x, CheckpointSection(c));
            && CheckpointWrites(d, x, c) == row + SectionsWrites(ApplyAll(d, row), x1, Mirrors(c))
            && CheckpointIndex(d, x, c) == SectionsIndex(ApplyAll(d, row), x1, Mirrors(c))
  {
    var row, x1 := SectionWrites(d, x, CheckpointSection(c)), SectionIndex(d, x, CheckpointSection(c));
    var d1 := ApplyAll(d, row);
    ApplyOne(d, AddCheckpoint(c));
    var ms := Mirrors(c);
    if c.prediction.Some? {
      var p := PredictionSection(c.prediction.value);
      var pw := SectionWrites(d1, x1, p);
      if pw != [] {
        ApplyOne(d1, pw[0]);
      }
      if c.failure.Some? {
        var f := FailureSection(c.failure.value);
        assert ms == [p, f] && ms[1..] == [f] && [f][1..] == [];
        var d2, x2 := ApplyAll(d1, pw), SectionIndex(d1, x1, p);
        var fw := SectionWrites(d2, x2, f);
        MirrorsDontInterfere(d, x, c);
        assert pw == SectionWrites(d, x, p) && fw == SectionWrites(d, x, f);
        assert SectionsWrites(d2, x2, [f]) == fw + SectionsWrites(ApplyAll(d2, fw), SectionIndex(d2, x2, f), []) == fw;
        assert SectionsWrites(d1, x1, ms) == pw + fw;
        assert row + pw + fw == row + (pw + fw);
        assert SectionsIndex(d2, x2, [f]) == SectionsIndex(ApplyAll(d2, fw), SectionIndex(d2, x2, f), []) == SectionIndex(d2, x2, f);
      } else {
        assert ms == [p] && ms[1..] == [];
      }
    } else if c.failure.Some? {
      var f := FailureSection(c.failure.value);
      assert ms == [f] && ms[1..] == [];
    } else {
      assert ms == [];
    }
  }

  // ---- the failure mirror ----------------------------------------------------------------

  predicate IsCaseRow(f: Failure) { f.caseId.Some? }

  /** The failure rows of cases, leaving out the campaign's own. */
  function CaseRows(fs: seq<Failure>): seq<Failure> { Filter(fs, IsCaseRow) }

  /** The case rows are what a reconcile would rebuild; every loaded key is a case's or one of `campaign`. */
  ghost predicate FailuresInStep(d: Disk, x: Index, campaign: set<string>) {
    && CaseRows(Rows(d.failures)) == FailuresOf(d.checkpoints)
    && Loaded(x.failures, FailureRowKeys(Rows(d.failures))) <= CaseIds(d.checkpoints) + campaign
    && Loaded(x.checkpoints, CaseIds(d.checkpoints)) == CaseIds(d.checkpoints)
  }

  lemma CaseRowsAppend(fs: seq<Failure>, gs: seq<Failure>)
    ensures CaseRows(fs + gs) == CaseRows(fs) + CaseRows(gs)
  {
    FilterConcat(fs, gs, IsCaseRow);
  }

  lemma CaseRowsOfOne(f: Failure)
    ensures CaseRows([f]) == if IsCaseRow(f) then [f] else []
  {
    var fs := [f];
    assert fs[0] == f && fs[1..] == [];
    assert Filter(fs, IsCaseRow) == (if IsCaseRow(f) then [f] else []) + Filter(fs[1..], IsCaseRow);
  }

  lemma FailuresAppend(cs: seq<Checkpoint>, c: Checkpoint)
    ensures FailuresOf(cs + [c]) == FailuresOf(cs) + Optional(c.failure)
  {
    assert (cs + [c])[..|cs|] == cs;
  }

  lemma FailureRowKeysConcat(fs: seq<Failure>, gs: seq<Failure>)
    ensures FailureRowKeys(fs + gs) == FailureRowKeys(fs) + FailureRowKeys(gs)
  {
    assert forall f :: f in fs + gs <==> f in fs || f in gs;
  }

  lemma FailureRowKeysOfOne(f: Failure)
    ensures FailureRowKeys([f]) == {FailureRowKey(f)}
  {
  }

  /** Appending a new failed case mirrors its failure exactly when no loaded key is its id. */
  lemma AppendMirrorsFailureIff(d: Disk, x: Index, c: Checkpoint)
    requires c.Valid() && c.Attributed() && c.caseId !in Loaded(x.checkpoints, CaseIds(d.checkpoints))
    requires CaseRows(Rows(d.failures)) == FailuresOf(d.checkpoints)
    ensures var n := ApplyAll(d, CheckpointWrites(d, x, c));
            CaseRows(Rows(n.failures)) == FailuresOf(n.checkpoints)
            <==> (c.failure.Some? ==> c.caseId !in Loaded(x.failures, FailureRowKeys(Rows(d.failures))))
  {
    CheckpointWritesEffect(d, x, c);
    FailuresAppend(d.checkpoints, c);
    var n := ApplyAll(d, CheckpointWrites(d, x, c));
    if c.failure.Some? {
      assert FailureKey(c.failure.value) == c.caseId;
      CaseRowsAppend(Rows(d.failures), [c.failure.value]);
      CaseRowsOfOne(c.failure.value);
    }
    hide CheckpointWrites, FailuresOf, CaseRows, CaseIds, FailureRowKeys, FailureKey;
    assert Rows(d.failures) + [] == Rows(d.failures);
    assert FailuresOf(n.checkpoints) == FailuresOf(d.checkpoints) + Optional(c.failure);
    if c.failure.Some? {
      assert |FailuresOf(n.checkpoints)| == |FailuresOf(d.checkpoints)| + 1;
    }
  }

  /** The keys a whole append of a new case loads. */
  lemma CheckpointIndexEffect(d: Disk, x: Index, c: Checkpoint)
    requires SectionWrites(d, x, CheckpointSection(c)) != []
    ensures var x1 := CheckpointIndex(d, x, c);
            && x1.checkpoints == Some(Loaded(x.checkpoints, CaseIds(d.checkpoints)) + {c.caseId})
            && x1.failures == if c.failure.Some?
                              then Some(Loaded(x.failures, FailureRowKeys(Rows(d.failures))) + {FailureKey(c.failure.value)})
                              else x.failures
  {
  }

  /** So it stays mirrored while no failed case is called like a campaign key. */
  lemma AppendKeepsFailureMirror(d: Disk, x: Index, c: Checkpoint, campaign: set<string>)
    requires FailuresInStep(d, x, campaign) && c.Valid() && c.Attributed()
    requires c.failure.Some? ==> c.caseId !in campaign
    ensures FailuresInStep(ApplyAll(d, CheckpointWrites(d, x, c)), CheckpointIndex(d, x, c), campaign)
  {
    if c.caseId in CaseIds(d.checkpoints) {
      assert CaseIds(d.checkpoints) + {c.caseId} == CaseIds(d.checkpoints);
      assert CheckpointWrites(d, x, c) == [] && CheckpointIndex(d, x, c) == x.(checkpoints := Some(CaseIds(d.checkpoints)));
    } else {
      AppendMirrorsFailureIff(d, x, c);
      NewCaseKeepsKeys(d, x, c, campaign);
    }
  }

  lemma NewCaseKeepsKeys(d: Disk, x: Index, c: Checkpoint, campaign: set<string>)
    requires FailuresInStep(d, x, campaign) && c.Valid() && c.Attributed() && c.caseId !in CaseIds(d.checkpoints)
    ensures var n, x1 := ApplyAll(d, CheckpointWrites(d, x, c)), CheckpointIndex(d, x, c);
            && Loaded(x1.failures, FailureRowKeys(Rows(n.failures))) <= CaseIds(n.checkpoints) + campaign
            && Loaded(x1.checkpoints, CaseIds(n.checkpoints)) == CaseIds(n.checkpoints)
  {
    CheckpointWritesEffect(d, x, c);
    CheckpointIndexEffect(d, x, c);
    PredictionsAppend(d.checkpoints, c);
    assert c.failure.Some? ==> FailureKey(c.failure.value) == c.caseId;
    var loaded, keys := Loaded(x.failures, FailureRowKeys(Rows(d.failures))), CaseIds(d.checkpoints);
    var n, x1 := ApplyAll(d, CheckpointWrites(d, x, c)), CheckpointIndex(d, x, c);
    hide *;
    assert CaseIds(n.checkpoints) == keys + {c.caseId};
    if c.failure.Some? {
      assert x1.failures == Some(loaded + {c.caseId});
    } else {
      assert Rows(d.failures) + [] == Rows(d.failures);
    }
  }

  /** A campaign-level failure leaves the case rows alone and adds its key. */
  lemma CampaignFailureKeepsMirror(d: Disk, x: Index, f: Failure, campaign: set<string>)
    requires FailuresInStep(d, x, campaign) && IsCampaignRow(f)
    ensures FailuresInStep(ApplyAll(d, SectionWrites(d, x, FailureSection(f))), SectionIndex(d, x, FailureSection(f)),
                           campaign + {FailureKey(f)})
  {
    if SectionWrites(d, x, FailureSection(f)) != [] {
      ApplyOne(d, AddFailure(f));
      CaseRowsAppend(Rows(d.failures), [f]);
      CaseRowsOfOne(f);
    }
  }

  lemma {:induction false} CaseRowsOfAttributed(cs: seq<Checkpoint>)
    requires forall c :: c in cs ==> c.Valid() && c.Attributed()
    ensures CaseRows(FailuresOf(cs)) == FailuresOf(cs)
    ensures FailureRowKeys(FailuresOf(cs)) <= CaseIds(cs)
  {
    if cs != [] {
      var front, last := cs[..|cs| - 1], cs[|cs| - 1];
      assert cs == front + [last] && last in cs;
      CaseRowsOfAttributed(front);
      FailuresAppend(front, last);
      PredictionsAppend(front, last);
      hide CaseRows, FailureRowKeys, CaseIds;
      if last.failure.Some? {
        var f := last.failure.value;
        CaseRowsAppend(FailuresOf(front), [f]);
        CaseRowsOfOne(f);
        FailureRowKeysConcat(FailuresOf(front), [f]);
        FailureRowKeysOfOne(f);
      } else {
        assert FailuresOf(front) + [] == FailuresOf(front);
      }
    }
  }

  lemma {:induction false} CampaignHasNoCaseRows(fs: seq<Failure>)
    ensures CaseRows(CampaignRows(fs)) == []
    ensures FailureRowKeys(CampaignRows(fs)) <= {""}
  {
    if fs != [] {
      CampaignHasNoCaseRows(fs[1..]);
      var head := if IsCampaignRow(fs[0]) then [fs[0]] else [];
      CaseRowsAppend(head, CampaignRows(fs[1..]));
      FailureRowKeysConcat(head, CampaignRows(fs[1..]));
    }
  }

  /** Recovery puts the failure mirror in step; campaign rows are read back under the empty key, which no case has. */
  lemma ReconcilePutsFailuresInStep(d: Disk)
    requires forall c :: c in d.checkpoints ==> c.Valid() && c.Attributed()
    ensures FailuresInStep(Reconciled(d), ReconciledIndex(d, UNLOADED), {""})
  {
    var campaign, mine := CampaignRows(Rows(d.failures)), FailuresOf(d.checkpoints);
    ReconcileMeaning(d, UNLOADED);
    CaseRowsOfAttributed(d.checkpoints);
    CampaignHasNoCaseRows(Rows(d.failures));
    CaseRowsAppend(campaign, mine);
    FailureRowKeysConcat(campaign, mine);
    hide CaseRows, FailureRowKeys, CampaignRows, FailuresOf, CaseIds, PredictionsOf, PredictionIds;
    assert [] + mine == mine;
    if Untouched(d) {
      assert FailureRowKeys(Rows(Reconciled(d).failures)) == FailureRowKeys(campaign) + FailureRowKeys(mine);
    }
  }

  /** A case called like the key of a campaign failure loses its own failure row. */
  lemma CollidingCaseIsNotMirrored()
    ensures var f := Failure(None, "setup", "now", "");
            var id := FailureKey(f);
            var c := Checkpoint(id, Failed, None, Some(Failure(Some(id), "execution", "now", "")));
            var d := Disk(None, None, [], None, None);
            var d1, x1 := ApplyAll(d, SectionWrites(d, UNLOADED, FailureSection(f))), SectionIndex(d, UNLOADED, FailureSection(f));
            var n := ApplyAll(d1, CheckpointWrites(d1, x1, c));
            && FailuresInStep(d, UNLOADED, {}) && c.Valid() && c.Attributed()
            && FailuresOf(n.checkpoints) == [c.failure.value] && CaseRows(Rows(n.failures)) == []
  {
    var f := Failure(None, "setup", "now", "");
    var id := FailureKey(f);
    var c := Checkpoint(id, Failed, None, Some(Failure(Some(id), "execution", "now", "")));
    var d := Disk(None, None, [], None, None);
    var d1, x1 := ApplyAll(d, SectionWrites(d, UNLOADED, FailureSection(f))), SectionIndex(d, UNLOADED, FailureSection(f));
    assert id != "" && FailureKey(c.failure.value) == id;
    assert id in x1.failures.value;
    hide FailureKey;
    ApplyOne(d, AddFailure(f));
    CaseRowsOfOne(f);
    CheckpointWritesEffect(d1, x1, c);
    hide CheckpointWrites, CaseRows;
    FailuresAppend([], c);
    assert [] + [c] == [c];
  }
}
