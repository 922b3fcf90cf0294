/**
 * Campaigns over the artifact store: processes start, recover, append cases from
 * any number of threads, finalize, and die between any two durable writes.
 */
module ArtifactRuns {
  import opened Options
  import opened Sequences
  import opened Artifacts

  type Tid = nat

  datatype Mode =
    | Down                                                    // no process
    | Recovering(index: Index, todo: seq<Write>)              // inside `initialize`
    | Live(index: Index, threads: map<Tid, seq<Section>>)     // appending
    | Closing(index: Index, todo: seq<Write>)                 // inside `finalize`

  /** `campaignLog`: the campaign-level failure rows made durable so far, oldest first. */
  datatype Campaign = Campaign(disk: Disk, mode: Mode, campaignLog: seq<Failure>)

  datatype Action =
    | Crash
    | Initialize(manifest: Manifest)           // a new process, a new store object
    | Flush                                    // the next durable write of initialize or finalize
    | Ready                                    // initialize or finalize returns
    | AppendCheckpoint(thread: Tid, checkpoint: Checkpoint)
    | AppendCampaignFailure(thread: Tid, failure: Failure)
    | LockSection(thread: Tid)                 // the thread's next `_append_unique`
    | MarkStatus(status: RunStatus)
    | Finalize(summary: Summary)

  function Todo(m: Mode, t: Tid): seq<Section>
    requires m.Live?
  {
    if t in m.threads then m.threads[t] else []
  }

  predicate Enabled(s: Campaign, a: Action) {
    match a
    case Crash => true
    case Initialize(m) => s.mode.Down? && m.Valid() && m.status != Complete
    case Flush => (s.mode.Recovering? || s.mode.Closing?) && s.mode.todo != []
    case Ready => (s.mode.Recovering? || s.mode.Closing?) && s.mode.todo == []
    case AppendCheckpoint(t, c) => s.mode.Live? && c.Valid() && Todo(s.mode, t) == []
    case AppendCampaignFailure(t, f) => s.mode.Live? && f.caseId.None? && Todo(s.mode, t) == []
    case LockSection(t) => s.mode.Live? && Todo(s.mode, t) != []
    case MarkStatus(status) => s.mode.Live? && status != Complete && s.disk.manifest.Some?
    case Finalize(summary) =>
      s.mode.Live? && s.mode.threads == map[] && summary.Valid() && MayFinalize(s.disk, summary)
  }

  function Next(s: Campaign, a: Action): Campaign
    requires Enabled(s, a)
  {
    match a
    case Crash => s.(mode := Down)
    case Initialize(m) =>
      s.(mode := Recovering(ReconciledIndex(s.disk, UNLOADED), InitializeWrites(s.disk, m)))
    case Flush => s.(disk := Apply(s.disk, s.mode.todo[0]), mode := s.mode.(todo := s.mode.todo[1..]))
    case Ready => s.(mode := Live(s.mode.index, map[]))
    case AppendCheckpoint(t, c) => s.(mode := s.mode.(threads := s.mode.threads[t := [CheckpointSection(c)]]))
    case AppendCampaignFailure(t, f) => s.(mode := s.mode.(threads := s.mode.threads[t := [FailureSection(f)]]))
    case LockSection(t) =>
      var section, rest := Todo(s.mode, t)[0], Todo(s.mode, t)[1..];
      var writes := SectionWrites(s.disk, s.mode.index, section);
      var todo := FollowUps(s.disk, s.mode.index, section) + rest;
      Campaign(ApplyAll(s.disk, writes),
               Live(SectionIndex(s.disk, s.mode.index, section),
                    if todo == [] then s.mode.threads - {t} else s.mode.threads[t := todo]),
               if writes != [] && section.FailureSection? && IsCampaignRow(section.failure)
               then s.campaignLog + [section.failure] else s.campaignLog)
    case MarkStatus(status) =>
      s.(disk := Apply(s.disk, WriteManifest(s.disk.manifest.value.(status := status))))
    case Finalize(summary) => s.(mode := Closing(s.mode.index, FinalizeWrites(s.disk, summary)))
  }

  const NEW_CAMPAIGN := Campaign(Disk(None, None, [], None, None), Down, [])

  ghost predicate Runs(s: Campaign, schedule: seq<Action>)
    decreases |schedule|
  {
    schedule == [] || (Enabled(s, schedule[0]) && Runs(Next(s, schedule[0]), schedule[1..]))
  }

  ghost function After(s: Campaign, schedule: seq<Action>): Campaign
    requires Runs(s, schedule)
    decreases |schedule|
  {
    if schedule == [] then s else After(Next(s, schedule[0]), schedule[1..])
  }

  // ---- invariant -------------------------------------------------------------------

  /** The key index a live process appends checkpoints with is never wrong. */
  ghost predicate IndexFits(s: Campaign) {
    match s.mode
    case Down => true
    case Recovering(x, _) => x.checkpoints.Some? ==> x.checkpoints.value == CaseIds(s.disk.checkpoints)
    case Live(x, _) => x.checkpoints.Some? ==> x.checkpoints.value == CaseIds(s.disk.checkpoints)
    case Closing(x, _) => x.checkpoints.Some? ==> x.checkpoints.value == CaseIds(s.disk.checkpoints)
  }

  predicate WritesNoCheckpoint(ws: seq<Write>) { forall w :: w in ws ==> !w.AddCheckpoint? }

  /** At most one checkpoint row per case, whatever crashed or resumed. */
  ghost predicate OnePerCase(s: Campaign) {
    && DistinctCases(s.disk.checkpoints)
    && IndexFits(s)
    && (s.mode.Recovering? || s.mode.Closing? ==> WritesNoCheckpoint(s.mode.todo))
  }

  ghost predicate AllAttributed(cs: seq<Checkpoint>) { forall c :: c in cs ==> c.Attributed() }

  /** The mirrors are the projection of the checkpoints, campaign-level rows first. */
  ghost predicate Mirrored(d: Disk, campaignLog: seq<Failure>) {
    && Rows(d.predictions) == PredictionsOf(d.checkpoints)
    && (AllAttributed(d.checkpoints) ==> Rows(d.failures) == campaignLog + FailuresOf(d.checkpoints))
  }

  /** The loaded keys are the keys of the files. */
  ghost predicate KeysOf(d: Disk, x: Index) {
    && (x.checkpoints.Some? ==> x.checkpoints.value == CaseIds(d.checkpoints))
    && (x.predictions.Some? ==> x.predictions.value == PredictionIds(Rows(d.predictions)))
    && (x.failures.Some? ==> x.failures.value == FailureRowKeys(Rows(d.failures)))
  }

  /** Recovery is on its way to mirrored files and matching keys. */
  ghost predicate Recovers(s: Campaign) {
    s.mode.Recovering? ==>
      var e := ApplyAll(s.disk, s.mode.todo);
      Mirrored(e, s.campaignLog) && KeysOf(e, s.mode.index)
  }

  /** No crash loses, repeats or reorders a campaign-level failure row. */
  ghost predicate Conserves(s: Campaign) {
    AllAttributed(s.disk.checkpoints) ==>
      && CampaignRows(Rows(s.disk.failures)) == s.campaignLog
      && (s.mode.Recovering? || s.mode.Closing? ==>
            forall w :: w in s.mode.todo ==>
              !w.AddFailure? && (w.ReplaceFailures? ==> CampaignRows(w.failures) == s.campaignLog))
  }

  /** A COMPLETE directory: the summary is there and accounts for exactly the selected cases, status by status. */
  ghost predicate Exact(d: Disk) {
    && d.manifest.Some? && d.summary.Some?
    && d.summary.value.status == Complete
    && SelectedEnded(d, d.manifest.value)
    && CountsAgree(d, d.summary.value)
    && d.summary.value.total == |d.manifest.value.selectedIds|
  }

  ghost predicate SameCampaign(d: Disk) {
    d.manifest.Some? && d.summary.Some? && d.summary.value.campaignId == d.manifest.value.campaignId
  }

  predicate IsComplete(d: Disk) { d.manifest.Some? && d.manifest.value.status == Complete }

  /** COMPLETE manifests come only from `finalize`, and never before their summary. */
  ghost predicate Certified(s: Campaign) {
    && (s.disk.manifest.Some? ==> s.disk.manifest.value.Valid())
    && (IsComplete(s.disk) ==> SameCampaign(s.disk))
    && match s.mode
       case Down => true
       case Live(_, _) => s.disk.manifest.Some?
       case Recovering(_, todo) =>
         && (s.disk.manifest.Some? || (todo != [] && todo[0].WriteManifest?))
         && (forall w :: w in todo ==>
               !w.WriteSummary? && (w.WriteManifest? ==> w.manifest.Valid() && w.manifest.status != Complete))
       case Closing(_, todo) =>
         && s.disk.manifest.Some?
         && match |todo|
            case 0 => SameCampaign(s.disk) && (IsComplete(s.disk) ==> Exact(s.disk))
            case 1 => SameCampaign(s.disk) && todo[0] == WriteManifest(s.disk.manifest.value.(status := s.disk.summary.value.status))
                      && (s.disk.summary.value.status == Complete ==> Exact(s.disk))
            case _ => |todo| == 2 && todo[0].WriteSummary? && todo[0].summary.Valid()
                      && todo == FinalizeWrites(s.disk, todo[0].summary) && MayFinalize(s.disk, todo[0].summary)
  }

  ghost predicate Inv(s: Campaign) {
    OnePerCase(s) && Recovers(s) && Conserves(s) && Certified(s)
  }

  lemma AppendDistinct(cs: seq<Checkpoint>, c: Checkpoint)
    requires DistinctCases(cs) && c.caseId !in CaseIds(cs)
    ensures DistinctCases(cs + [c]) && CaseIds(cs + [c]) == CaseIds(cs) + {c.caseId}
  {
    assert forall x :: x in cs + [c] <==> x in cs || x == c;
    forall i, j | 0 <= i < j < |cs + [c]|
      ensures (cs + [c])[i].caseId != (cs + [c])[j].caseId
    {
      assert cs[i] in cs;
    }
  }

  lemma InitializeWritesAre(d: Disk, m: Manifest)
    ensures forall w :: w in InitializeWrites(d, m) ==>
              w == WriteManifest(m) || w == ReplacePredictions(PredictionsOf(d.checkpoints))
              || w == ReplaceFailures(CampaignRows(Rows(d.failures)) + FailuresOf(d.checkpoints))
    ensures InitializeWrites(d, m)[0] == WriteManifest(m)
  {
  }

  lemma SectionEffect(s: Campaign, t: Tid)
    requires Enabled(s, LockSection(t)) && OnePerCase(s)
    ensures var n, section := Next(s, LockSection(t)), Todo(s.mode, t)[0];
            && n.mode.Live? && n.disk.manifest == s.disk.manifest && n.disk.summary == s.disk.summary
            && IndexFits(n) && DistinctCases(n.disk.checkpoints)
            && s.disk.checkpoints <= n.disk.checkpoints
            && ((n.disk.failures == s.disk.failures && n.campaignLog == s.campaignLog)
                || (section.FailureSection? && n.disk.failures == Some(Rows(s.disk.failures) + [section.failure])
                    && n.campaignLog == if IsCampaignRow(section.failure) then s.campaignLog + [section.failure]
                                        else s.campaignLog))
  {
    var section := Todo(s.mode, t)[0];
    var writes := SectionWrites(s.disk, s.mode.index, section);
    if writes != [] {
      ApplyOne(s.disk, writes[0]);
      assert writes == [writes[0]];
      if section.CheckpointSection? {
        AppendDistinct(s.disk.checkpoints, section.checkpoint);
      }
    } else if section.CheckpointSection? {
      assert CaseIds(s.disk.checkpoints) + {section.checkpoint.caseId} == CaseIds(s.disk.checkpoints);
    }
  }

  /** Checkpoints are never rewritten or dropped: the file only grows at its end. */
  lemma NextGrowsCheckpoints(s: Campaign, a: Action)
    requires Enabled(s, a) && OnePerCase(s)
    ensures s.disk.checkpoints <= Next(s, a).disk.checkpoints
    ensures a.LockSection? || Next(s, a).disk.checkpoints == s.disk.checkpoints
  {
    if a.LockSection? {
      SectionEffect(s, a.thread);
    }
  }

  lemma NextKeepsOnePerCase(s: Campaign, a: Action)
    requires OnePerCase(s) && Enabled(s, a)
    ensures OnePerCase(Next(s, a))
  {
    match a
    case LockSection(t) => SectionEffect(s, t);
    case Initialize(m) => InitializeWritesAre(s.disk, m);
    case _ =>
  }

  lemma NextKeepsRecovers(s: Campaign, a: Action)
    requires Recovers(s) && Conserves(s) && Enabled(s, a)
    ensures Recovers(Next(s, a))
  {
    if a.Initialize? {
      var d := s.disk.(manifest := Some(a.manifest));
      InitializedIs(s.disk, a.manifest);
      ReconcileMeaning(d, UNLOADED);
      hide CampaignRows, FailureRowKeys, FailuresOf, PredictionsOf;
      if Untouched(d) {
        assert s.disk.checkpoints == [];
        assert PredictionsOf([]) == [];
      }
    }
  }

  lemma NextKeepsConserves(s: Campaign, a: Action)
    requires OnePerCase(s) && Conserves(s) && Enabled(s, a)
    ensures Conserves(Next(s, a))
  {
    var n := Next(s, a);
    NextGrowsCheckpoints(s, a);
    if AllAttributed(n.disk.checkpoints) {
      assert AllAttributed(s.disk.checkpoints) by {
        assert forall c :: c in s.disk.checkpoints ==> c in n.disk.checkpoints;
      }
      match a {
        case LockSection(t) =>
          SectionEffect(s, t);
          var section := Todo(s.mode, t)[0];
          if section.FailureSection? {
            FilterConcat(Rows(s.disk.failures), [section.failure], IsCampaignRow);
            assert Filter([section.failure], IsCampaignRow)
                == if IsCampaignRow(section.failure) then [section.failure] else [];
          }
        case Initialize(m) =>
          InitializeWritesAre(s.disk, m);
          var campaign := CampaignRows(Rows(s.disk.failures));
          FilterConcat(campaign, FailuresOf(s.disk.checkpoints), IsCampaignRow);
          FilterTwice(Rows(s.disk.failures), IsCampaignRow);
          FailuresOfAttributed(s.disk.checkpoints);
          assert campaign + [] == campaign;
        case _ =>
      }
    }
  }

  lemma NextKeepsCertified(s: Campaign, a: Action)
    requires OnePerCase(s) && Certified(s) && Enabled(s, a)
    ensures Certified(Next(s, a))
  {
    match a
    case LockSection(t) => SectionEffect(s, t);
    case Initialize(m) => InitializeWritesAre(s.disk, m);
    case Flush =>
      if s.mode.Closing? && |s.mode.todo| == 2 && s.mode.todo[0].summary.status == Complete {
        CompleteMeansEverySelectedCase(s.disk, s.mode.todo[0].summary);
      }
    case _ =>
  }

  lemma NextKeepsInv(s: Campaign, a: Action)
    requires Inv(s) && Enabled(s, a)
    ensures Inv(Next(s, a))
  {
    hide Next, OnePerCase, Recovers, Conserves, Certified, Enabled;
    NextKeepsOnePerCase(s, a);
    NextKeepsRecovers(s, a);
    NextKeepsConserves(s, a);
    NextKeepsCertified(s, a);
  }

  lemma {:induction false} RunKeepsInv(s: Campaign, schedule: seq<Action>)
    requires Inv(s) && Runs(s, schedule)
    ensures Inv(After(s, schedule))
    ensures s.disk.checkpoints <= After(s, schedule).disk.checkpoints
    decreases |schedule|
  {
    if schedule != [] {
      NextKeepsInv(s, schedule[0]);
      NextGrowsCheckpoints(s, schedule[0]);
      hide Inv, Next, Enabled;
      RunKeepsInv(Next(s, schedule[0]), schedule[1..]);
    }
  }

  lemma NewCampaignIsInv()
    ensures Inv(NEW_CAMPAIGN)
  {
  }

  // ---- main results -------------------------------------------------------------------

  /**
   * Over every schedule of starts, crashes, threads and finalizations: no case
   * is checkpointed twice; whenever `initialize` has finished its writes the
   * mirrors are the projection and the loaded keys fit the files; the
   * campaign-level rows on disk are exactly the ones appended, in order; a
   * COMPLETE manifest always has its campaign's summary beside it.
   */
  lemma EveryScheduleIsSafe(schedule: seq<Action>)
    requires Runs(NEW_CAMPAIGN, schedule)
    ensures var s := After(NEW_CAMPAIGN, schedule);
            && DistinctCases(s.disk.checkpoints)
            && (s.mode.Recovering? && s.mode.todo == [] ==>
                  Mirrored(s.disk, s.campaignLog) && KeysOf(s.disk, s.mode.index))
            && (AllAttributed(s.disk.checkpoints) ==> CampaignRows(Rows(s.disk.failures)) == s.campaignLog)
            && (IsComplete(s.disk) ==> SameCampaign(s.disk))
            && (IsComplete(s.disk) && s.mode.Closing? && s.mode.todo == [] ==> Exact(s.disk))
  {
    NewCampaignIsInv();
    RunKeepsInv(NEW_CAMPAIGN, schedule);
  }

  /** A manifest turns COMPLETE only by the last write of `finalize`, when every selected case is accounted for. */
  lemma CompleteOnlyByFinalize(schedule: seq<Action>, a: Action)
    requires Runs(NEW_CAMPAIGN, schedule) && Enabled(After(NEW_CAMPAIGN, schedule), a)
    ensures var s := After(NEW_CAMPAIGN, schedule);
            !IsComplete(s.disk) && IsComplete(Next(s, a).disk) ==>
              a == Flush && s.mode.Closing? && Exact(Next(s, a).disk)
  {
    NewCampaignIsInv();
    RunKeepsInv(NEW_CAMPAIGN, schedule);
    var s := After(NEW_CAMPAIGN, schedule);
    hide Runs, After, Recovers, Conserves;
    if a.LockSection? {
      SectionEffect(s, a.thread);
    }
  }

  /** A durable checkpoint survives every later crash, recovery and append. */
  lemma CheckpointsSurvive(schedule: seq<Action>, more: seq<Action>)
    requires Runs(NEW_CAMPAIGN, schedule) && Runs(After(NEW_CAMPAIGN, schedule), more)
    ensures After(NEW_CAMPAIGN, schedule).disk.checkpoints
         <= After(After(NEW_CAMPAIGN, schedule), more).disk.checkpoints
  {
    NewCampaignIsInv();
    RunKeepsInv(NEW_CAMPAIGN, schedule);
    RunKeepsInv(After(NEW_CAMPAIGN, schedule), more);
  }

  // ---- outcomes ------------------------------------------------------------------------------

  /** Only valid checkpoints are on disk or about to be. */
  ghost predicate OnlyValid(s: Campaign) {
    && (forall c :: c in s.disk.checkpoints ==> c.Valid())
    && (s.mode.Live? ==> forall t :: t in s.mode.threads ==>
          forall x :: x in s.mode.threads[t] && x.CheckpointSection? ==> x.checkpoint.Valid())
    && (s.mode.Recovering? || s.mode.Closing? ==> WritesNoCheckpoint(s.mode.todo))
  }

  lemma SectionKeepsValid(s: Campaign, t: Tid)
    requires OnlyValid(s) && Enabled(s, LockSection(t))
    ensures OnlyValid(Next(s, LockSection(t)))
  {
    var section, rest := Todo(s.mode, t)[0], Todo(s.mode, t)[1..];
    assert section in s.mode.threads[t];
    var writes := SectionWrites(s.disk, s.mode.index, section);
    if writes != [] {
      ApplyOne(s.disk, writes[0]);
      assert writes == [writes[0]];
    }
    assert forall x :: x in rest ==> x in s.mode.threads[t];
  }

  lemma NextKeepsValid(s: Campaign, a: Action)
    requires OnlyValid(s) && Enabled(s, a)
    ensures OnlyValid(Next(s, a))
  {
    match a
    case LockSection(t) => SectionKeepsValid(s, t);
    case Initialize(m) => InitializeWritesAre(s.disk, m);
    case _ =>
  }

  lemma {:induction false} RunKeepsValid(s: Campaign, schedule: seq<Action>)
    requires OnlyValid(s) && Runs(s, schedule)
    ensures OnlyValid(After(s, schedule))
    decreases |schedule|
  {
    if schedule != [] {
      NextKeepsValid(s, schedule[0]);
      hide OnlyValid, Next, Enabled;
      RunKeepsValid(Next(s, schedule[0]), schedule[1..]);
    }
  }

  /** Over every schedule: whenever a recovery has finished its writes, every completed case has its prediction on disk and every attributed failed case its failure. */
  lemma RecoveryKeepsOutcomes(schedule: seq<Action>)
    requires Runs(NEW_CAMPAIGN, schedule)
    ensures var s := After(NEW_CAMPAIGN, schedule);
            s.mode.Recovering? && s.mode.todo == [] && AllAttributed(s.disk.checkpoints) ==>
              OutcomesIn(s.disk.checkpoints, Rows(s.disk.predictions), Rows(s.disk.failures))
  {
    EveryScheduleIsSafe(schedule);
    RunKeepsValid(NEW_CAMPAIGN, schedule);
    var s := After(NEW_CAMPAIGN, schedule);
    hide After, Runs, PredictionsOf, FailuresOf;
    ProjectionsHoldOutcomes(s.disk.checkpoints);
  }

  // ---- one thread alone ---------------------------------------------------------------------------

  /** A thread works its sections off one by one, undisturbed. */
  function Locked(t: Tid, n: nat): seq<Action> {
    if n == 0 then [] else [LockSection(t)] + Locked(t, n - 1)
  }
}
