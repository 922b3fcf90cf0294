/**
 * The crash-safe benchmark artifact store. Checkpoint rows are authoritative;
 * prediction and failure files mirror them. Every file write is atomic (one row
 * append or one whole-file replacement) and the process may die between any two.
 */
module Artifacts {
  import opened Options
  import opened Sequences

  datatype RunStatus = Partial | Failed | Cancelled | Complete

  datatype Prediction = Prediction(caseId: string, payload: string)

  datatype Failure = Failure(caseId: Option<string>, stage: string, occurredAt: string, payload: string)

  /** One case outcome; `Valid` is the record's own validator. */
  datatype Checkpoint = Checkpoint(
    caseId: string,
    status: RunStatus,
    prediction: Option<Prediction>,
    failure: Option<Failure>
  ) {
    predicate Valid() {
      && caseId != ""
      && (prediction.Some? ==> prediction.value.caseId == caseId)
      && (failure.Some? ==> failure.value.caseId == None || failure.value.caseId == Some(caseId))
      && (status == Complete ==> prediction.Some?)
      && (status == Failed ==> failure.Some?)
    }

    /** Its failure, if any, names its case. */
    predicate Attributed() {
      failure.Some? ==> failure.value.caseId.Some?
    }
  }

  datatype Manifest = Manifest(campaignId: string, selectedIds: seq<string>, status: RunStatus) {
    predicate Valid() { Distinct(selectedIds) }
  }

  datatype Summary = Summary(
    campaignId: string,
    status: RunStatus,
    total: nat,
    completed: nat,
    failed: nat,
    cancelled: nat
  ) {
    predicate Valid() {
      && completed + failed + cancelled <= total
      && (status == Complete ==> completed + failed + cancelled == total)
    }
  }

  /** The campaign directory. A mirror that was never written does not exist. */
  datatype Disk = Disk(
    manifest: Option<Manifest>,
    summary: Option<Summary>,
    checkpoints: seq<Checkpoint>,
    predictions: Option<seq<Prediction>>,
    failures: Option<seq<Failure>>
  )

  datatype Write =
    | WriteManifest(manifest: Manifest)
    | WriteSummary(summary: Summary)
    | AddCheckpoint(checkpoint: Checkpoint)
    | AddPrediction(prediction: Prediction)
    | AddFailure(failure: Failure)
    | ReplacePredictions(predictions: seq<Prediction>)
    | ReplaceFailures(failures: seq<Failure>)

  function Rows<T>(file: Option<seq<T>>): seq<T> {
    match file
    case Some(rows) => rows
    case None => []
  }

  function Apply(d: Disk, w: Write): Disk {
    match w
    case WriteManifest(m) => d.(manifest := Some(m))
    case WriteSummary(s) => d.(summary := Some(s))
    case AddCheckpoint(c) => d.(checkpoints := d.checkpoints + [c])
    case AddPrediction(p) => d.(predictions := Some(Rows(d.predictions) + [p]))
    case AddFailure(f) => d.(failures := Some(Rows(d.failures) + [f]))
    case ReplacePredictions(ps) => d.(predictions := Some(ps))
    case ReplaceFailures(fs) => d.(failures := Some(fs))
  }

  function ApplyAll(d: Disk, ws: seq<Write>): Disk
    decreases |ws|
  {
    if ws == [] then d else ApplyAll(Apply(d, ws[0]), ws[1..])
  }

  // ---- keys -------------------------------------------------------------------

  /** The key under which `append_failure` files a record. */
  function FailureKey(f: Failure): string {
    if f.caseId.Some? && f.caseId.value != "" then f.caseId.value
    else "campaign:" + f.stage + ":" + f.occurredAt
  }

  /** The key a stored failure row is read back with: campaign keys are not persisted. */
  function FailureRowKey(f: Failure): string {
    match f.caseId
    case Some(id) => id
    case None => ""
  }

  function CaseIds(cs: seq<Checkpoint>): set<string> { set c | c in cs :: c.caseId }
  function PredictionIds(ps: seq<Prediction>): set<string> { set p | p in ps :: p.caseId }
  function FailureRowKeys(fs: seq<Failure>): set<string> { set f | f in fs :: FailureRowKey(f) }

  /** `_indexes`: a file's keys once they have been loaded. */
  datatype Index = Index(
    checkpoints: Option<set<string>>,
    predictions: Option<set<string>>,
    failures: Option<set<string>>
  )

  const UNLOADED := Index(None, None, None)

  function Loaded(keys: Option<set<string>>, onDisk: set<string>): set<string> {
    match keys
    case Some(k) => k
    case None => onDisk
  }

  // ---- projections ---------------------------------------------------------------

  function PredictionsOf(cs: seq<Checkpoint>): seq<Prediction> {
    if cs == [] then []
    else PredictionsOf(cs[..|cs| - 1])
         + match cs[|cs| - 1].prediction
           case Some(p) => [p]
           case None => []
  }

  function FailuresOf(cs: seq<Checkpoint>): seq<Failure> {
    if cs == [] then []
    else FailuresOf(cs[..|cs| - 1])
         + match cs[|cs| - 1].failure
           case Some(f) => [f]
           case None => []
  }

  predicate IsCampaignRow(f: Failure) { f.caseId.None? }

  function CampaignRows(fs: seq<Failure>): seq<Failure> { Filter(fs, IsCampaignRow) }

  /** `reconcile`'s early return: nothing was ever recorded. */
  predicate Untouched(d: Disk) {
    d.checkpoints == [] && d.predictions.None? && d.failures.None?
  }

  /** The writes of `reconcile`, in order. */
  function ReconcileWrites(d: Disk): seq<Write> {
    if Untouched(d) then []
    else [ReplacePredictions(PredictionsOf(d.checkpoints)),
          ReplaceFailures(CampaignRows(Rows(d.failures)) + FailuresOf(d.checkpoints))]
  }

  function Reconciled(d: Disk): Disk { ApplyAll(d, ReconcileWrites(d)) }

  /** The in-memory keys after `reconcile`. */
  function ReconciledIndex(d: Disk, x: Index): Index {
    if Untouched(d) then x
    else Index(Some(CaseIds(d.checkpoints)),
               Some(PredictionIds(PredictionsOf(d.checkpoints))),
               Some(FailureRowKeys(CampaignRows(Rows(d.failures)) + FailuresOf(d.checkpoints))))
  }

  /** The writes of `initialize` for a manifest it accepts. */
  function InitializeWrites(d: Disk, m: Manifest): seq<Write> {
    [WriteManifest(m)] + ReconcileWrites(d.(manifest := Some(m)))
  }

  function Initialized(d: Disk, m: Manifest): Disk { ApplyAll(d, InitializeWrites(d, m)) }

  // ---- appends ---------------------------------------------------------------------

  /** One `_append_unique` call. */
  datatype Section =
    | CheckpointSection(checkpoint: Checkpoint)
    | PredictionSection(prediction: Prediction)
    | FailureSection(failure: Failure)

  /** Its durable write, if the key is new. */
  function SectionWrites(d: Disk, x: Index, s: Section): seq<Write> {
    match s
    case CheckpointSection(c) =>
      if c.caseId in Loaded(x.checkpoints, CaseIds(d.checkpoints)) then [] else [AddCheckpoint(c)]
    case PredictionSection(p) =>
      if p.caseId in Loaded(x.predictions, PredictionIds(Rows(d.predictions))) then [] else [AddPrediction(p)]
    case FailureSection(f) =>
      if FailureKey(f) in Loaded(x.failures, FailureRowKeys(Rows(d.failures))) then [] else [AddFailure(f)]
  }

  function SectionIndex(d: Disk, x: Index, s: Section): Index {
    match s
    case CheckpointSection(c) =>
      x.(checkpoints := Some(Loaded(x.checkpoints, CaseIds(d.checkpoints)) + {c.caseId}))
    case PredictionSection(p) =>
      x.(predictions := Some(Loaded(x.predictions, PredictionIds(Rows(d.predictions))) + {p.caseId}))
    case FailureSection(f) =>
      x.(failures := Some(Loaded(x.failures, FailureRowKeys(Rows(d.failures))) + {FailureKey(f)}))
  }

  /** The sections `append_checkpoint` goes on with once its row is appended. */
  function Mirrors(c: Checkpoint): seq<Section> {
    (match c.prediction case Some(p) => [PredictionSection(p)] case None => [])
    + (match c.failure case Some(f) => [FailureSection(f)] case None => [])
  }

  function FollowUps(d: Disk, x: Index, s: Section): seq<Section> {
    if s.CheckpointSection? && SectionWrites(d, x, s) != [] then Mirrors(s.checkpoint) else []
  }

  // ---- finalization -------------------------------------------------------------------

  function CountStatus(cs: seq<Checkpoint>, status: RunStatus): nat {
    if cs == [] then 0
    else CountStatus(cs[..|cs| - 1], status) + if cs[|cs| - 1].status == status then 1 else 0
  }

  function TerminalIds(cs: seq<Checkpoint>): set<string> {
    set c | c in cs && c.status != Partial :: c.caseId
  }

  /** The tests of `finalize` before it writes anything. */
  predicate MayFinalize(d: Disk, s: Summary) {
    && d.manifest.Some?
    && s.campaignId == d.manifest.value.campaignId
    && (s.status == Complete ==> TerminalIds(d.checkpoints) == Elements(d.manifest.value.selectedIds))
    && CountStatus(d.checkpoints, Complete) == s.completed
    && CountStatus(d.checkpoints, Failed) == s.failed
    && CountStatus(d.checkpoints, Cancelled) == s.cancelled
  }

  /** Summary first, the authoritative manifest last. */
  function FinalizeWrites(d: Disk, s: Summary): seq<Write>
    requires d.manifest.Some?
  {
    [WriteSummary(s), WriteManifest(d.manifest.value.(status := s.status))]
  }

  // ---- recovery -------------------------------------------------------------------------

  lemma ApplyOne(d: Disk, a: Write)
    ensures ApplyAll(d, [a]) == Apply(d, a)
  {
    assert [a][1..] == [];
  }

  lemma ApplyTwo(d: Disk, a: Write, b: Write)
    ensures ApplyAll(d, [a, b]) == Apply(Apply(d, a), b)
  {
    assert [a, b][1..] == [b];
    ApplyOne(Apply(d, a), b);
  }

  lemma {:induction false} FailuresOfAttributed(cs: seq<Checkpoint>)
    ensures CampaignRows(FailuresOf(cs)) == [] <==> forall c :: c in cs ==> c.Attributed()
  {
    if cs != [] {
      var front, last := cs[..|cs| - 1], cs[|cs| - 1];
      FailuresOfAttributed(front);
      assert cs == front + [last];
      assert forall c :: c in cs <==> c in front || c == last;
      var mine := match last.failure case Some(f) => [f] case None => [];
      FilterConcat(FailuresOf(front), mine, IsCampaignRow);
      assert Filter(mine, IsCampaignRow) == if last.Attributed() then [] else mine;
    }
  }

  lemma {:induction false} FilterTwice<T>(s: seq<T>, keep: T -> bool)
    ensures Filter(Filter(s, keep), keep) == Filter(s, keep)
  {
    if s != [] {
      FilterTwice(s[1..], keep);
      var head := if keep(s[0]) then [s[0]] else [];
      FilterConcat(head, Filter(s[1..], keep), keep);
      assert Filter(head, keep) == head;
    }
  }

  /** What `reconcile` leaves behind: mirrors are the projection, campaign rows first, keys match the files. */
  lemma ReconcileMeaning(d: Disk, x: Index)
    ensures var n := Reconciled(d);
            && n.checkpoints == d.checkpoints && n.manifest == d.manifest && n.summary == d.summary
            && Rows(n.predictions) == PredictionsOf(d.checkpoints)
            && Rows(n.failures) == CampaignRows(Rows(d.failures)) + FailuresOf(d.checkpoints)
            && (!Untouched(d) ==>
                  ReconciledIndex(d, x) == Index(Some(CaseIds(n.checkpoints)), Some(PredictionIds(Rows(n.predictions))),
                                                 Some(FailureRowKeys(Rows(n.failures)))))
  {
    if !Untouched(d) {
      ApplyTwo(d, ReconcileWrites(d)[0], ReconcileWrites(d)[1]);
    }
  }

  /** A second `reconcile` changes nothing exactly when every checkpoint failure names its case. */
  lemma ReconcileIsIdempotentIff(d: Disk)
    ensures Reconciled(Reconciled(d)) == Reconciled(d) <==> forall c :: c in d.checkpoints ==> c.Attributed()
  {
    var n := Reconciled(d);
    var campaign, mine := CampaignRows(Rows(d.failures)), FailuresOf(d.checkpoints);
    ReconcileMeaning(d, UNLOADED);
    ReconcileMeaning(n, UNLOADED);
    FailuresOfAttributed(d.checkpoints);
    FilterConcat(campaign, mine, IsCampaignRow);
    FilterTwice(Rows(d.failures), IsCampaignRow);
    assert CampaignRows(campaign + mine) == campaign + CampaignRows(mine);
    hide CampaignRows, FailuresOf, PredictionsOf;
    assert Rows(Reconciled(n).failures) == campaign + CampaignRows(mine) + mine;
    if CampaignRows(mine) == [] {
      assert campaign + [] + mine == campaign + mine;
    } else {
      assert |Rows(Reconciled(n).failures)| > |Rows(n.failures)|;
    }
    if !Untouched(d) {
      ApplyTwo(d, ReconcileWrites(d)[0], ReconcileWrites(d)[1]);
      ApplyTwo(n, ReconcileWrites(n)[0], ReconcileWrites(n)[1]);
    }
  }

  /** A valid checkpoint whose failure does not name its case is mirrored once more by every `reconcile`. */
  lemma ReconcileCanRepeatRows()
    ensures var c := Checkpoint("a", Failed, None, Some(Failure(None, "execution", "now", "")));
            var d := Disk(None, None, [c], None, None);
            c.Valid() && Reconciled(Reconciled(d)) != Reconciled(d)
  {
    var c := Checkpoint("a", Failed, None, Some(Failure(None, "execution", "now", "")));
    var d := Disk(None, None, [c], None, None);
    assert c in d.checkpoints && !c.Attributed();
    ReconcileIsIdempotentIff(d);
  }

  /**
   * Recovery does not care where an earlier recovery died: after any proper
   * prefix of the writes of `initialize`, initializing again ends in the same
   * directory as if the first attempt had never run.
   */
  lemma InterruptedRecoveryRecovers(d: Disk, first: Manifest, again: Manifest, cut: nat)
    requires cut < |InitializeWrites(d, first)|
    ensures Initialized(ApplyAll(d, InitializeWrites(d, first)[..cut]), again) == Initialized(d, again)
  {
    var ws := InitializeWrites(d, first);
    var d1 := d.(manifest := Some(again));
    InitializedIs(d, again);
    if cut == 0 {
      assert ws[..0] == [];
    } else if cut == 1 {
      assert ws[..1] == [WriteManifest(first)];
      ApplyOne(d, WriteManifest(first));
      var e := ApplyAll(d, ws[..1]);
      assert e == d.(manifest := Some(first));
      InitializedIs(e, again);
      assert e.(manifest := Some(again)) == d1;
    } else {
      assert ws[..2] == [ws[0], ws[1]];
      ApplyTwo(d, ws[0], ws[1]);
      var e := ApplyAll(d, ws[..2]);
      InitializedIs(e, again);
      var e1 := e.(manifest := Some(again));
      ApplyTwo(e1, ReconcileWrites(e1)[0], ReconcileWrites(e1)[1]);
      ApplyTwo(d1, ReconcileWrites(d1)[0], ReconcileWrites(d1)[1]);
    }
  }

  lemma InitializedIs(d: Disk, m: Manifest)
    ensures Initialized(d, m) == Reconciled(d.(manifest := Some(m)))
  {
    var ws := InitializeWrites(d, m);
    assert ws[1..] == ReconcileWrites(d.(manifest := Some(m)));
  }

  // ---- exact completion ---------------------------------------------------------------------

  predicate DistinctCases(cs: seq<Checkpoint>) {
    forall i, j :: 0 <= i < j < |cs| ==> cs[i].caseId != cs[j].caseId
  }

  lemma TerminalIdsAppend(cs: seq<Checkpoint>, c: Checkpoint)
    ensures TerminalIds(cs + [c]) == TerminalIds(cs) + if c.status == Partial then {} else {c.caseId}
  {
    assert forall x :: x in cs + [c] <==> x in cs || x == c;
  }

  lemma DistinctCasesFront(cs: seq<Checkpoint>)
    requires DistinctCases(cs) && cs != []
    ensures DistinctCases(cs[..|cs| - 1])
    ensures cs[|cs| - 1].caseId !in TerminalIds(cs[..|cs| - 1])
  {
    var front := cs[..|cs| - 1];
    forall c | c in front
      ensures c.caseId != cs[|cs| - 1].caseId
    {
      var i :| 0 <= i < |front| && front[i] == c;
      assert cs[i] == c;
    }
  }

  function CountTerminal(cs: seq<Checkpoint>): nat {
    CountStatus(cs, Complete) + CountStatus(cs, Failed) + CountStatus(cs, Cancelled)
  }

  lemma CountTerminalLast(cs: seq<Checkpoint>)
    requires cs != []
    ensures CountTerminal(cs) == CountTerminal(cs[..|cs| - 1]) + if cs[|cs| - 1].status == Partial then 0 else 1
  {
  }

  /** With one row per case, the terminal IDs are as many as the three terminal counts together. */
  lemma {:induction false} TerminalCount(cs: seq<Checkpoint>)
    requires DistinctCases(cs)
    ensures |TerminalIds(cs)| == CountStatus(cs, Complete) + CountStatus(cs, Failed) + CountStatus(cs, Cancelled)
  {
    if cs == [] {
      assert TerminalIds(cs) == {};
    } else {
      var front, last := cs[..|cs| - 1], cs[|cs| - 1];
      assert cs == front + [last];
      DistinctCasesFront(cs);
      CountTerminalLast(cs);
      TerminalIdsAppend(front, last);
      TerminalCount(front);
      hide TerminalIds, DistinctCases, CountStatus;
      assert |TerminalIds(front)| == CountTerminal(front);
    }
  }

  /** The rows of one status. */
  ghost function RowsWith(cs: seq<Checkpoint>, status: RunStatus): set<Checkpoint> {
    set c | c in cs && c.status == status
  }

  /** With one row per case, counting rows is counting cases. */
  lemma {:induction false} CountIsCardinality(cs: seq<Checkpoint>, status: RunStatus)
    requires DistinctCases(cs)
    ensures CountStatus(cs, status) == |RowsWith(cs, status)|
  {
    if cs == [] {
      assert RowsWith(cs, status) == {};
    } else {
      var front, last := cs[..|cs| - 1], cs[|cs| - 1];
      assert cs == front + [last];
      CountIsCardinality(front, status);
      RowsWithAppend(front, last, status);
      assert last !in front by {
        assert forall i :: 0 <= i < |front| ==> cs[i] == front[i];
      }
      hide DistinctCases;
    }
  }

  lemma RowsWithAppend(cs: seq<Checkpoint>, c: Checkpoint, status: RunStatus)
    ensures RowsWith(cs + [c], status) == RowsWith(cs, status) + if c.status == status then {c} else {}
  {
    assert forall x :: x in cs + [c] <==> x in cs || x == c;
  }

  /** The summary's three numbers are the numbers of completed, failed and cancelled cases. */
  ghost predicate CountsAgree(d: Disk, s: Summary) {
    && |RowsWith(d.checkpoints, Complete)| == s.completed
    && |RowsWith(d.checkpoints, Failed)| == s.failed
    && |RowsWith(d.checkpoints, Cancelled)| == s.cancelled
  }

  /** The selected cases, and no others, have ended. */
  ghost predicate SelectedEnded(d: Disk, m: Manifest) {
    forall id :: id in m.selectedIds <==> exists c :: c in d.checkpoints && c.caseId == id && c.status != Partial
  }

  lemma SelectedEndedIff(d: Disk, m: Manifest)
    ensures TerminalIds(d.checkpoints) == Elements(m.selectedIds) <==> SelectedEnded(d, m)
  {
    assert forall id :: id in Elements(m.selectedIds) <==> id in m.selectedIds;
    assert forall id :: id in TerminalIds(d.checkpoints) <==>
      exists c :: c in d.checkpoints && c.caseId == id && c.status != Partial;
  }

  /** `finalize` accepts a summary exactly when it is of this campaign, its numbers are the cases' and, for COMPLETE, every selected case ended. */
  lemma MayFinalizeIff(d: Disk, s: Summary)
    requires DistinctCases(d.checkpoints)
    ensures MayFinalize(d, s) <==>
              && d.manifest.Some? && s.campaignId == d.manifest.value.campaignId
              && (s.status == Complete ==> SelectedEnded(d, d.manifest.value))
              && CountsAgree(d, s)
  {
    CountIsCardinality(d.checkpoints, Complete);
    CountIsCardinality(d.checkpoints, Failed);
    CountIsCardinality(d.checkpoints, Cancelled);
    if d.manifest.Some? {
      SelectedEndedIff(d, d.manifest.value);
    }
    hide RowsWith, SelectedEnded, DistinctCases, TerminalIds;
  }

  /** `total_cases` equals the number of selected IDs although no line compares the two. */
  lemma CompleteMeansEverySelectedCase(d: Disk, s: Summary)
    requires d.manifest.Some? && d.manifest.value.Valid() && s.Valid() && DistinctCases(d.checkpoints)
    requires MayFinalize(d, s) && s.status == Complete
    ensures s.total == |d.manifest.value.selectedIds|
    ensures SelectedEnded(d, d.manifest.value) && CountsAgree(d, s)
  {
    TerminalCount(d.checkpoints);
    DistinctCardinality(d.manifest.value.selectedIds);
    MayFinalizeIff(d, s);
    hide SelectedEnded, CountsAgree, DistinctCases, CountStatus;
  }

  /** A campaign whose selected cases have all ended can be closed COMPLETE, by exactly the summary of its own numbers. */
  lemma EndedCampaignCanComplete(d: Disk)
    requires d.manifest.Some? && d.manifest.value.Valid() && DistinctCases(d.checkpoints)
    requires SelectedEnded(d, d.manifest.value)
    ensures var m := d.manifest.value;
            var s := Summary(m.campaignId, Complete, |m.selectedIds|, |RowsWith(d.checkpoints, Complete)|,
                             |RowsWith(d.checkpoints, Failed)|, |RowsWith(d.checkpoints, Cancelled)|);
            s.Valid() && MayFinalize(d, s)
  {
    var m := d.manifest.value;
    var s := Summary(m.campaignId, Complete, |m.selectedIds|, |RowsWith(d.checkpoints, Complete)|,
                     |RowsWith(d.checkpoints, Failed)|, |RowsWith(d.checkpoints, Cancelled)|);
    MayFinalizeIff(d, s);
    SelectedEndedIff(d, m);
    TerminalCount(d.checkpoints);
    DistinctCardinality(m.selectedIds);
    hide SelectedEnded, DistinctCases, RowsWith, TerminalIds;
  }

  // ---- outcomes --------------------------------------------------------------------------------

  /** Every completed case has its prediction among the rows, and every failed one a failure of its own. */
  ghost predicate OutcomesIn(cs: seq<Checkpoint>, predictions: seq<Prediction>, failures: seq<Failure>) {
    && (forall c :: c in cs && c.status == Complete ==> exists p :: p in predictions && p.caseId == c.caseId && c.prediction == Some(p))
    && (forall c :: c in cs && c.status == Failed ==>
          exists f :: f in failures && c.failure == Some(f) && (f.caseId == None || f.caseId == Some(c.caseId)))
  }

  lemma {:induction false} ProjectionsHoldRows(cs: seq<Checkpoint>, c: Checkpoint)
    requires c in cs
    ensures c.prediction.Some? ==> c.prediction.value in PredictionsOf(cs)
    ensures c.failure.Some? ==> c.failure.value in FailuresOf(cs)
  {
    var front, last := cs[..|cs| - 1], cs[|cs| - 1];
    assert cs == front + [last];
    if c != last {
      ProjectionsHoldRows(front, c);
    }
  }

  /** The projections of valid checkpoints hold every outcome. */
  lemma ProjectionsHoldOutcomes(cs: seq<Checkpoint>)
    requires forall c :: c in cs ==> c.Valid()
    ensures OutcomesIn(cs, PredictionsOf(cs), FailuresOf(cs))
  {
    forall c | c in cs
      ensures c.status == Complete ==>
                exists p :: p in PredictionsOf(cs) && p.caseId == c.caseId && c.prediction == Some(p)
      ensures c.status == Failed ==>
                exists f :: f in FailuresOf(cs) && c.failure == Some(f) && (f.caseId == None || f.caseId == Some(c.caseId))
    {
      ProjectionsHoldRows(cs, c);
    }
  }
}
