/**
 Whole histories of the protocol: an acquisition stopped at any checkpoint, any number of
 interrupted recoveries, one uninterrupted recovery; and recovery of a repository of many Runs.
 The methods below only call the operations of the store; their contracts are the theorems.
 */
module AcquisitionHistories {
  import opened Options
  import opened StateMachine
  import opened Evidence
  import opened Lifecycle
  import opened RunIndex
  import opened AcquisitionLedger
  import opened OperationalReplay
  import opened RepositorySteps
  import opened SnapshotAcquisition

  /** What one uninterrupted recovery leaves behind: VERIFIED exactly when a Snapshot is durable,
      FAILED or CANCELLED otherwise, and an index row that replays the whole ledger. */
  ghost predicate Converged(repo: Repo, run: RunId) {
    && IsGovernedRun(repo, run) && RunSound(repo, run) && CaughtUp(repo, run)
    && Remaining(StageAt(repo, run)) == 0
    && (SnapshotsIn(repo.ledgers[run]) != [] ==> StatusOf(repo.ledgers[run]) == VERIFIED && Verified(repo.ledgers, repo.index, run))
    && (SnapshotsIn(repo.ledgers[run]) == [] ==> StatusOf(repo.ledgers[run]) in {FAILED, CANCELLED})
  }

  lemma DoneIsConverged(before: Repo, after: Repo, run: RunId, outcome: Outcome<Report>, quiet: bool)
    requires RecoverySpec(before, after, run, outcome, quiet) && outcome.Done?
    ensures Converged(after, run)
  {
    FinalReport(after, run);
    RowOfCaughtUp(after, run);
  }

  /** A converged Run stays as it is: recovery has nothing left to append. */
  lemma ConvergedIsFinal(before: Repo, after: Repo, run: RunId)
    requires Converged(before, run) && RecoveryEffect(before, after, run)
    ensures after.ledgers[run] == before.ledgers[run] && Converged(after, run)
  {
    assert after.ledgers[run] == before.ledgers[run];
    FinalReport(after, run);
  }

  /** Recoveries of one Run, each stopped by its own script of signals. */
  method InterruptedRecoveries(store: Store, run: RunId, attempts: seq<seq<Signal>>)
    requires Sound(store.State()) && IsGovernedRun(store.State(), run)
    modifies store
    ensures RecoveryEffect(old(store.State()), store.State(), run)
  {
    ghost var before := store.State();
    NothingRecovers(before, run);
    for i := 0 to |attempts|
      invariant RecoveryEffect(before, store.State(), run)
    {
      ghost var middle := store.State();
      store.script := attempts[i];
      assert store.State() == middle;
      var _ := store.RecoverSnapshotAcquisition(run, true);
      RecoveryComposes(before, middle, store.State(), run);
    }
  }

  /** What the whole history leaves, relative to the state at the stop. */
  ghost predicate RecoveredFrom(stopped: Repo, after: Repo, run: RunId) {
    && IsGovernedRun(stopped, run) && Converged(after, run)
    && stopped.ledgers[run] <= after.ledgers[run] && |after.ledgers[run]| <= |stopped.ledgers[run]| + 3
    && SnapshotsIn(after.ledgers[run]) == SnapshotsIn(stopped.ledgers[run])
    && OthersIndexed(stopped, after, run)
  }

  lemma LastRecoverySucceeds(before: Repo, stopped: Repo, interrupted: Repo, after: Repo, run: RunId, scene: Scene,
                             acquired: Outcome<Report>, outcome: Outcome<Report>)
    requires Sound(before) && run !in before.ledgers && AllReplayable(before) && AcquisitionSpec(before, stopped, run, scene, acquired)
    requires run in stopped.ledgers && RecoveryEffect(stopped, interrupted, run) && RecoverySpec(interrupted, after, run, outcome, true)
    ensures outcome.Done?
  {
    OthersReplayableAfterAcquisition(before, stopped, run);
    OthersStayReplayable(stopped, interrupted, run);
    hide OthersReplayable, AcquisitionSpec, AllReplayable, Sound, Chained, ReplaysPrefix, Unshared, StageOf, OnlyTouches, Verified,
         OthersIndexed, Course, SnapshotsIn, ReportOf;
    assert RecoverableNow(interrupted, run);
  }

  lemma HistoryConverges(before: Repo, stopped: Repo, interrupted: Repo, after: Repo, run: RunId, scene: Scene,
                         acquired: Outcome<Report>, outcome: Outcome<Report>)
    requires Sound(before) && run !in before.ledgers && AllReplayable(before) && AcquisitionSpec(before, stopped, run, scene, acquired)
    requires run in stopped.ledgers && RecoveryEffect(stopped, interrupted, run) && RecoverySpec(interrupted, after, run, outcome, true)
    ensures outcome.Done? && RecoveredFrom(stopped, after, run)
    ensures RecoveryAnswer(stopped.ledgers[run], after.ledgers[run], outcome)
  {
    hide OthersReplayable, RecoverableNow, AcquisitionSpec, AllReplayable, Sound, Chained, ReplaysPrefix, Unshared, StageOf, Converged,
         OnlyTouches, Verified, OthersIndexed, Course, SnapshotsIn, StepsOf, StatusOf, ReportOf, RecoveryAnswer;
    LastRecoverySucceeds(before, stopped, interrupted, after, run, scene, acquired, outcome);
    DoneIsConverged(interrupted, after, run, outcome, true);
    RecoveryComposes(stopped, interrupted, after, run);
    WholeAnswer(stopped, after, run, outcome);
  }

  /** The answer of the last recovery, seen from the state at the stop. */
  lemma WholeAnswer(stopped: Repo, after: Repo, run: RunId, outcome: Outcome<Report>)
    requires RecoveryEffect(stopped, after, run) && outcome.Done?
    requires Remaining(StageAt(after, run)) == 0 && CaughtUp(after, run) && outcome.value == ReportOf(after.ledgers, after.index, run)
    ensures RecoveryAnswer(stopped.ledgers[run], after.ledgers[run], outcome)
  {
    RecoveryAnswers(stopped, after, run, outcome, false);
  }

  lemma DurableIsGoverned(before: Repo, stopped: Repo, run: RunId, scene: Scene, acquired: Outcome<Report>)
    requires AcquisitionSpec(before, stopped, run, scene, acquired)
    ensures Sound(stopped) && (run in stopped.ledgers <==> IsGovernedRun(stopped, run))
    ensures run in stopped.ledgers ==> AcquiredRecord(stopped, run, scene)
  {
  }

  /** Stop an acquisition anywhere, interrupt any number of recoveries, then recover once more
      undisturbed: it finishes if and only if the Run became durable, with at most three documents
      appended since the stop and none altered. All other Runs are assumed replayable. */
  method StopInterruptRecover(store: Store, run: RunId, scene: Scene, stops: seq<Signal>, attempts: seq<seq<Signal>>)
    returns (outcome: Outcome<Report>, ghost stopped: Repo)
    requires Sound(store.State()) && run !in store.ledgers && SupportedMetadata(scene.metadata, scene.configDigest)
    requires AllReplayable(store.State())
    modifies store
    ensures outcome.Done? <==> run in stopped.ledgers
    ensures outcome.Done? ==>
            && AcquiredRecord(stopped, run, scene) && RecoveredFrom(stopped, store.State(), run)
            && RecoveryAnswer(stopped.ledgers[run], store.ledgers[run], outcome)
    ensures !outcome.Done? ==> run !in store.ledgers
    // the answer, from what the scan saw and from where the acquisition stopped
    ensures outcome.Done? ==>
            var status, facts := StatusOf(stopped.ledgers[run]), SnapshotsIn(stopped.ledgers[run]);
            && (facts != [] ==> scene.Observable())
            && outcome.value ==
                 (if facts != [] then Report(if scene.Partial() then PARTIAL_RESULT else COMPLETE_RESULT, VERIFIED, true)
                  else if status == CANCELLED then Report(CANCELLED_RESULT, CANCELLED, false)
                  else Report(FAILED_RESULT, FAILED, false))
            && StatusOf(store.ledgers[run]) == outcome.value.status
  {
    hide AcquisitionSpec, RecoverySpec, RecoveryEffect, RecoveredFrom, Sound, RunSound, AllReplayable, SupportedMetadata, Governed,
         RecoveryAnswer, AcquiredRecord;
    ghost var before := store.State();
    store.script := stops;
    assert store.State() == before;
    var acquired := store.AcquireSnapshot(run, scene, true);
    stopped := store.State();
    DurableIsGoverned(before, stopped, run, scene, acquired);
    if run !in store.ledgers {
      outcome := Refused(RUN_NOT_FOUND);
      return;
    }
    InterruptedRecoveries(store, run, attempts);
    ghost var interrupted := store.State();
    RecoveredIsGoverned(stopped, interrupted, run);
    store.script := [];
    assert store.State() == interrupted;
    outcome := store.RecoverSnapshotAcquisition(run, true);
    HistoryConverges(before, stopped, interrupted, store.State(), run, scene, acquired, outcome);
    AnswerOfScene(stopped, store.State(), run, scene, outcome);
  }

  /** The answer in terms of what the scan saw. */
  lemma AnswerOfScene(stopped: Repo, after: Repo, run: RunId, scene: Scene, outcome: Outcome<Report>)
    requires AcquiredRecord(stopped, run, scene) && RecoveredFrom(stopped, after, run) && outcome.Done?
    requires RecoveryAnswer(stopped.ledgers[run], after.ledgers[run], outcome)
    ensures var status, facts := StatusOf(stopped.ledgers[run]), SnapshotsIn(stopped.ledgers[run]);
            && (facts != [] ==> scene.Observable())
            && outcome.value ==
                 (if facts != [] then Report(if scene.Partial() then PARTIAL_RESULT else COMPLETE_RESULT, VERIFIED, true)
                  else if status == CANCELLED then Report(CANCELLED_RESULT, CANCELLED, false)
                  else Report(FAILED_RESULT, FAILED, false))
            && StatusOf(after.ledgers[run]) == outcome.value.status
  {
    hide StatusOf, SnapshotsIn, StepsOf, Course, RunSound, Governed, Verified, OthersIndexed;
  }

  // ------------------------------------------------------------------ many Runs

  /** This Run does not stand in the way of a rebuild: a governed one unless it stopped between its
      Snapshot document and the observation transition, any other one if it can be classified. */
  ghost predicate LetsOthersPass(repo: Repo, q: RunId)
    requires q in repo.ledgers
  {
    if Governed(repo.ledgers[q]) then RunSound(repo, q) && !StageAt(repo, q).AtSnapshot? else Classifiable(repo.ledgers, q)
  }

  /** A Run can be recovered now exactly when its index needs no rebuild or every other Run lets it pass. */
  lemma BlockedExactlyByDurableSnapshots(repo: Repo, run: RunId)
    requires Sound(repo) && IsGovernedRun(repo, run)
    ensures RecoverableNow(repo, run) <==>
            || (!Open(StageAt(repo, run)) && CaughtUp(repo, run))
            || forall q :: q in repo.ledgers && q != run ==> LetsOthersPass(repo, q)
  {
    forall q | q in repo.ledgers && q != run
      ensures Classifiable(repo.ledgers, q) <==> LetsOthersPass(repo, q)
    {
      if Governed(repo.ledgers[q]) {
        GovernedIsClassifiable(repo, q);
      }
    }
  }

  function AnyMetadata(): Metadata {
    AcquisitionMetadata(ScopeBinding(0, 0, 0, 0), BindingDigest(0, ScopeBinding(0, 0, 0, 0)))
  }

  lemma CreatedIsReady(before: Repo, after: Repo, run: RunId, configDigest: nat, metadata: Metadata)
    requires CreateEffect(before, after, run, configDigest, metadata, true)
    ensures Sound(after) && IsGovernedRun(after, run) && CaughtUp(after, run) && StageAt(after, run) == AtCreated
    ensures forall q :: q in after.ledgers && q != run ==> q in before.ledgers && after.ledgers[q] == before.ledgers[q]
  {
    SnapshotsOfStage(after, run);
  }

  lemma ScanningIsReady(before: Repo, after: Repo, run: RunId, reason: Reason)
    requires Sound(before) && IsGovernedRun(before, run) && StageAt(before, run) == AtCreated
    requires TransitionEffect(before, after, run, SCANNING, reason, true)
    ensures Sound(after) && IsGovernedRun(after, run) && CaughtUp(after, run) && StageAt(after, run) == AtScanning
    ensures after.ledgers.Keys == before.ledgers.Keys
  {
    SnapshotsOfStage(after, run);
  }

  lemma SnapshotIsDurable(before: Repo, after: Repo, run: RunId, snapshot: Snapshot)
    requires PersistEffect(before, after, run, snapshot, true)
    ensures Sound(after) && IsGovernedRun(after, run) && StageAt(after, run).AtSnapshot?
    ensures after.ledgers.Keys == before.ledgers.Keys
  {
    SnapshotsOfStage(after, run);
  }

  lemma EmptyIsSound()
    ensures Sound(Repo(map[], Index(map[], map[]), 0))
  {
  }

  /** The steps of an acquisition of Run 0, up to the start of its scan. */
  method AcquireUpToScanning() returns (store: Store)
    ensures fresh(store) && store.script == [] && store.ledgers.Keys == {0}
    ensures Sound(store.State()) && IsGovernedRun(store.State(), 0) && CaughtUp(store.State(), 0) && StageAt(store.State(), 0) == AtScanning
  {
    store := new Store();
    EmptyIsSound();
    hide Sound, CreateEffect, TransitionEffect, RunSound, StageOf, Governed, CaughtUp, Chained;
    ghost var empty := store.State();
    var step := store.CreateRun(0, 0, AnyMetadata());
    ghost var created := store.State();
    CreatedIsReady(empty, created, 0, 0, AnyMetadata());
    step := store.TransitionRun(0, SCANNING, SCAN_STARTED);
    ScanningIsReady(created, store.State(), 0, SCAN_STARTED);
    assert created.ledgers.Keys == {0};
    store.script := [];
  }

  /** And on to its Snapshot: there the process stops. */
  method AcquireUpToSnapshot() returns (store: Store)
    ensures fresh(store) && store.script == [] && store.ledgers.Keys == {0}
    ensures Sound(store.State()) && IsGovernedRun(store.State(), 0) && StageAt(store.State(), 0).AtSnapshot?
  {
    store := AcquireUpToScanning();
    hide Sound, PersistEffect, RunSound, StageOf, Governed, CaughtUp, Chained;
    ghost var scanning := store.State();
    var snapshot := Snapshot(store.supply + 1, 0, COMPLETE_SNAPSHOT, 0, true);
    var step := store.PersistSnapshot(0, snapshot);
    SnapshotIsDurable(scanning, store.State(), 0, snapshot);
    store.script := [];
  }

  /** A Run that cannot be recovered, reached by the protocol's own steps: Run 0 stopped after its
      Snapshot was persisted, Run 1 after it was created. Undisturbed, the recovery of Run 1 fails; that
      of Run 0 would succeed. */
  method RecoveryCanBeBlocked() returns (store: Store, ghost repo: Repo, outcome: Outcome<Report>)
    ensures Sound(repo) && IsGovernedRun(repo, 0) && IsGovernedRun(repo, 1)
    ensures StageAt(repo, 0).AtSnapshot? && StageAt(repo, 1).AtCreated?
    ensures !RecoverableNow(repo, 1) && RecoverableNow(repo, 0)
    ensures RecoverySpec(repo, store.State(), 1, outcome, true) && !outcome.Done?
  {
    store := AcquireUpToSnapshot();
    hide Sound, CreateEffect, RunSound, StageOf, RecoverySpec, RecoverableNow;
    ghost var first := store.State();
    var step := store.CreateRun(1, 0, AnyMetadata());
    repo := store.State();
    CreatedIsReady(first, repo, 1, 0, AnyMetadata());
    SecondIsCreated(first, repo);
    store.script := [];
    assert store.State() == repo;
    outcome := store.RecoverSnapshotAcquisition(1, true);
    QuietRecovery(repo, store.State(), 1, outcome);
  }

  lemma SecondIsCreated(before: Repo, after: Repo)
    requires before.ledgers.Keys == {0} && IsGovernedRun(before, 0) && Sound(before) && StageAt(before, 0).AtSnapshot?
    requires CreateEffect(before, after, 1, 0, AnyMetadata(), true) && 1 in after.ledgers && IsGovernedRun(after, 1) && StageAt(after, 1) == AtCreated
    ensures IsGovernedRun(after, 0) && RunSound(after, 0) && RunSound(after, 1) && StageAt(after, 0).AtSnapshot?
    ensures !RecoverableNow(after, 1) && RecoverableNow(after, 0)
  {
    FirstIsUntouched(before, after);
    hide Sound, RunSound, CreateEffect, RecoverableNow, Chained, StageOf;
    BlockedExactlyByDurableSnapshots(after, 0);
    BlockedExactlyByDurableSnapshots(after, 1);
    assert LetsOthersPass(after, 1) && !LetsOthersPass(after, 0);
  }

  lemma FirstIsUntouched(before: Repo, after: Repo)
    requires before.ledgers.Keys == {0} && IsGovernedRun(before, 0) && Sound(before)
    requires CreateEffect(before, after, 1, 0, AnyMetadata(), true) && 1 in after.ledgers && IsGovernedRun(after, 1)
    ensures after.ledgers.Keys == {0, 1} && after.ledgers[0] == before.ledgers[0]
    ensures Sound(after) && IsGovernedRun(after, 0) && RunSound(after, 0) && RunSound(after, 1)
  {
    assert after.ledgers[0] == before.ledgers[0];
  }

  lemma QuietRecovery(before: Repo, after: Repo, run: RunId, outcome: Outcome<Report>)
    requires RecoverySpec(before, after, run, outcome, true)
    ensures IsGovernedRun(before, run) && RunSound(before, run) && (outcome.Done? <==> RecoverableNow(before, run))
  {
  }

  // ------------------------------------------------------------------ rounds of recovery

  /** Every Run without governed metadata can be classified; governed ones may be at any stage. */
  ghost predicate OthersClassified(repo: Repo) {
    Sound(repo) && forall q :: q in repo.ledgers && !Governed(repo.ledgers[q]) ==> Classifiable(repo.ledgers, q)
  }

  /** The Run is past every stage that recovery closes by an append of its own. */
  ghost predicate Settled(repo: Repo, q: RunId) {
    IsGovernedRun(repo, q) && RunSound(repo, q) && !Open(StageAt(repo, q))
  }

  /** No Run is stopped between its Snapshot document and the observation transition. */
  ghost predicate NoneBlocks(repo: Repo) {
    forall q :: IsGovernedRun(repo, q) ==> RunSound(repo, q) && !StageAt(repo, q).AtSnapshot?
  }

  lemma RoundKeepsClassified(before: Repo, after: Repo, run: RunId)
    requires OthersClassified(before) && RecoveryEffect(before, after, run)
    ensures OthersClassified(after) && after.ledgers.Keys == before.ledgers.Keys
    ensures forall q :: q in after.ledgers ==> (Governed(after.ledgers[q]) <==> Governed(before.ledgers[q]))
  {
    assert after.ledgers.Keys == before.ledgers.Keys;
    forall q | q in after.ledgers ensures Governed(after.ledgers[q]) <==> Governed(before.ledgers[q]) {
      assert q == run || after.ledgers[q] == before.ledgers[q];
    }
    forall q | q in after.ledgers && !Governed(after.ledgers[q]) ensures Classifiable(after.ledgers, q) {
      ClassificationIsLocal(before.ledgers, after.ledgers, run, q);
    }
  }

  lemma RoundKeepsOne(before: Repo, after: Repo, run: RunId, q: RunId, outcome: Outcome<Report>)
    requires OthersClassified(before) && RecoverySpec(before, after, run, outcome, true)
    ensures Settled(before, q) ==> Settled(after, q)
    ensures Converged(before, q) ==> Converged(after, q)
    ensures q != run && IsGovernedRun(before, q) ==> q in after.ledgers && after.ledgers[q] == before.ledgers[q] && RunSound(after, q)
  {
    if IsGovernedRun(before, q) {
      if q != run {
        UntouchedRun(before, after, run, q);
      } else if Converged(before, q) {
        ConvergedIsFinal(before, after, run);
      }
    }
  }

  lemma RoundUnblocked(before: Repo, after: Repo, run: RunId, outcome: Outcome<Report>)
    requires OthersClassified(before) && RecoverySpec(before, after, run, outcome, true) && NoneBlocks(before)
    ensures Converged(after, run)
  {
    BlockedExactlyByDurableSnapshots(before, run);
    hide Chained, ReplaysPrefix, Unshared, StageOf, OnlyTouches, Verified, Converged, OthersReplayable;
    assert RecoverableNow(before, run);
    DoneIsConverged(before, after, run, outcome, true);
  }

  /** The effect of one undisturbed recovery on the whole repository. */
  lemma RoundStep(before: Repo, after: Repo, run: RunId, outcome: Outcome<Report>)
    requires OthersClassified(before) && RecoverySpec(before, after, run, outcome, true)
    ensures OthersClassified(after) && after.ledgers.Keys == before.ledgers.Keys && Settled(after, run)
    ensures forall q :: IsGovernedRun(after, q) <==> IsGovernedRun(before, q)
    ensures forall q :: Settled(before, q) ==> Settled(after, q)
    ensures forall q :: Converged(before, q) ==> Converged(after, q)
    ensures NoneBlocks(before) ==> NoneBlocks(after) && Converged(after, run)
  {
    hide Chained, ReplaysPrefix, Unshared, StageOf, OnlyTouches, Verified, Converged, OthersReplayable, Sound;
    RoundKeepsClassified(before, after, run);
    forall q
      ensures Settled(before, q) ==> Settled(after, q)
      ensures Converged(before, q) ==> Converged(after, q)
      ensures q != run && IsGovernedRun(before, q) ==> q in after.ledgers && after.ledgers[q] == before.ledgers[q] && RunSound(after, q)
    {
      RoundKeepsOne(before, after, run, q, outcome);
    }
    if NoneBlocks(before) {
      RoundUnblocked(before, after, run, outcome);
    }
  }

  lemma UntouchedRun(before: Repo, after: Repo, run: RunId, q: RunId)
    requires Sound(before) && Sound(after) && OnlyTouches(before, after, run) && q != run && q in before.ledgers
    requires Governed(before.ledgers[q])
    ensures q in after.ledgers && RunSound(before, q) && RunSound(after, q) && after.ledgers[q] == before.ledgers[q]
    ensures Converged(before, q) ==> Converged(after, q)
  {
    assert q in after.ledgers && after.ledgers[q] == before.ledgers[q];
    if Converged(before, q) {
      FinalReport(after, q);
      RowOfCaughtUp(after, q);
    }
  }

  /** One undisturbed recovery of each listed Run, whatever the single outcomes are. */
  method RecoverEach(store: Store, runs: seq<RunId>)
    requires OthersClassified(store.State())
    modifies store
    ensures OthersClassified(store.State()) && store.ledgers.Keys == old(store.ledgers).Keys
    ensures forall q :: IsGovernedRun(store.State(), q) <==> IsGovernedRun(old(store.State()), q)
    ensures forall i :: 0 <= i < |runs| && IsGovernedRun(store.State(), runs[i]) ==> Settled(store.State(), runs[i])
    ensures NoneBlocks(old(store.State())) ==>
            forall i :: 0 <= i < |runs| && IsGovernedRun(store.State(), runs[i]) ==> Converged(store.State(), runs[i])
  {
    hide OthersClassified, Settled, Converged, NoneBlocks, RecoverySpec, RecoveryAnswer, Sound, IsGovernedRun, LedgerReadable, Governed;
    ghost var before := store.State();
    for i := 0 to |runs|
      invariant OthersClassified(store.State()) && store.ledgers.Keys == before.ledgers.Keys
      invariant forall q :: IsGovernedRun(store.State(), q) <==> IsGovernedRun(before, q)
      invariant forall j :: 0 <= j < i && IsGovernedRun(store.State(), runs[j]) ==> Settled(store.State(), runs[j])
      invariant NoneBlocks(before) ==> NoneBlocks(store.State())
      invariant NoneBlocks(before) ==>
                  forall j :: 0 <= j < i && IsGovernedRun(store.State(), runs[j]) ==> Converged(store.State(), runs[j])
    {
      ghost var middle := store.State();
      store.script := [];
      assert store.State() == middle;
      ClassifiedIsSound(middle);
      var outcome := store.RecoverSnapshotAcquisition(runs[i], true);
      if IsGovernedRun(middle, runs[i]) {
        RoundStep(middle, store.State(), runs[i], outcome);
      }
    }
  }

  lemma ClassifiedIsSound(repo: Repo)
    requires OthersClassified(repo)
    ensures Sound(repo)
  {
  }

  /** Recovering every Run of a repository twice closes all governed ones, even though single recoveries
      of the first round may be blocked. */
  method TwoRoundsConverge(store: Store, runs: seq<RunId>)
    requires OthersClassified(store.State()) && forall q :: IsGovernedRun(store.State(), q) ==> q in runs
    modifies store
    ensures OthersClassified(store.State()) && store.ledgers.Keys == old(store.ledgers).Keys
    ensures forall q :: IsGovernedRun(old(store.State()), q) ==> Converged(store.State(), q)
  {
    hide Converged, Settled, NoneBlocks, OthersClassified, IsGovernedRun;
    RecoverEach(store, runs);
    SettledNeverBlocks(store.State(), runs);
    RecoverEach(store, runs);
  }

  lemma SettledNeverBlocks(repo: Repo, runs: seq<RunId>)
    requires forall q :: IsGovernedRun(repo, q) ==> q in runs
    requires forall i :: 0 <= i < |runs| && IsGovernedRun(repo, runs[i]) ==> Settled(repo, runs[i])
    ensures NoneBlocks(repo)
  {
  }
}
