/**
 The ledgers that acquisition, cancellation and recovery can produce, as the runs of a small
 automaton over documents, and what every such ledger satisfies.
 */
module AcquisitionLedger {
  import opened Options
  import opened StateMachine
  import opened Evidence
  import opened Lifecycle
  import opened RunIndex

  datatype Stage =
    | AtCreated
    | AtScanning
    | AtSnapshot(fact: Document)
    | AtObserved(fact: Document)
    | AtVerifying(fact: Document)
    | AtVerified(fact: Document)
    | Closed(beforeScanning: bool, status: RunStatus)

  predicate IsUsableSnapshot(d: Document) {
    && d.body.evidenceType == FILESYSTEM_SNAPSHOT && d.body.schemaVersion == 1 && d.body.payload.Observation?
    && d.body.payload.snapshot.intrinsic && d.body.payload.snapshot.status != FAILED_SNAPSHOT
    && d.body.payload.snapshot.runId == d.body.runId
  }

  function Expected(fact: Document): RunStatus {
    if IsUsableSnapshot(fact) then ExpectedRunStatus(fact.body.payload.snapshot.status).value else FAILED
  }

  function StageStatus(stage: Stage): RunStatus {
    match stage
    case AtCreated => CREATED
    case AtScanning => SCANNING
    case AtSnapshot(_) => SCANNING
    case AtObserved(fact) => Expected(fact)
    case AtVerifying(_) => VERIFYING
    case AtVerified(_) => VERIFIED
    case Closed(_, status) => status
  }

  /** The stage after a transition to `target`, if acquisition, cancellation or recovery make it. */
  function Moved(stage: Stage, target: RunStatus): Option<Stage> {
    match stage
    case AtCreated =>
      if target == SCANNING then Some(AtScanning)
      else if target in {FAILED, CANCELLED} then Some(Closed(true, target)) else None
    case AtScanning => if target in {FAILED, CANCELLED} then Some(Closed(false, target)) else None
    case AtSnapshot(fact) => if target == Expected(fact) then Some(AtObserved(fact)) else None
    case AtObserved(fact) => if target == VERIFYING then Some(AtVerifying(fact)) else None
    case AtVerifying(fact) => if target == VERIFIED then Some(AtVerified(fact)) else None
    case AtVerified(_) => None
    case Closed(_, _) => None
  }

  function Next(stage: Stage, d: Document): Option<Stage> {
    if d.body.evidenceType == STATE_TRANSITION then
      if d.body.schemaVersion == 1 && d.body.payload.Transition? && d.body.payload.fromStatus == StageStatus(stage)
      then Moved(stage, d.body.payload.toStatus) else None
    else if stage.AtScanning? && IsUsableSnapshot(d) then Some(AtSnapshot(d))
    else None
  }

  function StageOf(documents: seq<Document>): Option<Stage> {
    if documents == [] then None
    else if |documents| == 1 then
      if Governed(documents) && documents[0].body.schemaVersion == 1 then Some(AtCreated) else None
    else
      match StageOf(documents[..|documents| - 1])
      case None => None
      case Some(stage) => Next(stage, documents[|documents| - 1])
  }

  predicate ProtocolLedger(run: RunId, documents: seq<Document>) {
    documents != [] && documents[0].body.runId == run && Chained(documents) && StageOf(documents).Some?
  }

  // ------------------------------------------------------------------ transitions with their reasons

  /** One transition as the ledger records it, with the reason given for it. */
  datatype Step = Step(fromStatus: RunStatus, toStatus: RunStatus, reason: Reason)

  function StepOf(d: Document): seq<Step> {
    if d.body.evidenceType == STATE_TRANSITION && d.body.payload.Transition?
    then [Step(d.body.payload.fromStatus, d.body.payload.toStatus, d.body.payload.reason)] else []
  }

  function StepsOf(documents: seq<Document>): seq<Step> {
    if documents == [] then []
    else StepsOf(documents[..|documents| - 1]) + StepOf(documents[|documents| - 1])
  }

  /** The transitions of a whole acquisition whose scan was partial, or was not. */
  function AcquisitionSteps(partial: bool): seq<Step> {
    var observed := if partial then PARTIAL else SCANNED;
    [Step(CREATED, SCANNING, SCAN_STARTED),
     Step(SCANNING, observed, OBSERVATION_PERSISTED),
     Step(observed, VERIFYING, VERIFICATION_STARTED),
     Step(VERIFYING, VERIFIED, VERIFICATION_PASSED)]
  }

  predicate IsPartial(fact: Document) {
    fact.body.payload.Observation? && fact.body.payload.snapshot.status == PARTIAL_SNAPSHOT
  }

  function VerificationSteps(observed: RunStatus): seq<Step> {
    [Step(observed, VERIFYING, RECOVERY_VERIFICATION_STARTED), Step(VERIFYING, VERIFIED, RECOVERY_VERIFICATION_PASSED)]
  }

  /** The transitions recovery owes a Run, from its status and its durable Snapshots. */
  function RecoveryPlan(status: RunStatus, facts: seq<Document>): seq<Step> {
    if status == CREATED then [Step(CREATED, FAILED, CLOSED_BEFORE_SCANNING)]
    else if status == SCANNING && facts == [] then [Step(SCANNING, FAILED, CLOSED_WITHOUT_SNAPSHOT)]
    else if status == SCANNING then
      var observed := if IsPartial(facts[0]) then PARTIAL else SCANNED;
      [Step(SCANNING, observed, CLOSED_DURABLE_OBSERVATION)] + VerificationSteps(observed)
    else if status in {SCANNED, PARTIAL} then VerificationSteps(status)
    else if status == VERIFYING then [Step(VERIFYING, VERIFIED, RECOVERY_VERIFICATION_PASSED)]
    else []
  }

  /** The transitions of a Run once recovery is through with it: those it has and those it is owed. */
  function Course(documents: seq<Document>): seq<Step> {
    StepsOf(documents) + RecoveryPlan(StatusOf(documents), SnapshotsIn(documents))
  }

  /** `after` is `before` and one transition from its status to `target`. */
  predicate OneTransition(before: seq<Document>, after: seq<Document>, target: RunStatus, reason: Reason) {
    && |after| == |before| + 1 && after[..|before|] == before
    && after[|before|].body.evidenceType == STATE_TRANSITION
    && after[|before|].body.payload == Transition(StatusOf(before), target, reason)
  }

  lemma StepsOfOneMore(before: seq<Document>, after: seq<Document>, target: RunStatus, reason: Reason)
    requires OneTransition(before, after, target, reason)
    ensures StepsOf(after) == StepsOf(before) + [Step(StatusOf(before), target, reason)]
    ensures SnapshotsIn(after) == SnapshotsIn(before)
    ensures before != [] ==> StatusOf(after) == target
  {
  }

  /** The steps of a ledger are its transition pairs, each with its reason. */
  lemma {:induction false} StepsArePairs(documents: seq<Document>)
    ensures |StepsOf(documents)| == |PairsOf(documents)|
    ensures forall i :: 0 <= i < |StepsOf(documents)| ==>
              PairsOf(documents)[i] == (StepsOf(documents)[i].fromStatus, StepsOf(documents)[i].toStatus)
  {
    if documents != [] {
      StepsArePairs(documents[..|documents| - 1]);
    }
  }

  /** A move to the target the plan names first leaves the rest of the plan. */
  lemma PlanMoves(stage: Stage, target: RunStatus)
    requires Moved(stage, target).Some? && forall fact :: fact in StageSnapshots(stage) ==> IsUsableSnapshot(fact)
    requires RecoveryPlan(StageStatus(stage), StageSnapshots(stage)) != []
    requires RecoveryPlan(StageStatus(stage), StageSnapshots(stage))[0].toStatus == target
    ensures var plan, next := RecoveryPlan(StageStatus(stage), StageSnapshots(stage)), Moved(stage, target).value;
            plan[0].fromStatus == StageStatus(stage) && RecoveryPlan(StageStatus(next), StageSnapshots(next)) == plan[1..]
  {
    if StageSnapshots(stage) != [] {
      assert IsUsableSnapshot(StageSnapshots(stage)[0]);
    }
  }

  // ------------------------------------------------------------------ what the stage determines

  function StageLength(stage: Stage): nat {
    match stage
    case AtCreated => 1
    case AtScanning => 2
    case AtSnapshot(_) => 3
    case AtObserved(_) => 4
    case AtVerifying(_) => 5
    case AtVerified(_) => 6
    case Closed(early, _) => if early then 2 else 3
  }

  function StagePairs(stage: Stage): seq<(RunStatus, RunStatus)> {
    match stage
    case AtCreated => []
    case AtScanning => [(CREATED, SCANNING)]
    case AtSnapshot(_) => [(CREATED, SCANNING)]
    case AtObserved(fact) => [(CREATED, SCANNING), (SCANNING, Expected(fact))]
    case AtVerifying(fact) => [(CREATED, SCANNING), (SCANNING, Expected(fact)), (Expected(fact), VERIFYING)]
    case AtVerified(fact) => CanonicalPath(Expected(fact))
    case Closed(early, status) => if early then [(CREATED, status)] else [(CREATED, SCANNING), (SCANNING, status)]
  }

  function StageSnapshots(stage: Stage): seq<Document> {
    match stage
    case AtSnapshot(fact) => [fact]
    case AtObserved(fact) => [fact]
    case AtVerifying(fact) => [fact]
    case AtVerified(fact) => [fact]
    case _ => []
  }

  /** How many documents recovery still has to append; no recovery ever needs more than three. */
  function Remaining(stage: Stage): nat {
    match stage
    case AtCreated => 1
    case AtScanning => 1
    case AtSnapshot(_) => 3
    case AtObserved(_) => 2
    case AtVerifying(_) => 1
    case AtVerified(_) => 0
    case Closed(_, _) => 0
  }

  /** How far the index row may lag behind the ledger at each stage: two documents only right after
      a ledger-side append by cancellation or recovery. */
  function MaxLag(stage: Stage): nat {
    if stage.AtObserved? || stage.Closed? then 2 else 1
  }

  predicate StageSound(stage: Stage, documents: seq<Document>) {
    && |documents| == StageLength(stage)
    && Governed(documents)
    && StatusOf(documents) == StageStatus(stage)
    && PairsOf(documents) == StagePairs(stage)
    && SnapshotsIn(documents) == StageSnapshots(stage)
    && (StageSnapshots(stage) != [] ==> documents[2] == StageSnapshots(stage)[0] && IsUsableSnapshot(documents[2]))
    && (stage.Closed? ==> stage.status in {FAILED, CANCELLED})
    && forall i :: 0 <= i < |documents| ==> !BrokenTransition(documents[i])
  }

  lemma FoldsOfOneMore(prefix: seq<Document>, d: Document)
    requires prefix != []
    ensures PairsOf(prefix + [d]) == PairsOf(prefix) + PairOf(d)
    ensures SnapshotsIn(prefix + [d]) == SnapshotsIn(prefix) + (if d.body.evidenceType == FILESYSTEM_SNAPSHOT then [d] else [])
    ensures StatusOf(prefix + [d]) == if PairOf(d) == [] then StatusOf(prefix) else PairOf(d)[0].1
  {
    assert (prefix + [d])[..|prefix|] == prefix;
  }

  lemma StageFoldsOfOneMore(stage: Stage, d: Document)
    requires Next(stage, d).Some?
    ensures StagePairs(Next(stage, d).value) == StagePairs(stage) + PairOf(d)
    ensures StageSnapshots(Next(stage, d).value)
         == StageSnapshots(stage) + (if d.body.evidenceType == FILESYSTEM_SNAPSHOT then [d] else [])
    ensures StageLength(Next(stage, d).value) == StageLength(stage) + 1
    ensures StageStatus(Next(stage, d).value) == if PairOf(d) == [] then StageStatus(stage) else PairOf(d)[0].1
    ensures PairOf(d) != [] ==> PairOf(d)[0].0 == StageStatus(stage)
    ensures !BrokenTransition(d)
  {
  }

  lemma StageStep(stage: Stage, prefix: seq<Document>, d: Document)
    requires StageSound(stage, prefix) && Next(stage, d).Some?
    ensures StageSound(Next(stage, d).value, prefix + [d])
  {
    hide PairsOf, SnapshotsIn, StatusOf, StagePairs, StageStatus;
    FoldsOfOneMore(prefix, d);
    StageFoldsOfOneMore(stage, d);
    if !stage.AtScanning? {
      assert StageSnapshots(Next(stage, d).value) == StageSnapshots(stage);
    }
  }

  lemma FirstDocument(documents: seq<Document>)
    requires StageOf(documents).Some? && |documents| == 1
    ensures StageSound(StageOf(documents).value, documents)
  {
    assert documents[..0] == [];
    assert PairsOf(documents[..0]) == [] && SnapshotsIn(documents[..0]) == [];
    assert documents[0].body.evidenceType == RUN_CREATED;
  }

  /** The stage of a ledger determines its length, status, transition pairs and Snapshot. */
  lemma {:induction false} StageDetermines(documents: seq<Document>)
    requires StageOf(documents).Some?
    ensures StageSound(StageOf(documents).value, documents)
  {
    hide StageSound, Next, PairsOf, SnapshotsIn, StatusOf;
    var last := |documents| - 1;
    if last == 0 {
      FirstDocument(documents);
    } else {
      StageDetermines(documents[..last]);
      StageStep(StageOf(documents[..last]).value, documents[..last], documents[last]);
      assert documents == documents[..last] + [documents[last]];
    }
  }

  lemma NextIsAllowed(stage: Stage, d: Document)
    requires Next(stage, d).Some? && PairOf(d) != []
    requires forall fact :: fact in StageSnapshots(stage) ==> IsUsableSnapshot(fact)
    ensures PairOf(d)[0].1 in AllowedTargets(StageStatus(stage))
  {
    if StageSnapshots(stage) != [] {
      assert StageSnapshots(stage)[0] in StageSnapshots(stage);
    }
  }

  lemma WalkStep(stage: Stage, prefix: seq<Document>, d: Document)
    requires StageSound(stage, prefix) && Next(stage, d).Some?
    requires LegalWalk(CREATED, PairsOf(prefix)) && WalkEnd(CREATED, PairsOf(prefix)) == StatusOf(prefix)
    ensures LegalWalk(CREATED, PairsOf(prefix + [d]))
    ensures WalkEnd(CREATED, PairsOf(prefix + [d])) == StatusOf(prefix + [d])
  {
    FoldsOfOneMore(prefix, d);
    StageFoldsOfOneMore(stage, d);
    if PairOf(d) != [] {
      NextIsAllowed(stage, d);
      hide Next, PairsOf, SnapshotsIn, StatusOf, StagePairs, AllowedTargets, LegalWalk, Governed;
      LegalWalkExtends(CREATED, PairsOf(prefix), PairOf(d)[0].1);
      assert PairOf(d) == [(StatusOf(prefix), PairOf(d)[0].1)];
    }
  }

  lemma WalkStart(documents: seq<Document>)
    requires StageOf(documents).Some? && |documents| == 1
    ensures LegalWalk(CREATED, PairsOf(documents)) && WalkEnd(CREATED, PairsOf(documents)) == StatusOf(documents)
  {
    assert PairsOf(documents[..0]) == [];
  }

  /** The transitions of a protocol ledger walk the transition graph to the ledger's status. */
  lemma {:induction false} TransitionsWalkTheGraph(documents: seq<Document>)
    requires StageOf(documents).Some?
    ensures LegalWalk(CREATED, PairsOf(documents))
    ensures WalkEnd(CREATED, PairsOf(documents)) == StatusOf(documents)
  {
    hide StageSound, Next, PairsOf, SnapshotsIn, StatusOf, LegalWalk, WalkEnd, Governed;
    var last := |documents| - 1;
    if last == 0 {
      WalkStart(documents);
    } else {
      var prefix := documents[..last];
      TransitionsWalkTheGraph(prefix);
      StageDetermines(prefix);
      WalkStep(StageOf(prefix).value, prefix, documents[last]);
      assert documents == prefix + [documents[last]];
    }
  }

  /** Every ledger of the protocol is at most six documents long, holds at most one Snapshot, is
      chained under one configuration digest, and walks the transition graph to its status. */
  lemma ProtocolLedgersAreWellFormed(run: RunId, documents: seq<Document>)
    requires ProtocolLedger(run, documents)
    ensures 1 <= |documents| <= 6
    ensures |SnapshotsIn(documents)| <= 1
    ensures LedgerIntegrity(documents)
    ensures LegalWalk(CREATED, TransitionPairs(documents))
    ensures WalkEnd(CREATED, TransitionPairs(documents)) == StatusOf(documents)
    ensures |documents| + Remaining(StageOf(documents).value) in {2, 3, 6}
  {
    StageDetermines(documents);
    TransitionsWalkTheGraph(documents);
  }

  /** Every such ledger passes the structural validation that replay and recovery start with. */
  lemma {:induction false} ProtocolLedgerIsValid(run: RunId, documents: seq<Document>)
    requires ProtocolLedger(run, documents)
    ensures LedgerValid(run, documents)
  {
    var prefix, d := documents[..|documents| - 1], documents[|documents| - 1];
    if |documents| == 1 {
      assert prefix == [] && Links(prefix, d);
      assert Acceptable(run, prefix, d);
    } else {
      assert prefix[0] == documents[0];
      ProtocolLedgerIsValid(run, prefix);
      StageDetermines(prefix);
      var stage := StageOf(prefix).value;
      assert forall fact :: fact in StageSnapshots(stage) ==> fact == StageSnapshots(stage)[0];
      StageFoldsOfOneMore(stage, d);
      if PairOf(d) != [] {
        NextIsAllowed(stage, d);
      }
      assert Acceptable(run, prefix, d);
    }
    assert WellLinked(run, prefix);
  }

  /** From the observation transition on, the ledger is accepted by the lifecycle rule; before it,
      no Snapshot status makes it accepted. */
  lemma AcceptedExactlyFromTheObservation(run: RunId, documents: seq<Document>, status: SnapshotStatus)
    requires ProtocolLedger(run, documents)
    ensures SnapshotRunCompatible(status, FilesystemSnapshotRun, StatusOf(documents), documents) <==>
            (&& StageLength(StageOf(documents).value) >= 4
             && ExpectedRunStatus(status) == Some(Expected(StageSnapshots(StageOf(documents).value)[0])))
  {
    StageDetermines(documents);
    GovernedAcceptsExactlyTheCanonicalPath(status, FilesystemSnapshotRun, StatusOf(documents), documents);
    ProtocolLedgersAreWellFormed(run, documents);
    hide LedgerIntegrity, Chained, StageOf, SnapshotRunCompatible, StatusOf, PairsOf, SnapshotsIn, LegalWalk, Governed;
    if status != FAILED_SNAPSHOT {
      CutOfStage(StageOf(documents).value, ExpectedRunStatus(status).value);
    }
  }

  /** The transitions of a stage are a canonical path cut at its status exactly past the observation. */
  lemma CutOfStage(stage: Stage, expected: RunStatus)
    requires expected in {SCANNED, PARTIAL} && (stage.Closed? ==> stage.status in {FAILED, CANCELLED})
    requires WalkEnd(CREATED, StagePairs(stage)) == StageStatus(stage)
    ensures CanonicalCut(expected, StageStatus(stage), StagePairs(stage)) <==>
            StageLength(stage) >= 4 && expected == Expected(StageSnapshots(stage)[0])
  {
    var pairs, path := StagePairs(stage), CanonicalPath(expected);
    if |pairs| >= 2 {
      assert pairs <= path <==> pairs == path[..|pairs|];
      assert pairs <= path ==> pairs[1] == path[1];
    }
  }

  lemma ProtocolExtends(run: RunId, documents: seq<Document>, d: Document)
    requires ProtocolLedger(run, documents)
    requires Links(documents, d) && Next(StageOf(documents).value, d).Some?
    ensures ProtocolLedger(run, documents + [d])
    ensures StageOf(documents + [d]) == Next(StageOf(documents).value, d)
  {
    assert (documents + [d])[..|documents|] == documents;
  }
}
