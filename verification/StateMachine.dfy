/** The Run statuses and the single transition graph between them. */
module StateMachine {
  datatype RunStatus =
    | CREATED | SCANNING | SCANNED | PLANNING | PLANNED | APPLYING | APPLIED
    | VERIFYING | VERIFIED | PARTIAL | FAILED | CANCELLED | ROLLING_BACK | ROLLED_BACK

  function AllowedTargets(current: RunStatus): set<RunStatus> {
    match current
    case CREATED => {SCANNING, PLANNING, APPLYING, VERIFYING, ROLLING_BACK, CANCELLED, FAILED}
    case SCANNING => {SCANNED, PARTIAL, CANCELLED, FAILED}
    case SCANNED => {PLANNING, VERIFYING, FAILED}
    case PLANNING => {PLANNED, CANCELLED, FAILED}
    case PLANNED => {APPLYING, CANCELLED, FAILED}
    case APPLYING => {APPLIED, PARTIAL, FAILED}
    case APPLIED => {VERIFYING, ROLLING_BACK, FAILED}
    case VERIFYING => {VERIFIED, PARTIAL, FAILED}
    case VERIFIED => {ROLLING_BACK}
    case PARTIAL => {VERIFYING, ROLLING_BACK, FAILED}
    case FAILED => {ROLLING_BACK}
    case CANCELLED => {}
    case ROLLING_BACK => {ROLLED_BACK, PARTIAL, FAILED}
    case ROLLED_BACK => {}
  }

  predicate IsTerminal(status: RunStatus) {
    status in {VERIFIED, FAILED, CANCELLED, ROLLED_BACK}
  }

  /** A list of (from, to) pairs that starts at `start`, only uses edges of the graph, and joins up. */
  predicate LegalWalk(start: RunStatus, pairs: seq<(RunStatus, RunStatus)>)
    decreases |pairs|
  {
    |pairs| == 0
    || (pairs[0].0 == start && pairs[0].1 in AllowedTargets(start) && LegalWalk(pairs[0].1, pairs[1..]))
  }

  /** Where a list of (from, to) pairs ends. */
  function WalkEnd(start: RunStatus, pairs: seq<(RunStatus, RunStatus)>): RunStatus {
    if |pairs| == 0 then start else pairs[|pairs| - 1].1
  }

  /** Extending a legal walk by one allowed edge out of its end keeps it legal. */
  lemma {:induction false} LegalWalkExtends(start: RunStatus, pairs: seq<(RunStatus, RunStatus)>, target: RunStatus)
    requires LegalWalk(start, pairs)
    requires target in AllowedTargets(WalkEnd(start, pairs))
    ensures LegalWalk(start, pairs + [(WalkEnd(start, pairs), target)])
    decreases |pairs|
  {
    var last := (WalkEnd(start, pairs), target);
    if |pairs| == 0 {
      assert (pairs + [last])[1..] == [];
    } else {
      LegalWalkExtends(pairs[0].1, pairs[1..], target);
      assert (pairs + [last])[1..] == pairs[1..] + [last];
    }
  }
}
