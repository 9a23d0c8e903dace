/**
 Backup, atomic replacement and rollback of the derived index, with other writers committing to the
 official database at any moment before the exclusive lock is held. Digests are symbolic: equal
 digests mean equal digested content. Faults and foreign commits come from arbitrary scripts, one
 item for each moment at which they may happen.
 */
module IndexReplacement {
  import opened Options

  /** The content of one database file, table by table. */
  datatype Database = Database(runs: seq<nat>, evidence: seq<nat>, snapshots: seq<nat>, entries: seq<nat>, diffs: seq<nat>)

  datatype Digest = IndexDigest(snapshots: seq<nat>, entries: seq<nat>) | RunDigest(runs: seq<nat>, evidence: seq<nat>) | FileDigest(file: Database)

  /** `_index_identity`: counts and digests of the Snapshot and Entry tables only. */
  function IndexIdentity(db: Database): (nat, nat, Digest) {
    (|db.snapshots|, |db.entries|, IndexDigest(db.snapshots, db.entries))
  }

  /** `_run_index_digest`. */
  function RunIndexDigest(db: Database): Digest {
    RunDigest(db.runs, db.evidence)
  }

  /** `_file_digest`. */
  function WholeDigest(db: Database): Digest {
    FileDigest(db)
  }

  datatype BackupReport = BackupReport(ready: bool, identity: (nat, nat, Digest), fileDigest: Digest)

  /** A replay report as replacement sees it. */
  datatype ReplayReport = ReplayReport(ready: bool, snapshotCount: nat, entryCount: nat, sourceDigest: Digest, destinationDigest: Digest)

  datatype ReplacementStatus = REPLACED | FAILED_BEFORE_REPLACE | FAILED_AFTER_REPLACE

  datatype RollbackStatus = RESTORED | ROLLBACK_FAILED | POST_RESTORE_FAILED

  /** `_candidate_validation`: the candidate's counts and digest against the replay report. */
  predicate CandidateAccepted(candidate: Database, replay: ReplayReport) {
    && replay.ready
    && |candidate.snapshots| == replay.snapshotCount && |candidate.entries| == replay.entryCount
    && IndexIdentity(candidate).2 == replay.sourceDigest && IndexIdentity(candidate).2 == replay.destinationDigest
  }

  /** What the official database contained at each moment a backup looked at it. */
  datatype BackupReads = BackupReads(identified: Database, digested: Database, copied: Database)

  /** What the official database holds once the first `n` moments of a script have passed. */
  function After(official: Database, commits: seq<Option<Database>>, n: nat): Database
    decreases n
  {
    if n == 0 || commits == [] then official
    else After(if commits[0].Some? then commits[0].value else official, commits[1..], n - 1)
  }

  function Dropped<T>(script: seq<T>, n: nat): seq<T> {
    if n <= |script| then script[n..] else []
  }

  lemma {:induction false} AfterComposes(official: Database, commits: seq<Option<Database>>, m: nat, n: nat)
    ensures After(After(official, commits, m), Dropped(commits, m), n) == After(official, commits, m + n)
    ensures Dropped(Dropped(commits, m), n) == Dropped(commits, m + n)
    decreases m
  {
    if m > 0 && commits != [] {
      AfterComposes(if commits[0].Some? then commits[0].value else official, commits[1..], m - 1, n);
      assert Dropped(commits, m) == Dropped(commits[1..], m - 1);
      assert Dropped(commits, m + n) == Dropped(commits[1..], m - 1 + n);
    }
  }

  predicate NoCommit(commits: seq<Option<Database>>) {
    forall i :: 0 <= i < |commits| ==> commits[i].None?
  }

  lemma {:induction false} NothingHappens(official: Database, commits: seq<Option<Database>>, n: nat)
    requires NoCommit(commits)
    ensures After(official, commits, n) == official && NoCommit(Dropped(commits, n))
    decreases n
  {
    if n > 0 && commits != [] {
      NothingHappens(official, commits[1..], n - 1);
      assert Dropped(commits, n) == Dropped(commits[1..], n - 1);
    }
  }

  predicate NoFault(faults: seq<bool>) {
    forall i :: 0 <= i < |faults| ==> !faults[i]
  }

  /** None of the next `n` checkpoints fails. */
  ghost predicate Clear(faults: seq<bool>, n: nat) {
    forall i :: 0 <= i < n && i < |faults| ==> !faults[i]
  }

  /** What a replay report vouches for: a READY replay with these counts and with this digest on both sides. */
  ghost predicate Vouches(replay: ReplayReport, candidate: Option<Database>) {
    && candidate.Some? && replay.ready
    && replay.snapshotCount == |candidate.value.snapshots| && replay.entryCount == |candidate.value.entries|
    && replay.sourceDigest == replay.destinationDigest == IndexDigest(candidate.value.snapshots, candidate.value.entries)
  }

  /** The tables an index identity is about are the same. */
  ghost predicate SameIndex(a: Database, b: Database) {
    a.snapshots == b.snapshots && a.entries == b.entries
  }

  /** What a backup saw while it was made is what is there under the lock: the index at all three reads, and
      the whole file at the digest. */
  ghost predicate StillThere(seen: BackupReads, prior: Database) {
    SameIndex(seen.copied, seen.identified) && SameIndex(seen.copied, prior) && seen.digested == prior
  }

  /** What a backup sees if it starts now. */
  function ReadsOf(official: Database, commits: seq<Option<Database>>): BackupReads {
    BackupReads(After(official, commits, 1), After(official, commits, 2), After(official, commits, 3))
  }

  /** What a restore started now needs: a READY report of this backup, the Run tables the same when first read, when
      copied and under the lock, and the whole file the same before and under the lock. */
  ghost predicate Restorable(report: BackupReport, backup: Option<Database>, official: Database, commits: seq<Option<Database>>) {
    var first, copied, digested, locked :=
      After(official, commits, 1), After(official, commits, 2), After(official, commits, 3), After(official, commits, 4);
    && report.ready && backup.Some?
    && report.identity == (|backup.value.snapshots|, |backup.value.entries|, IndexDigest(backup.value.snapshots, backup.value.entries))
    && first.runs == copied.runs == locked.runs && first.evidence == copied.evidence == locked.evidence
    && digested == locked
  }

  class Disk {
    var official: Database
    var candidate: Option<Database>
    var backup: Option<Database>

    /** What is still to happen: faults at checkpoints, and commits of other processes in between. */
    var faults: seq<bool>
    var commits: seq<Option<Database>>

    /** The content the last foreign commit left in the official database. */
    ghost var foreign: Database

    constructor (official: Database, candidate: Option<Database>, faults: seq<bool>, commits: seq<Option<Database>>)
      ensures this.official == official && this.candidate == candidate && backup == None && foreign == official
      ensures this.faults == faults && this.commits == commits
    {
      this.official, this.candidate, backup, foreign := official, candidate, None, official;
      this.faults, this.commits := faults, commits;
    }

    /** Whatever other processes commit at this moment. */
    method OtherWriters()
      requires official == foreign
      modifies this`official, this`foreign, this`commits
      ensures official == foreign == After(old(official), old(commits), 1) && commits == Dropped(old(commits), 1)
    {
      if commits != [] {
        if commits[0].Some? {
          official, foreign := commits[0].value, commits[0].value;
        }
        commits := commits[1..];
      }
    }

    /** The swapped-in file becomes the content that others may write to from now on. */
    method SwapDone()
      modifies this`foreign
      ensures foreign == official
    {
      foreign := official;
    }

    /** An injected fault, an I/O error or a failed SQLite check at this point. */
    method Fails() returns (fails: bool)
      modifies this`faults
      ensures fails <==> !Clear(old(faults), 1)
      ensures faults == Dropped(old(faults), 1)
    {
      fails := false;
      if faults != [] {
        fails, faults := faults[0], faults[1..];
      }
    }

    /** `create_snapshot_index_backup`: identity, file digest and copy are separate reads, with no
        transaction around them; four moments of the script pass if it gets to the end. */
    method CreateBackup() returns (report: BackupReport, ghost seen: BackupReads)
      requires official == foreign
      modifies this`official, this`foreign, this`backup, this`faults, this`commits
      ensures official == foreign
      ensures seen == ReadsOf(old(official), old(commits))
      ensures report.identity == (|seen.identified.snapshots|, |seen.identified.entries|, IndexDigest(seen.identified.snapshots, seen.identified.entries))
      ensures report.fileDigest == FileDigest(seen.digested)
      ensures report.ready ==> backup == Some(seen.copied)
      ensures report.ready ==> official == After(old(official), old(commits), 4) && commits == Dropped(old(commits), 4)
      ensures !report.ready ==> backup == None
      ensures !report.ready ==> exists n: nat :: n <= 4 && official == After(old(official), old(commits), n)
      ensures report.ready <==> Clear(old(faults), 2) && SameIndex(seen.copied, seen.identified)
      ensures report.ready ==> faults == Dropped(old(faults), 2)
    {
      AfterComposes(official, commits, 1, 1);
      AfterComposes(official, commits, 2, 1);
      AfterComposes(official, commits, 3, 1);
      backup := None;
      OtherWriters();
      var identity := IndexIdentity(official);
      OtherWriters();
      var fileDigest := WholeDigest(official);
      OtherWriters();
      var copy := official;
      seen := ReadsOf(old(official), old(commits));
      report := BackupReport(false, identity, fileDigest);
      var fails := Fails();
      if fails || IndexIdentity(copy) != identity {
        return;
      }
      backup := Some(copy);
      OtherWriters();
      fails := Fails();
      if fails {
        backup := None;
        return;
      }
      report := report.(ready := true);
    }

    /** `replace_snapshot_index`. `prior` is the official content under the exclusive lock, five moments
        of the script after the start. */
    method ReplaceSnapshotIndex(replay: ReplayReport) returns (status: ReplacementStatus, ghost prior: Database, ghost seen: BackupReads)
      requires official == foreign
      modifies this
      ensures seen == ReadsOf(old(official), old(commits)) && prior == After(old(official), old(commits), 5)
      ensures status == FAILED_BEFORE_REPLACE ==> official == foreign && candidate == old(candidate)
      ensures status == FAILED_BEFORE_REPLACE ==> exists n: nat :: n <= 5 && official == After(old(official), old(commits), n)
      ensures status != FAILED_BEFORE_REPLACE ==> Some(official) == old(candidate) && candidate == None && backup == Some(seen.copied)
      ensures status == REPLACED <==> Vouches(replay, old(candidate)) && StillThere(seen, prior) && Clear(old(faults), 6)
      ensures status == FAILED_AFTER_REPLACE <==>
                Vouches(replay, old(candidate)) && StillThere(seen, prior) && Clear(old(faults), 5) && !Clear(old(faults), 6)
      ensures status == REPLACED ==> (backup == Some(prior) <==> After(old(official), old(commits), 3) == After(old(official), old(commits), 2))
      ensures status == REPLACED ==> commits == Dropped(old(commits), 5) && faults == Dropped(old(faults), 6)
    {
      prior, seen := After(official, commits, 5), ReadsOf(official, commits);
      assert official == After(official, commits, 0);
      AfterComposes(official, commits, 4, 1);
      if candidate.None? {
        return FAILED_BEFORE_REPLACE, prior, seen;
      }
      var file := candidate.value;
      var fails := Fails();
      if fails || !CandidateAccepted(file, replay) {
        return FAILED_BEFORE_REPLACE, prior, seen;
      }
      var report: BackupReport;
      report, seen := CreateBackup();
      if !report.ready {
        return FAILED_BEFORE_REPLACE, prior, seen;
      }
      OtherWriters();
      // BEGIN EXCLUSIVE: from here to the swap nobody else writes
      fails := Fails();
      if fails || !CandidateAccepted(file, replay)
         || IndexIdentity(official) != report.identity || WholeDigest(official) != report.fileDigest {
        return FAILED_BEFORE_REPLACE, prior, seen;
      }
      fails := Fails();
      if fails {
        return FAILED_BEFORE_REPLACE, prior, seen;
      }
      official, candidate := file, None;
      fails := Fails();
      status := if fails then FAILED_AFTER_REPLACE else REPLACED;
    }

    /** `restore_snapshot_index_from_backup`, given the validated report of the backup file.
        `locked` is the official content under the exclusive lock. */
    method RestoreFromBackup(report: BackupReport) returns (status: RollbackStatus, ghost locked: Database)
      requires official == foreign && candidate == None
      modifies this`official, this`foreign, this`candidate, this`faults, this`commits
      ensures locked == After(old(official), old(commits), 4)
      ensures status == RESTORED <==> Restorable(report, old(backup), old(official), old(commits)) && Clear(old(faults), 4)
      ensures status == POST_RESTORE_FAILED <==>
                Restorable(report, old(backup), old(official), old(commits)) && Clear(old(faults), 3) && !Clear(old(faults), 4)
      ensures status == ROLLBACK_FAILED ==> official == foreign && candidate == None
      ensures status == ROLLBACK_FAILED ==> exists n: nat :: n <= 4 && official == After(old(official), old(commits), n)
      ensures status != ROLLBACK_FAILED ==>
              && backup.Some? && official.snapshots == backup.value.snapshots && official.entries == backup.value.entries
              && official.runs == locked.runs && official.evidence == locked.evidence && official.diffs == []
    {
      locked := After(official, commits, 4);
      assert official == After(official, commits, 0);
      AfterComposes(official, commits, 1, 1);
      AfterComposes(official, commits, 2, 1);
      AfterComposes(official, commits, 3, 1);
      if backup.None? || !report.ready {
        return ROLLBACK_FAILED, locked;
      }
      var saved := backup.value;
      var fails := Fails();
      if fails || IndexIdentity(saved) != report.identity {
        return ROLLBACK_FAILED, locked;
      }
      // _build_restore_candidate: digest, copy and file digest are separate reads
      OtherWriters();
      var runDigest := RunIndexDigest(official);
      OtherWriters();
      var built := official.(diffs := [], snapshots := saved.snapshots, entries := saved.entries);
      OtherWriters();
      var fileDigest := WholeDigest(official);
      candidate := Some(built);
      fails := Fails();
      if fails || IndexIdentity(built) != IndexIdentity(saved) || RunIndexDigest(built) != runDigest {
        candidate := None;
        return ROLLBACK_FAILED, locked;
      }
      OtherWriters();
      // BEGIN EXCLUSIVE
      fails := Fails();
      if fails || WholeDigest(official) != fileDigest || RunIndexDigest(official) != runDigest {
        candidate := None;
        return ROLLBACK_FAILED, locked;
      }
      official, candidate := built, None;
      fails := Fails();
      if fails || IndexIdentity(official) != IndexIdentity(saved) || RunIndexDigest(official) != runDigest {
        return POST_RESTORE_FAILED, locked;
      }
      status := RESTORED;
    }
  }

  // ------------------------------------------------------------------ what the optimistic checks mean

  /** After a replacement the backup restores the prior Snapshot and Entry tables, and it is the whole
      prior database exactly when no commit between the file digest and the copy changed anything. */
  lemma BackupHoldsThePriorIndex(official: Database, commits: seq<Option<Database>>)
    requires StillThere(ReadsOf(official, commits), After(official, commits, 5))
    ensures var copied, prior := ReadsOf(official, commits).copied, After(official, commits, 5);
            && copied.snapshots == prior.snapshots && copied.entries == prior.entries
            && (copied == prior <==> |commits| <= 2 || commits[2].None? || commits[2].value == After(official, commits, 2))
  {
    ThirdMoment(official, commits);
    assert ReadsOf(official, commits).digested == After(official, commits, 5);
  }

  /** Only the third moment lies between the second and the third. */
  lemma ThirdMoment(official: Database, commits: seq<Option<Database>>)
    ensures After(official, commits, 3)
         == if |commits| > 2 && commits[2].Some? then commits[2].value else After(official, commits, 2)
  {
    AfterComposes(official, commits, 2, 1);
  }

  /** A commit to the Run table that lands between file digest and copy and is undone before the lock:
      the replacement succeeds, and its backup is not the prior database. */
  method BackupCanMissTheRunTables(official: Database, candidate: Database, runs: seq<nat>)
    returns (disk: Disk, status: ReplacementStatus, ghost prior: Database)
    requires runs != official.runs
    ensures status == REPLACED && prior == official && disk.official == candidate
    ensures disk.backup == Some(official.(runs := runs)) && disk.backup != Some(prior)
  {
    var commits := [None, None, Some(official.(runs := runs)), Some(official), None];
    disk := new Disk(official, Some(candidate), [], commits);
    var replay := ReplayReport(true, |candidate.snapshots|, |candidate.entries|, IndexIdentity(candidate).2, IndexIdentity(candidate).2);
    FiveMoments(official, official.(runs := runs));
    ghost var seen;
    status, prior, seen := disk.ReplaceSnapshotIndex(replay);
  }

  lemma FiveMoments(official: Database, changed: Database)
    ensures var commits := [None, None, Some(changed), Some(official), None];
            && After(official, commits, 1) == official && After(official, commits, 2) == official && After(official, commits, 3) == changed
            && After(official, commits, 4) == official && After(official, commits, 5) == official
  {
    var commits := [None, None, Some(changed), Some(official), None];
    AfterComposes(official, commits, 1, 1);
    AfterComposes(official, commits, 2, 1);
    AfterComposes(official, commits, 3, 1);
    AfterComposes(official, commits, 4, 1);
  }

  /** A Run row committed after the backup and still there under the lock is never lost unnoticed,
      although the index identity is blind to it: the replacement is refused and the row stays. */
  method LateRunCommitIsRefused(official: Database, candidate: Database, replay: ReplayReport, runs: seq<nat>, faults: seq<bool>)
    returns (disk: Disk, status: ReplacementStatus)
    requires runs != official.runs
    ensures IndexIdentity(official.(runs := runs)) == IndexIdentity(official)
    ensures status == FAILED_BEFORE_REPLACE && disk.candidate == Some(candidate)
    ensures disk.official in {official, official.(runs := runs)}
  {
    var late := official.(runs := runs);
    var commits := [None, None, None, None, Some(late)];
    disk := new Disk(official, Some(candidate), faults, commits);
    AfterComposes(official, commits, 1, 1);
    AfterComposes(official, commits, 2, 1);
    AfterComposes(official, commits, 3, 1);
    AfterComposes(official, commits, 4, 1);
    ghost var prior, seen;
    status, prior, seen := disk.ReplaceSnapshotIndex(replay);
  }

  /** Replacing and then restoring from the replacement's own backup: the Snapshot and Entry tables
      are back to what they were, while the Run tables are those found under the lock, whoever wrote
      them. */
  method ReplaceThenRestore(disk: Disk, replay: ReplayReport) returns (restored: bool, ghost prior: Database, ghost locked: Database)
    requires disk.official == disk.foreign && disk.backup == None
    modifies disk
    ensures restored ==> Vouches(replay, old(disk.candidate))
    ensures restored ==> disk.official.snapshots == prior.snapshots && disk.official.entries == prior.entries
    ensures restored ==> disk.official.runs == locked.runs && disk.official.evidence == locked.evidence
    ensures NoFault(old(disk.faults)) && NoCommit(old(disk.commits)) ==>
              (restored <==> Vouches(replay, old(disk.candidate)))
    ensures NoFault(old(disk.faults)) && NoCommit(old(disk.commits)) && restored ==> prior == old(disk.official) && locked == old(disk.candidate).value
  {
    ghost var official, commits := disk.official, disk.commits;
    if NoCommit(commits) {
      NothingHappens(official, commits, 1);
      NothingHappens(official, commits, 2);
      NothingHappens(official, commits, 3);
      NothingHappens(official, commits, 5);
    }
    var status; ghost var seen;
    status, prior, seen := disk.ReplaceSnapshotIndex(replay);
    locked := prior;
    if status != REPLACED || disk.backup.None? {
      return false, prior, locked;
    }
    BackupHoldsThePriorIndex(official, commits);
    disk.SwapDone();
    if NoCommit(disk.commits) {
      NothingHappens(disk.official, disk.commits, 1);
    }
    disk.OtherWriters();
    if NoCommit(disk.commits) {
      NothingHappens(disk.official, disk.commits, 1);
      NothingHappens(disk.official, disk.commits, 2);
      NothingHappens(disk.official, disk.commits, 3);
      NothingHappens(disk.official, disk.commits, 4);
    }
    var report := BackupReport(true, IndexIdentity(disk.backup.value), WholeDigest(disk.backup.value));
    var rollback;
    rollback, locked := disk.RestoreFromBackup(report);
    restored := rollback == RESTORED;
  }
}
