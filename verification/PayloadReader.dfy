/** Direct reading of payloads under a per-file and a shared byte budget. */
module PayloadReader {
  import opened Options
  import opened SnapshotEntries

  type Bytes = seq<bv8>

  datatype Policy = Policy(algorithm: string, algorithmVersion: nat, maxFile: nat, maxTotal: nat, chunk: nat, allowVerifiedReuse: bool)

  datatype Stat = Stat(regular: bool, device: nat, inode: nat, size: nat, mtime: int, ctime: int)

  datatype Locality = LOCAL | NON_LOCAL | UNKNOWN_LOCALITY

  /** What an operating system call gives: a value, or one of the errors the reader tells apart. */
  datatype Answer<T> = Got(value: T) | Failed(fault: Fault)

  datatype Fault = FileNotFound | PermissionError | TooManyLinks | OtherError

  /** One `os.read` that returned data: what the shared counter stood at, and the data. */
  datatype Read = Read(before: nat, data: Bytes)

  predicate ValidPolicy(policy: Policy) {
    && policy.algorithm == "sha256" && policy.algorithmVersion == 1 && policy.maxFile > 0 && policy.maxTotal > 0
    && policy.chunk in [65536, 131072, 262144, 524288, 1048576, 2097152, 4194304, 8388608, 16777216]
  }

  // ------------------------------------------------------------------ what the log of all reads keeps

  function Total(log: seq<Read>): nat {
    if log == [] then 0 else Total(log[..|log| - 1]) + |log[|log| - 1].data|
  }

  function Content(log: seq<Read>): Bytes {
    if log == [] then [] else Content(log[..|log| - 1]) + log[|log| - 1].data
  }

  /** Each read started with the counter at the sum of the earlier ones and not beyond the budget,
      and returned between one byte and one chunk. */
  predicate Accounted(log: seq<Read>, policy: Policy) {
    forall k :: 0 <= k < |log| ==>
      log[k].before == Total(log[..k]) && log[k].before <= policy.maxTotal && 0 < |log[k].data| <= policy.chunk
  }

  lemma {:induction false} TotalSplits(log: seq<Read>, k: nat)
    requires k <= |log|
    ensures Total(log) == Total(log[..k]) + Total(log[k..])
  {
    if k == |log| {
      assert log[..k] == log;
    } else {
      TotalSplits(log[..|log| - 1], k);
      assert log[..|log| - 1][..k] == log[..k];
      assert log[k..][..|log| - k - 1] == log[..|log| - 1][k..];
    }
  }

  lemma {:induction false} ContentLength(log: seq<Read>)
    ensures |Content(log)| == Total(log)
  {
    if log != [] {
      ContentLength(log[..|log| - 1]);
    }
  }

  /** Only the last read of a session can overrun the total budget, and by less than one chunk; so
      nothing is read after an overrun. */
  lemma NoReadFollowsAnOverrun(log: seq<Read>, policy: Policy)
    requires Accounted(log, policy)
    ensures Total(log) <= policy.maxTotal + policy.chunk
    ensures forall k :: 0 <= k < |log| ==> Total(log[..k]) <= policy.maxTotal
  {
    assert log[..|log|] == log;
  }

  lemma OneMoreRead(log: seq<Read>, policy: Policy, data: Bytes)
    requires Accounted(log, policy) && Total(log) <= policy.maxTotal && 0 < |data| <= policy.chunk
    ensures Accounted(log + [Read(Total(log), data)], policy)
    ensures Total(log + [Read(Total(log), data)]) == Total(log) + |data|
  {
    var more := log + [Read(Total(log), data)];
    assert more[..|more| - 1] == log;
    forall k | 0 <= k < |more|
      ensures more[k].before == Total(more[..k]) && more[k].before <= policy.maxTotal && 0 < |more[k].data| <= policy.chunk
    {
      assert more[..k] == log[..k];
      assert log[..|log|] == log;
    }
  }

  /** The reads after `before` gave exactly this content. */
  ghost predicate Added(before: seq<Read>, after: seq<Read>, content: Bytes) {
    before <= after && content == Content(after[|before|..])
  }

  lemma NothingAdded(log: seq<Read>)
    ensures Added(log, log, [])
  {
    assert log[|log|..] == [];
  }

  lemma ContentGrows(before: seq<Read>, after: seq<Read>, content: Bytes, read: Read)
    requires Added(before, after, content)
    ensures Added(before, after + [read], content + read.data)
  {
    assert (after + [read])[|before|..][..|after| - |before|] == after[|before|..];
  }

  /** The shared counter, with every read it has accounted for. */
  class Meter {
    var bytesRead: nat
    ghost var log: seq<Read>

    constructor ()
      ensures bytesRead == 0 && log == []
    {
      bytesRead, log := 0, [];
    }

    ghost predicate Valid(policy: Policy)
      reads this
    {
      Accounted(log, policy) && bytesRead == Total(log)
    }

    method Add(policy: Policy, data: Bytes)
      requires Valid(policy) && bytesRead <= policy.maxTotal && 0 < |data| <= policy.chunk
      modifies this
      ensures Valid(policy) && bytesRead == old(bytesRead) + |data| && log == old(log) + [Read(old(bytesRead), data)]
    {
      OneMoreRead(log, policy, data);
      log := log + [Read(bytesRead, data)];
      bytesRead := bytesRead + |data|;
    }
  }

  // ------------------------------------------------------------------ one file

  function Failure(status: PayloadStatus): PayloadObservation {
    PayloadObservation(status, None, None, None, None, None, None)
  }

  function FaultStatus(fault: Fault): PayloadStatus {
    match fault
    case FileNotFound => NOT_FOUND_DURING_READ
    case PermissionError => PAYLOAD_PERMISSION_DENIED
    case TooManyLinks => NOT_FOUND_DURING_READ
    case OtherError => PAYLOAD_IO_ERROR
  }

  predicate MatchesStat(entry: Entry, st: Stat) {
    && entry.deviceId == Some(st.device) && entry.inode == Some(st.inode) && entry.sizeBytes == Some(st.size)
    && entry.mtimeNs == Some(st.mtime) && entry.ctimeNs == Some(st.ctime)
  }

  predicate SameIdentity(a: Stat, b: Stat) {
    a.(regular := true) == b.(regular := true)
  }

  method OsRead(limit: nat) returns (answer: Answer<Bytes>)
    ensures answer.Got? ==> |answer.value| <= limit
  {
    answer := *;
    if answer.Got? && |answer.value| > limit {
      answer := Got(answer.value[..limit]);
    }
  }

  datatype ReadEnd = AtEof | TimedOut | OverFile | OverTotal | ReadFault(fault: Fault)

  /** Everything the chunk loop was answered: the clock before every read, and the last read. */
  datatype ReadCalls = ReadCalls(expired: seq<bool>, last: Option<Answer<Bytes>>)

  /** The clock is asked before every read and ends the loop the first time it has run out; the end of the
      file and a fault are what the last read answered. `returned` counts the reads that gave data. */
  ghost predicate EndExplained(calls: ReadCalls, returned: nat, end: ReadEnd) {
    && (forall k :: 0 <= k < |calls.expired| - 1 ==> !calls.expired[k])
    && (end == TimedOut <==> calls.expired != [] && calls.expired[|calls.expired| - 1])
    && |calls.expired| == returned + (if end == OverFile || end == OverTotal then 0 else 1)
    && (end == AtEof <==> calls.last == Some(Got([])))
    && (forall fault :: end == ReadFault(fault) <==> calls.last == Some(Failed(fault)))
  }

  /** What the loop has been answered while it goes on. */
  ghost predicate GoesOn(calls: ReadCalls, returned: nat) {
    && |calls.expired| == returned && (forall k :: 0 <= k < |calls.expired| ==> !calls.expired[k])
    && (calls.last.Some? ==> calls.last.value.Got? && calls.last.value.value != [])
  }

  /** Where the loop stands between two reads: within both budgets. */
  ghost predicate Reading(policy: Policy, before: seq<Read>, after: seq<Read>, content: Bytes, calls: ReadCalls) {
    && Added(before, after, content) && GoesOn(calls, |after| - |before|)
    && |content| <= policy.maxFile && Total(after) <= policy.maxTotal
  }

  /** What the loop has read when it ends, and why it ends. */
  ghost predicate ChunksRead(policy: Policy, before: seq<Read>, after: seq<Read>, content: Bytes, calls: ReadCalls, end: ReadEnd) {
    && Added(before, after, content) && EndExplained(calls, |after| - |before|, end)
    && |content| <= policy.maxFile + policy.chunk
    && (end == OverFile <==> |content| > policy.maxFile)
    && (end == OverTotal <==> |content| <= policy.maxFile && Total(after) > policy.maxTotal)
  }

  /** The answers that end the loop without another read. */
  lemma Endings(policy: Policy, before: seq<Read>, after: seq<Read>, content: Bytes, calls: ReadCalls)
    requires Reading(policy, before, after, content, calls)
    ensures ChunksRead(policy, before, after, content, ReadCalls(calls.expired + [true], calls.last), TimedOut)
    ensures forall fault ::
              ChunksRead(policy, before, after, content, ReadCalls(calls.expired + [false], Some(Failed(fault))), ReadFault(fault))
    ensures ChunksRead(policy, before, after, content, ReadCalls(calls.expired + [false], Some(Got([]))), AtEof)
  {
    hide Added, Total;
  }

  /** A read that gave data lets the loop go on, or ends it with the budget it overran. */
  lemma Onward(policy: Policy, before: seq<Read>, after: seq<Read>, content: Bytes, calls: ReadCalls, read: Read)
    requires Reading(policy, before, after, content, calls) && 0 < |read.data| <= policy.chunk
    ensures var log, all, answered := after + [read], content + read.data, ReadCalls(calls.expired + [false], Some(Got(read.data)));
            if |all| > policy.maxFile then ChunksRead(policy, before, log, all, answered, OverFile)
            else if Total(log) > policy.maxTotal then ChunksRead(policy, before, log, all, answered, OverTotal)
            else Reading(policy, before, log, all, answered)
  {
    ContentGrows(before, after, content, read);
    hide Added, Total;
  }

  /** The chunk loop: stops at end of file, on time, on an error, or right after the read that overran
      a budget. */
  method ReadChunks(policy: Policy, meter: Meter) returns (end: ReadEnd, content: Bytes, ghost calls: ReadCalls)
    requires ValidPolicy(policy) && meter.Valid(policy) && meter.bytesRead <= policy.maxTotal
    modifies meter
    ensures meter.Valid(policy) && ChunksRead(policy, old(meter.log), meter.log, content, calls, end)
  {
    content := [];
    calls := ReadCalls([], None);
    NothingAdded(meter.log);
    assert Reading(policy, meter.log, meter.log, content, calls);
    hide Accounted, Total, Reading, ChunksRead;
    while true
      invariant meter.Valid(policy) && Reading(policy, old(meter.log), meter.log, content, calls)
      invariant |content| <= policy.maxFile && meter.bytesRead <= policy.maxTotal
      decreases policy.maxFile - |content|
    {
      Endings(policy, old(meter.log), meter.log, content, calls);
      var expired: bool := *;
      if expired {
        calls := ReadCalls(calls.expired + [true], calls.last);
        return TimedOut, content, calls;
      }
      var answer := OsRead(policy.chunk);
      ghost var before := calls;
      calls := ReadCalls(calls.expired + [false], Some(answer));
      if answer.Failed? {
        return ReadFault(answer.fault), content, calls;
      }
      if answer.value == [] {
        return AtEof, content, calls;
      }
      Onward(policy, old(meter.log), meter.log, content, before, Read(meter.bytesRead, answer.value));
      meter.Add(policy, answer.value);
      content := content + answer.value;
      if |content| > policy.maxFile || meter.bytesRead > policy.maxTotal {
        return if |content| > policy.maxFile then OverFile else OverTotal, content, calls;
      }
    }
  }

  /** What a successful direct read says about the file it read. */
  ghost predicate DirectSuccess(sha256: Bytes -> string, policy: Policy, entry: Entry, content: Bytes, observation: PayloadObservation) {
    && observation == PayloadObservation(if |content| == 0 then EMPTY_FILE_HASHED else HASHED, Some(policy.algorithm),
                                         Some(policy.algorithmVersion), Some(sha256(content)), Some(|content|), Some(DIRECT_READ), None)
    && entry.objectType == REGULAR_FILE && !entry.excluded && entry.observation == OBSERVED
    && entry.sizeBytes == Some(|content|) && |content| <= policy.maxFile
  }

  function DirectBytes(observation: PayloadObservation): nat {
    if observation.provenance == Some(DIRECT_READ) && observation.bytesHashed.Some? then observation.bytesHashed.value else 0
  }

  /** What observing one entry adds to the log, and what a direct success means: its digest is that of
      exactly the bytes read for it, and they fit both budgets. */
  ghost predicate Observed(sha256: Bytes -> string, policy: Policy, entry: Entry, before: seq<Read>, after: seq<Read>, observation: PayloadObservation) {
    && before <= after && Accounted(after, policy)
    && |Content(after[|before|..])| <= policy.maxFile + policy.chunk
    && (observation.provenance == Some(DIRECT_READ) ==>
          DirectSuccess(sha256, policy, entry, Content(after[|before|..]), observation) && Total(after) <= policy.maxTotal)
  }

  method FStat() returns (answer: Answer<Stat>) {
    answer := *;
  }

  /** The scan has seen a regular file that may be read. */
  predicate Readable(entry: Entry) {
    entry.objectType == REGULAR_FILE && !entry.excluded && entry.observation == OBSERVED && entry.sizeBytes.Some?
  }

  /** What the operating system answered while one file was read; absent answers were not asked for. */
  datatype Trace = Trace(first: Answer<Stat>, end: Option<ReadEnd>, calls: ReadCalls, after: Option<Answer<Stat>>, pathAfter: Option<Answer<Stat>>)

  /** The file is the one the scan has seen, unchanged since. */
  ghost predicate AsScanned(entry: Entry, st: Stat) {
    && st.regular && entry.deviceId == Some(st.device) && entry.inode == Some(st.inode)
    && entry.sizeBytes == Some(st.size) && entry.mtimeNs == Some(st.mtime) && entry.ctimeNs == Some(st.ctime)
  }

  /** The file did not change between two looks at it. */
  ghost predicate Unmoved(a: Stat, b: Stat) {
    a.device == b.device && a.inode == b.inode && a.size == b.size && a.mtime == b.mtime && a.ctime == b.ctime
  }

  /** The opened file is the one that was scanned. */
  ghost predicate Matched(entry: Entry, trace: Trace) {
    trace.first.Got? && AsScanned(entry, trace.first.value)
  }

  /** Nothing moved: same file before and after, by descriptor and by path, read to its end. */
  ghost predicate StoodStill(entry: Entry, trace: Trace) {
    && Matched(entry, trace) && trace.end == Some(AtEof)
    && trace.after.Some? && trace.after.value.Got? && Unmoved(trace.first.value, trace.after.value.value)
    && trace.pathAfter.Some? && trace.pathAfter.value.Got? && Unmoved(trace.first.value, trace.pathAfter.value.value)
  }

  /** The final stat calls either answered, or only the path was gone. */
  ghost predicate Comparable(trace: Trace) {
    && trace.after.Some? && trace.after.value.Got?
    && trace.pathAfter.Some? && (trace.pathAfter.value.Got? || trace.pathAfter.value.fault == FileNotFound)
  }

  /** The operating system error a read ended with; a path that is gone at the end is no error. */
  ghost predicate EndedWith(trace: Trace, fault: Fault) {
    || trace.first == Failed(fault)
    || trace.end == Some(ReadFault(fault))
    || trace.after == Some(Failed(fault))
    || (trace.after.Some? && trace.after.value.Got? && fault != FileNotFound && trace.pathAfter == Some(Failed(fault)))
  }

  /** Why an observation has the status it has, for a file of known size, a counter and the bytes read. */
  ghost predicate Explained(policy: Policy, entry: Entry, counter: nat, returned: nat, read: nat, trace: Trace, observation: PayloadObservation)
    requires entry.sizeBytes.Some?
  {
    var size := entry.sizeBytes.value;
    && (trace.end.Some? ==> EndExplained(trace.calls, returned, trace.end.value))
    && (trace.after.Some? <==> trace.end == Some(AtEof)) && (trace.pathAfter.Some? <==> trace.end == Some(AtEof))
    && (observation.provenance.Some? || observation == Failure(observation.status))
    && (observation.status == PAYLOAD_PERMISSION_DENIED <==> EndedWith(trace, PermissionError))
    && (observation.status == NOT_FOUND_DURING_READ <==> EndedWith(trace, FileNotFound) || EndedWith(trace, TooManyLinks))
    && (observation.status == PAYLOAD_IO_ERROR <==> EndedWith(trace, OtherError))
    && observation.status !in {NOT_LOCAL, UNSUPPORTED}
    && (trace.end.Some? <==> Matched(entry, trace) && size <= policy.maxFile && counter + size <= policy.maxTotal)
    && (trace.end.None? ==> read == 0)
    && (observation.provenance.Some? <==> StoodStill(entry, trace) && read == size)
    && (observation.status == NOT_REGULAR_FILE <==> trace.first.Got? && !trace.first.value.regular)
    && (observation.status == FILE_TOO_LARGE <==> Matched(entry, trace) && (size > policy.maxFile || trace.end == Some(OverFile)))
    && (observation.status == TOTAL_BYTE_BUDGET_EXHAUSTED <==>
          Matched(entry, trace) && ((size <= policy.maxFile && counter + size > policy.maxTotal) || trace.end == Some(OverTotal)))
    && (observation.status == TIME_BUDGET_EXHAUSTED <==> trace.end == Some(TimedOut))
    && (observation.status == CHANGED_DURING_READ <==>
          || (trace.first.Got? && trace.first.value.regular && !Matched(entry, trace))
          || (trace.end == Some(AtEof) && Comparable(trace) && !(StoodStill(entry, trace) && read == size)))
  }

  /** A regular file whose metadata was observed: open, compare, read, compare again. */
  method ReadEntry(sha256: Bytes -> string, policy: Policy, entry: Entry, meter: Meter) returns (observation: PayloadObservation, ghost trace: Trace)
    requires ValidPolicy(policy) && meter.Valid(policy) && meter.bytesRead <= policy.maxTotal
    requires Readable(entry)
    modifies meter
    ensures meter.Valid(policy) && Observed(sha256, policy, entry, old(meter.log), meter.log, observation)
    ensures observation.provenance == Some(DIRECT_READ) || observation.provenance.None?
    ensures Explained(policy, entry, old(meter.bytesRead), |meter.log| - old(|meter.log|), |Content(meter.log[old(|meter.log|)..])|, trace, observation)
  {
    assert meter.log[|meter.log|..] == [] && Content([]) == [];
    hide ValidPolicy, Accounted, Total, Content;
    var descriptor := FStat();
    trace := Trace(descriptor, None, ReadCalls([], None), None, None);
    if descriptor.Failed? {
      return Failure(FaultStatus(descriptor.fault)), trace;
    }
    var before := descriptor.value;
    if !before.regular {
      return Failure(NOT_REGULAR_FILE), trace;
    }
    if !MatchesStat(entry, before) {
      return Failure(CHANGED_DURING_READ), trace;
    }
    if before.size > policy.maxFile {
      return Failure(FILE_TOO_LARGE), trace;
    }
    if before.size as int > policy.maxTotal - meter.bytesRead {
      return Failure(TOTAL_BYTE_BUDGET_EXHAUSTED), trace;
    }
    ghost var calls;
    var end, content;
    end, content, calls := ReadChunks(policy, meter);
    observation, trace := Conclude(sha256, policy, entry, before, end, content, old(meter.bytesRead), |meter.log| - old(|meter.log|), calls);
  }

  /** What follows the chunk loop: the final stat calls after a complete read, and the verdict. */
  method Conclude(sha256: Bytes -> string, policy: Policy, entry: Entry, before: Stat, end: ReadEnd, content: Bytes, ghost counter: nat, ghost returned: nat, ghost calls: ReadCalls)
    returns (observation: PayloadObservation, ghost trace: Trace)
    requires Readable(entry) && before.regular && MatchesStat(entry, before)
    requires before.size <= policy.maxFile && counter + before.size <= policy.maxTotal
    requires end == OverFile <==> |content| > policy.maxFile
    requires EndExplained(calls, returned, end)
    ensures Explained(policy, entry, counter, returned, |content|, trace, observation)
    ensures observation.provenance.None? || DirectSuccess(sha256, policy, entry, content, observation)
    ensures observation.provenance.Some? ==> end == AtEof
  {
    trace := Trace(Got(before), Some(end), calls, None, None);
    match end
    case OverFile => observation := Failure(FILE_TOO_LARGE);
    case OverTotal => observation := Failure(TOTAL_BYTE_BUDGET_EXHAUSTED);
    case TimedOut => observation := Failure(TIME_BUDGET_EXHAUSTED);
    case ReadFault(fault) => observation := Failure(FaultStatus(fault));
    case AtEof =>
      var after := FStat();
      var pathAfter := FStat();
      trace := trace.(after := Some(after), pathAfter := Some(pathAfter));
      if after.Failed? {
        observation := Failure(FaultStatus(after.fault));
      } else if pathAfter.Failed? && pathAfter.fault != FileNotFound {
        observation := Failure(FaultStatus(pathAfter.fault));
      } else if |content| != before.size || !SameIdentity(before, after.value) || pathAfter.Failed? || !SameIdentity(before, pathAfter.value) {
        observation := Failure(CHANGED_DURING_READ);
      } else {
        observation := PayloadObservation(if |content| == 0 then EMPTY_FILE_HASHED else HASHED, Some(policy.algorithm),
                                          Some(policy.algorithmVersion), Some(sha256(content)), Some(|content|), Some(DIRECT_READ), None);
      }
  }

  // ------------------------------------------------------------------ all files of a session

  function TotalDirect(entries: seq<Entry>): nat {
    if entries == [] then 0 else TotalDirect(entries[..|entries| - 1]) + DirectOf(entries[|entries| - 1])
  }

  function DirectOf(entry: Entry): nat {
    if entry.payload.Some? then DirectBytes(entry.payload.value) else 0
  }

  /** Only the payload of an entry is filled in; what the scan observed stays. */
  predicate Enriched(entry: Entry, result: Entry) {
    result.payload.Some? && result == entry.(payload := result.payload)
  }

  /** What was asked before one entry was opened, and what the read was answered; absent answers were not
      asked for. */
  datatype EntryTrace = EntryTrace(expired: Option<bool>, locality: Option<Locality>, noFollow: Option<bool>, reading: Option<Trace>)

  /** Which question is asked when, for the counter the entry found: the file is opened exactly if it is
      readable, there is time, both budgets have room for it, it is local and no link can be followed. */
  ghost predicate Asked(policy: Policy, entry: Entry, counter: nat, trace: EntryTrace) {
    && (trace.expired.Some? <==> Readable(entry))
    && (trace.locality.Some? <==>
          trace.expired == Some(false) && entry.sizeBytes.value <= policy.maxFile && counter + entry.sizeBytes.value <= policy.maxTotal)
    && (trace.noFollow.Some? <==> trace.locality.Some?)
    && (trace.reading.Some? <==> trace.locality == Some(LOCAL) && trace.noFollow == Some(true))
  }

  /** Why a file that was not opened has the status it has. */
  ghost predicate NotOpened(policy: Policy, entry: Entry, counter: nat, trace: EntryTrace, status: PayloadStatus) {
    && (status == NOT_REGULAR_FILE <==> entry.objectType != REGULAR_FILE)
    && (status == TIME_BUDGET_EXHAUSTED <==> trace.expired == Some(true))
    && (status == FILE_TOO_LARGE <==> trace.expired == Some(false) && entry.sizeBytes.Some? && entry.sizeBytes.value > policy.maxFile)
    && (status == TOTAL_BYTE_BUDGET_EXHAUSTED <==>
          && trace.expired == Some(false) && entry.sizeBytes.Some? && entry.sizeBytes.value <= policy.maxFile
          && counter + entry.sizeBytes.value > policy.maxTotal)
    && (status == NOT_LOCAL <==> trace.locality == Some(NON_LOCAL))
    && (status == UNSUPPORTED <==>
          || (entry.objectType == REGULAR_FILE && (entry.excluded || entry.observation != OBSERVED || entry.sizeBytes.None?))
          || trace.locality == Some(UNKNOWN_LOCALITY)
          || (trace.locality == Some(LOCAL) && trace.noFollow == Some(false)))
    && status in {NOT_REGULAR_FILE, TIME_BUDGET_EXHAUSTED, FILE_TOO_LARGE, TOTAL_BYTE_BUDGET_EXHAUSTED, NOT_LOCAL, UNSUPPORTED}
  }

  /** One entry from the log it found to the log it left: when it was opened, what its observation means and
      why it has its status. */
  ghost predicate EntryObserved(sha256: Bytes -> string, policy: Policy, entry: Entry, before: seq<Read>, after: seq<Read>,
                                trace: EntryTrace, observation: PayloadObservation)
  {
    && Observed(sha256, policy, entry, before, after, observation)
    && (observation.provenance == Some(DIRECT_READ) || observation.provenance.None?)
    && Asked(policy, entry, Total(before), trace)
    && (trace.reading.None? ==>
          after == before && observation == Failure(observation.status) && NotOpened(policy, entry, Total(before), trace, observation.status))
    && (trace.reading.Some? ==>
          Explained(policy, entry, Total(before), |after| - |before|, |Content(after[|before|..])|, trace.reading.value, observation))
  }

  /** The branches before and around one direct read: what need not be opened is not opened. */
  method ObserveEntry(sha256: Bytes -> string, policy: Policy, entry: Entry, meter: Meter)
    returns (observation: PayloadObservation, ghost trace: EntryTrace)
    requires ValidPolicy(policy) && meter.Valid(policy)
    modifies meter
    ensures meter.Valid(policy) && EntryObserved(sha256, policy, entry, old(meter.log), meter.log, trace, observation)
    ensures Readable(entry) && trace.expired == Some(false)
            && entry.sizeBytes.value <= policy.maxFile && old(meter.bytesRead) + entry.sizeBytes.value <= policy.maxTotal ==>
              && (observation.status == NOT_LOCAL <==> trace.locality == Some(NON_LOCAL))
              && (observation.status == UNSUPPORTED <==> trace.locality == Some(UNKNOWN_LOCALITY) || (trace.locality == Some(LOCAL) && trace.noFollow == Some(false)))
              && (trace.reading.Some? <==> trace.locality == Some(LOCAL) && trace.noFollow == Some(true))
  {
    assert meter.log[|meter.log|..] == [] && Content([]) == [];
    hide ValidPolicy, Accounted, Total, Content;
    trace := EntryTrace(None, None, None, None);
    if entry.objectType != REGULAR_FILE {
      return Failure(NOT_REGULAR_FILE), trace;
    }
    if entry.excluded || entry.observation != OBSERVED || entry.sizeBytes.None? {
      return Failure(UNSUPPORTED), trace;
    }
    var expired: bool := *;
    trace := EntryTrace(Some(expired), None, None, None);
    if expired {
      return Failure(TIME_BUDGET_EXHAUSTED), trace;
    }
    if entry.sizeBytes.value > policy.maxFile {
      return Failure(FILE_TOO_LARGE), trace;
    }
    if entry.sizeBytes.value as int > policy.maxTotal - meter.bytesRead {
      return Failure(TOTAL_BYTE_BUDGET_EXHAUSTED), trace;
    }
    var locality := LocalityOf();
    var hasNoFollow: bool := *;
    trace := EntryTrace(Some(false), Some(locality), Some(hasNoFollow), None);
    if locality == NON_LOCAL {
      return Failure(NOT_LOCAL), trace;
    }
    if locality != LOCAL || !hasNoFollow {
      return Failure(UNSUPPORTED), trace;
    }
    ghost var read;
    observation, read := ReadEntry(sha256, policy, entry, meter);
    assert observation.status !in {NOT_LOCAL, UNSUPPORTED};
    hide Explained;
    trace := EntryTrace(Some(false), Some(LOCAL), Some(true), Some(read));
  }

  method LocalityOf() returns (locality: Locality) {
    locality := *;
  }

  /** A session, entry by entry: `logs[i]` is the log the i-th entry found, `logs[i + 1]` the one it left. */
  ghost predicate DirectSession(sha256: Bytes -> string, policy: Policy, entries: seq<Entry>, logs: seq<seq<Read>>,
                                traces: seq<EntryTrace>, output: seq<Entry>)
  {
    && |output| == |traces| == |entries| && |logs| == |entries| + 1
    && forall i :: 0 <= i < |entries| ==>
         Enriched(entries[i], output[i]) && EntryObserved(sha256, policy, entries[i], logs[i], logs[i + 1], traces[i], output[i].payload.value)
  }

  /** The first `i` entries are done. */
  ghost predicate DirectDone(sha256: Bytes -> string, policy: Policy, entries: seq<Entry>, i: nat, before: seq<Read>, after: seq<Read>,
                             logs: seq<seq<Read>>, traces: seq<EntryTrace>, output: seq<Entry>)
  {
    && i <= |entries| && |logs| == i + 1 && logs[0] == before && logs[i] == after && before <= after
    && DirectSession(sha256, policy, entries[..i], logs, traces, output)
    && TotalDirect(output) <= Total(after) - Total(before)
    && (TotalDirect(output) == 0 || Total(before) + TotalDirect(output) <= policy.maxTotal)
  }

  lemma NothingDone(sha256: Bytes -> string, policy: Policy, entries: seq<Entry>, log: seq<Read>)
    ensures DirectDone(sha256, policy, entries, 0, log, log, [log], [], [])
  {
  }

  lemma DirectStep(sha256: Bytes -> string, policy: Policy, entries: seq<Entry>, i: nat, before: seq<Read>, after: seq<Read>,
                   logs: seq<seq<Read>>, traces: seq<EntryTrace>, output: seq<Entry>, log: seq<Read>, trace: EntryTrace, observation: PayloadObservation)
    requires i < |entries| && DirectDone(sha256, policy, entries, i, before, after, logs, traces, output)
    requires EntryObserved(sha256, policy, entries[i], after, log, trace, observation)
    ensures DirectDone(sha256, policy, entries, i + 1, before, log, logs + [log], traces + [trace], output + [entries[i].(payload := Some(observation))])
  {
    hide DirectSession, EntryObserved, Total, TotalDirect, DirectBytes;
    var result := entries[i].(payload := Some(observation));
    DirectFits(sha256, policy, entries[i], after, log, trace, observation);
    OneMoreDirect(output, result);
    OneMoreEntry(sha256, policy, entries[..i], logs, traces, output, entries[i], log, trace, observation);
    PrefixOfPrefix(before, after, log);
    OneFurther(entries, i);
    LogsGrow(logs, i, log);
  }

  lemma OneFurther<T>(xs: seq<T>, i: nat)
    requires i < |xs|
    ensures xs[..i + 1] == xs[..i] + [xs[i]]
  {
  }

  lemma LogsGrow(logs: seq<seq<Read>>, i: nat, log: seq<Read>)
    requires |logs| == i + 1
    ensures |logs + [log]| == i + 2 && (logs + [log])[0] == logs[0] && (logs + [log])[i + 1] == log
  {
  }

  lemma PrefixOfPrefix<T>(a: seq<T>, b: seq<T>, c: seq<T>)
    requires a <= b <= c
    ensures a <= c
  {
  }

  lemma AllDone(sha256: Bytes -> string, policy: Policy, entries: seq<Entry>, before: seq<Read>, after: seq<Read>,
                logs: seq<seq<Read>>, traces: seq<EntryTrace>, output: seq<Entry>)
    requires DirectDone(sha256, policy, entries, |entries|, before, after, logs, traces, output)
    ensures |logs| == |entries| + 1 && logs[0] == before && logs[|entries|] == after && before <= after
    ensures DirectSession(sha256, policy, entries, logs, traces, output)
    ensures TotalDirect(output) <= Total(after) - Total(before)
    ensures TotalDirect(output) == 0 || Total(before) + TotalDirect(output) <= policy.maxTotal
  {
    hide DirectSession, Total, TotalDirect;
    assert entries[..|entries|] == entries;
  }

  /** `observe_direct_payloads` on entries in canonical order, with the shared counter. */
  method ObserveDirectPayloads(sha256: Bytes -> string, policy: Policy, entries: seq<Entry>, meter: Meter)
    returns (output: seq<Entry>, ghost logs: seq<seq<Read>>, ghost traces: seq<EntryTrace>)
    requires ValidPolicy(policy) && meter.Valid(policy)
    modifies meter
    ensures meter.Valid(policy) && DirectSession(sha256, policy, entries, logs, traces, output)
    ensures |logs| == |entries| + 1 && logs[0] == old(meter.log) && logs[|entries|] == meter.log && old(meter.log) <= meter.log
    ensures TotalDirect(output) <= meter.bytesRead - old(meter.bytesRead)
    ensures TotalDirect(output) == 0 || old(meter.bytesRead) + TotalDirect(output) <= policy.maxTotal
  {
    hide DirectDone, DirectSession, EntryObserved, Accounted, Total, DirectBytes, TotalDirect;
    output, logs, traces := [], [meter.log], [];
    NothingDone(sha256, policy, entries, meter.log);
    for i := 0 to |entries|
      invariant meter.Valid(policy) && DirectDone(sha256, policy, entries, i, old(meter.log), meter.log, logs, traces, output)
    {
      ghost var before := meter.log;
      var observation;
      ghost var trace;
      observation, trace := ObserveEntry(sha256, policy, entries[i], meter);
      DirectStep(sha256, policy, entries, i, old(meter.log), before, logs, traces, output, meter.log, trace, observation);
      output, logs, traces := output + [entries[i].(payload := Some(observation))], logs + [meter.log], traces + [trace];
    }
    AllDone(sha256, policy, entries, old(meter.log), meter.log, logs, traces, output);
  }

  lemma OneMoreDirect(output: seq<Entry>, result: Entry)
    ensures TotalDirect(output + [result]) == TotalDirect(output) + DirectOf(result)
  {
    assert (output + [result])[..|output|] == output;
  }

  lemma OneMoreEntry(sha256: Bytes -> string, policy: Policy, entries: seq<Entry>, logs: seq<seq<Read>>, traces: seq<EntryTrace>, output: seq<Entry>,
                     entry: Entry, log: seq<Read>, trace: EntryTrace, observation: PayloadObservation)
    requires DirectSession(sha256, policy, entries, logs, traces, output)
    requires EntryObserved(sha256, policy, entry, logs[|entries|], log, trace, observation)
    ensures DirectSession(sha256, policy, entries + [entry], logs + [log], traces + [trace], output + [entry.(payload := Some(observation))])
  {
    hide EntryObserved;
  }

  lemma DirectFits(sha256: Bytes -> string, policy: Policy, entry: Entry, before: seq<Read>, after: seq<Read>, trace: EntryTrace, observation: PayloadObservation)
    requires EntryObserved(sha256, policy, entry, before, after, trace, observation)
    ensures before <= after && Total(before) + DirectBytes(observation) <= Total(after)
    ensures DirectBytes(observation) > 0 ==> Total(after) <= policy.maxTotal
  {
    hide Accounted, Total, Content, Asked, NotOpened, Explained;
    TotalSplits(after, |before|);
    ContentLength(after[|before|..]);
    assert after[..|before|] == before;
  }

  /** A resolver only ever hands out reused observations. */
  ghost predicate Reuses(resolver: Entry -> Option<PayloadObservation>) {
    forall entry :: resolver(entry).Some? ==> resolver(entry).value.provenance == Some(REUSED_FROM_VERIFIED_SNAPSHOT)
  }

  datatype Probe = Settled(observation: PayloadObservation) | Miss

  /** What was asked while one entry was probed; absent answers were not asked for. */
  datatype ProbeTrace = ProbeTrace(expired: Option<bool>, locality: Option<Locality>, noFollow: Option<bool>, before: Option<Answer<Stat>>,
                                   after: Option<Answer<Stat>>, expiredAfter: Option<bool>)

  /** Which question is asked when; the resolver is asked between the two descriptor stats. */
  ghost predicate ProbeAsked(entry: Entry, trace: ProbeTrace) {
    && (trace.expired.Some? <==> Readable(entry))
    && (trace.locality.Some? <==> trace.expired == Some(false))
    && (trace.noFollow.Some? <==> trace.locality == Some(LOCAL))
    && (trace.before.Some? <==> trace.noFollow == Some(true))
    && (trace.after.Some? <==> trace.before.Some? && trace.before.value.Got? && AsScanned(entry, trace.before.value.value))
    && (trace.expiredAfter.Some? <==> trace.after.Some? && trace.after.value.Got?)
  }

  /** The file stood still around a resolver that had something, within the time. */
  ghost predicate Serves(entry: Entry, resolver: Entry -> Option<PayloadObservation>, trace: ProbeTrace) {
    && trace.expiredAfter == Some(false) && resolver(entry).Some?
    && trace.before.Some? && trace.before.value.Got? && trace.after.Some? && trace.after.value.Got?
    && Unmoved(trace.before.value.value, trace.after.value.value)
  }

  /** The ways a probe settles an entry, each with what it settles it with. */
  ghost predicate SettledBy(entry: Entry, resolver: Entry -> Option<PayloadObservation>, trace: ProbeTrace, observation: PayloadObservation) {
    || (trace.locality == Some(NON_LOCAL) && observation == Failure(NOT_LOCAL))
    || (trace.locality == Some(UNKNOWN_LOCALITY) && observation == Failure(UNSUPPORTED))
    || (trace.expiredAfter == Some(true) && observation == Failure(TIME_BUDGET_EXHAUSTED))
    || (Serves(entry, resolver, trace) && resolver(entry) == Some(observation))
  }

  /** The reuse probe of one entry: never reads content, and gives a final observation or a miss. */
  method ProbeReuse(entry: Entry, resolver: Entry -> Option<PayloadObservation>) returns (probe: Probe, ghost trace: ProbeTrace)
    requires Reuses(resolver)
    ensures ProbeAsked(entry, trace)
    ensures forall observation :: probe == Settled(observation) <==> SettledBy(entry, resolver, trace, observation)
    ensures probe.Settled? ==> DirectBytes(probe.observation) == 0
  {
    trace := ProbeTrace(None, None, None, None, None, None);
    if entry.objectType != REGULAR_FILE || entry.excluded || entry.observation != OBSERVED || entry.sizeBytes.None? {
      return Miss, trace;
    }
    var expired: bool := *;
    trace := trace.(expired := Some(expired));
    if expired {
      return Miss, trace;
    }
    var locality := LocalityOf();
    var hasNoFollow: bool := *;
    trace := trace.(locality := Some(locality), noFollow := if locality == LOCAL then Some(hasNoFollow) else None);
    if locality == LOCAL && hasNoFollow {
      var before := FStat();
      trace := trace.(before := Some(before));
      if before.Got? && before.value.regular && MatchesStat(entry, before.value) {
        var candidate := resolver(entry);
        var after := FStat();
        trace := trace.(after := Some(after));
        if after.Failed? {
          return Miss, trace;
        }
        expired := *;
        trace := trace.(expiredAfter := Some(expired));
        if expired {
          return Settled(Failure(TIME_BUDGET_EXHAUSTED)), trace;
        }
        if candidate.Some? && SameIdentity(before.value, after.value) {
          return Settled(candidate.value), trace;
        }
      }
      return Miss, trace;
    }
    if locality == NON_LOCAL {
      return Settled(Failure(NOT_LOCAL)), trace;
    }
    if locality != LOCAL {
      return Settled(Failure(UNSUPPORTED)), trace;
    }
    probe := Miss;
  }

  /** What was asked for one entry of a session with or without reuse. */
  datatype Visit = Visit(probe: Option<ProbeTrace>, read: Option<EntryTrace>)

  /** One entry is probed exactly when a resolver may be used, and handed to the direct reader exactly when no
      probe settles it. */
  ghost predicate Visited(sha256: Bytes -> string, policy: Policy, resolver: Option<Entry -> Option<PayloadObservation>>, entry: Entry,
                          before: seq<Read>, after: seq<Read>, visit: Visit, observation: PayloadObservation)
  {
    && (visit.probe.Some? <==> policy.allowVerifiedReuse && resolver.Some?)
    && (visit.probe.Some? ==> ProbeAsked(entry, visit.probe.value))
    && (visit.read.None? ==>
          visit.probe.Some? && resolver.Some? && SettledBy(entry, resolver.value, visit.probe.value, observation) && after == before)
    && (visit.read.Some? ==>
          && EntryObserved(sha256, policy, entry, before, after, visit.read.value, observation)
          && (visit.probe.Some? && resolver.Some? ==> forall other :: !SettledBy(entry, resolver.value, visit.probe.value, other)))
  }

  ghost predicate Session(sha256: Bytes -> string, policy: Policy, resolver: Option<Entry -> Option<PayloadObservation>>, entries: seq<Entry>,
                          logs: seq<seq<Read>>, visits: seq<Visit>, output: seq<Entry>)
  {
    && |output| == |visits| == |entries| && |logs| == |entries| + 1
    && forall i :: 0 <= i < |entries| ==>
         Enriched(entries[i], output[i]) && Visited(sha256, policy, resolver, entries[i], logs[i], logs[i + 1], visits[i], output[i].payload.value)
  }

  lemma OneMoreVisit(sha256: Bytes -> string, policy: Policy, resolver: Option<Entry -> Option<PayloadObservation>>, entries: seq<Entry>,
                     logs: seq<seq<Read>>, visits: seq<Visit>, output: seq<Entry>,
                     entry: Entry, log: seq<Read>, visit: Visit, observation: PayloadObservation)
    requires Session(sha256, policy, resolver, entries, logs, visits, output)
    requires Visited(sha256, policy, resolver, entry, logs[|entries|], log, visit, observation)
    ensures Session(sha256, policy, resolver, entries + [entry], logs + [log], visits + [visit], output + [entry.(payload := Some(observation))])
    ensures |output| == |visits| == |entries| && |logs| == |entries| + 1
  {
    hide Visited;
  }

  lemma DirectIsASession(sha256: Bytes -> string, policy: Policy, resolver: Option<Entry -> Option<PayloadObservation>>, entries: seq<Entry>,
                         logs: seq<seq<Read>>, traces: seq<EntryTrace>, output: seq<Entry>)
    requires DirectSession(sha256, policy, entries, logs, traces, output) && (!policy.allowVerifiedReuse || resolver.None?)
    ensures Session(sha256, policy, resolver, entries, logs, seq(|traces|, i requires 0 <= i < |traces| => Visit(None, Some(traces[i]))), output)
  {
    hide EntryObserved;
  }

  /** One entry of a session with a resolver: the probe, and the direct reader for a miss. */
  method VisitEntry(sha256: Bytes -> string, policy: Policy, entry: Entry, resolver: Entry -> Option<PayloadObservation>, meter: Meter)
    returns (observation: PayloadObservation, ghost visit: Visit)
    requires ValidPolicy(policy) && policy.allowVerifiedReuse && Reuses(resolver) && meter.Valid(policy)
    modifies meter
    ensures meter.Valid(policy) && old(meter.log) <= meter.log
    ensures Visited(sha256, policy, Some(resolver), entry, old(meter.log), meter.log, visit, observation)
    ensures DirectBytes(observation) <= meter.bytesRead - old(meter.bytesRead)
    ensures DirectBytes(observation) == 0 || old(meter.bytesRead) + DirectBytes(observation) <= policy.maxTotal
  {
    hide ValidPolicy, EntryObserved, Accounted, Total, DirectBytes, ProbeAsked, SettledBy;
    var probe;
    ghost var asked;
    probe, asked := ProbeReuse(entry, resolver);
    if probe.Settled? {
      assert SettledBy(entry, resolver, asked, probe.observation);
      return probe.observation, Visit(Some(asked), None);
    }
    var direct;
    ghost var logs, traces;
    direct, logs, traces := ObserveDirectPayloads(sha256, policy, [entry], meter);
    assert direct[..0] == [] && direct[..|direct| - 1] == [] && TotalDirect([]) == 0;
    observation, visit := direct[0].payload.value, Visit(Some(asked), Some(traces[0]));
    assert EntryObserved(sha256, policy, [entry][0], logs[0], logs[0 + 1], traces[0], direct[0].payload.value);
  }

  /** The first `i` entries of a session with a resolver are done. */
  ghost predicate VisitsDone(sha256: Bytes -> string, policy: Policy, resolver: Entry -> Option<PayloadObservation>, entries: seq<Entry>, i: nat,
                             log: seq<Read>, logs: seq<seq<Read>>, visits: seq<Visit>, output: seq<Entry>)
  {
    && i <= |entries| && |logs| == i + 1 && logs[0] == [] && logs[i] == log
    && Session(sha256, policy, Some(resolver), entries[..i], logs, visits, output)
    && TotalDirect(output) <= Total(log) && TotalDirect(output) <= policy.maxTotal
  }

  lemma NothingVisited(sha256: Bytes -> string, policy: Policy, resolver: Entry -> Option<PayloadObservation>, entries: seq<Entry>)
    ensures VisitsDone(sha256, policy, resolver, entries, 0, [], [[]], [], [])
  {
  }

  lemma VisitStep(sha256: Bytes -> string, policy: Policy, resolver: Entry -> Option<PayloadObservation>, entries: seq<Entry>, i: nat,
                  before: seq<Read>, logs: seq<seq<Read>>, visits: seq<Visit>, output: seq<Entry>, log: seq<Read>, visit: Visit, observation: PayloadObservation)
    requires i < |entries| && VisitsDone(sha256, policy, resolver, entries, i, before, logs, visits, output)
    requires Visited(sha256, policy, Some(resolver), entries[i], before, log, visit, observation)
    requires DirectBytes(observation) <= Total(log) - Total(before)
    requires DirectBytes(observation) == 0 || Total(before) + DirectBytes(observation) <= policy.maxTotal
    ensures VisitsDone(sha256, policy, resolver, entries, i + 1, log, logs + [log], visits + [visit], output + [entries[i].(payload := Some(observation))])
  {
    hide Session, Visited, Total, TotalDirect, DirectBytes;
    OneMoreDirect(output, entries[i].(payload := Some(observation)));
    OneMoreVisit(sha256, policy, Some(resolver), entries[..i], logs, visits, output, entries[i], log, visit, observation);
    OneFurther(entries, i);
    LogsGrow(logs, i, log);
  }

  lemma AllVisited(sha256: Bytes -> string, policy: Policy, resolver: Entry -> Option<PayloadObservation>, entries: seq<Entry>,
                   log: seq<Read>, logs: seq<seq<Read>>, visits: seq<Visit>, output: seq<Entry>)
    requires VisitsDone(sha256, policy, resolver, entries, |entries|, log, logs, visits, output)
    ensures |logs| == |entries| + 1 && Session(sha256, policy, Some(resolver), entries, logs, visits, output)
    ensures logs[0] == [] && logs[|entries|] == log
    ensures TotalDirect(output) <= policy.maxTotal && TotalDirect(output) <= Total(log)
  {
    hide Session, Total, TotalDirect;
    assert entries[..|entries|] == entries;
  }

  /** The entries of a session with a resolver, one visit each. */
  method VisitEntries(sha256: Bytes -> string, policy: Policy, entries: seq<Entry>, resolver: Entry -> Option<PayloadObservation>, meter: Meter)
    returns (output: seq<Entry>, ghost logs: seq<seq<Read>>, ghost visits: seq<Visit>)
    requires ValidPolicy(policy) && policy.allowVerifiedReuse && Reuses(resolver) && meter.Valid(policy) && meter.log == []
    modifies meter
    ensures meter.Valid(policy)
    ensures |logs| == |entries| + 1 && Session(sha256, policy, Some(resolver), entries, logs, visits, output)
    ensures logs[0] == [] && logs[|entries|] == meter.log
    ensures TotalDirect(output) <= policy.maxTotal && TotalDirect(output) <= meter.bytesRead
  {
    hide VisitsDone, TotalDirect, Session, Visited, Accounted, Total, DirectBytes, Reuses;
    output, logs, visits := [], [[]], [];
    NothingVisited(sha256, policy, resolver, entries);
    for i := 0 to |entries|
      invariant meter.Valid(policy) && VisitsDone(sha256, policy, resolver, entries, i, meter.log, logs, visits, output)
    {
      ghost var before := meter.log;
      var observation;
      ghost var visit;
      observation, visit := VisitEntry(sha256, policy, entries[i], resolver, meter);
      VisitStep(sha256, policy, resolver, entries, i, before, logs, visits, output, meter.log, visit, observation);
      output, logs, visits := output + [entries[i].(payload := Some(observation))], logs + [meter.log], visits + [visit];
    }
    AllVisited(sha256, policy, resolver, entries, meter.log, logs, visits, output);
  }

  /** `observe_payloads`: every miss goes to the direct reader as a single-entry call on the shared
      counter. The budgets hold for the whole session all the same; an invalid policy is refused. */
  method ObservePayloads(sha256: Bytes -> string, policy: Policy, entries: seq<Entry>, resolver: Option<Entry -> Option<PayloadObservation>>)
    returns (output: Option<seq<Entry>>, meter: Meter, ghost logs: seq<seq<Read>>, ghost visits: seq<Visit>)
    requires resolver.Some? ==> Reuses(resolver.value)
    ensures output.Some? <==> ValidPolicy(policy)
    ensures output.Some? ==> meter.Valid(policy) && Total(meter.log) <= policy.maxTotal + policy.chunk
    ensures output.Some? ==> Session(sha256, policy, resolver, entries, logs, visits, output.value) && logs[0] == [] && logs[|entries|] == meter.log
    ensures output.Some? ==> TotalDirect(output.value) <= policy.maxTotal && TotalDirect(output.value) <= Total(meter.log)
    ensures output.None? ==> meter.log == []
  {
    meter := new Meter();
    logs, visits := [[]], [];
    if !ValidPolicy(policy) {
      return None, meter, logs, visits;
    }
    hide ValidPolicy, TotalDirect, DirectSession, Session, Visited, Accounted, Total, DirectBytes;
    if !policy.allowVerifiedReuse || resolver.None? {
      var direct;
      ghost var traces;
      direct, logs, traces := ObserveDirectPayloads(sha256, policy, entries, meter);
      DirectIsASession(sha256, policy, resolver, entries, logs, traces, direct);
      NoReadFollowsAnOverrun(meter.log, policy);
      return Some(direct), meter, logs, seq(|traces|, i requires 0 <= i < |traces| => Visit(None, Some(traces[i])));
    }
    var results;
    results, logs, visits := VisitEntries(sha256, policy, entries, resolver.value, meter);
    NoReadFollowsAnOverrun(meter.log, policy);
    output := Some(results);
  }
}
