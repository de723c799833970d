/** The server's live log of one job: a body file, an index file and a metadata file, which can
    disagree after an interrupted write, and the recovery that repairs them. */
module LogStore {
  import opened Core

  type Id = nat

  datatype LogState = Open | Finalizing | Completed | Failed

  datatype ChunkRecord = ChunkRecord(sequence: int, start: int, size: int, sum: Digest)

  /** Complete index lines; `torn` says that a partial line follows them. */
  datatype IndexFile = IndexFile(lines: seq<ChunkRecord>, torn: bool)

  datatype LogStream = LogStream(
    runner: string, state: LogState, next: int, committed: int,
    artifact: Option<Id>, finalSize: Option<int>, finalSum: Option<Digest>)

  datatype Artifact = Artifact(size: int, sum: Digest, completed: bool)

  /** The files of one job's log. `final` is the file behind the log artifact. */
  datatype Disk = Disk(
    body: Option<Bytes>, index: Option<IndexFile>, meta: Option<LogStream>,
    artifacts: map<Id, Artifact>, final: Option<Bytes>)

  const EMPTY_DISK := Disk(None, None, None, map[], None)

  /** What the files mean: the committed chunks, and whether the log has become an artifact. */
  datatype Log = NoLog | Log(runner: string, chunks: seq<Bytes>, finished: bool)

  // ----- the index -----

  function Lines(d: Disk): seq<ChunkRecord> {
    if d.index.Some? then d.index.value.lines else []
  }

  /** Where the chunk after these records starts. */
  function End(lines: seq<ChunkRecord>): int {
    if |lines| == 0 then 0 else End(lines[..|lines| - 1]) + lines[|lines| - 1].size
  }

  /** Sequences count up from zero and offsets are the prefix sums of the sizes. */
  predicate Contiguous(lines: seq<ChunkRecord>) {
    |lines| == 0 ||
    var last := lines[|lines| - 1];
    Contiguous(lines[..|lines| - 1]) &&
    last.sequence == |lines| - 1 && last.start == End(lines[..|lines| - 1]) && last.size >= 0
  }

  lemma EndNonNegative(lines: seq<ChunkRecord>)
    requires Contiguous(lines)
    ensures End(lines) >= 0
  {
  }

  lemma {:induction false} ContiguousPrefix(lines: seq<ChunkRecord>, n: nat)
    requires Contiguous(lines) && n <= |lines|
    ensures Contiguous(lines[..n]) && 0 <= End(lines[..n]) <= End(lines)
    decreases |lines|
  {
    EndNonNegative(lines);
    if n == |lines| {
      assert lines[..n] == lines;
    } else {
      ContiguousPrefix(lines[..|lines| - 1], n);
      assert lines[..|lines| - 1][..n] == lines[..n];
    }
  }

  /** Record n of a contiguous index carries number n and covers [End(..n), End(..n+1)). */
  lemma ContiguousAt(lines: seq<ChunkRecord>, n: nat)
    requires Contiguous(lines) && n < |lines|
    ensures lines[n].sequence == n && lines[n].size >= 0
    ensures 0 <= lines[n].start == End(lines[..n])
    ensures End(lines[..n + 1]) == lines[n].start + lines[n].size <= End(lines)
  {
    ContiguousPrefix(lines, n + 1);
    assert lines[..n + 1][..n] == lines[..n];
    EndNonNegative(lines[..n]);
  }

  /** The slices of the content that a contiguous index describes. */
  function Chunks(content: Bytes, lines: seq<ChunkRecord>): (chunks: seq<Bytes>)
    requires Contiguous(lines) && End(lines) <= |content|
    ensures |chunks| == |lines|
  {
    if |lines| == 0 then [] else
      var shorter := lines[..|lines| - 1];
      EndNonNegative(shorter);
      Chunks(content, shorter) + [content[End(shorter)..End(lines)]]
  }

  lemma {:induction false} ChunksAt(content: Bytes, lines: seq<ChunkRecord>, n: nat)
    requires Contiguous(lines) && End(lines) <= |content| && n < |lines|
    ensures 0 <= lines[n].start <= lines[n].start + lines[n].size <= |content|
    ensures Chunks(content, lines)[n] == content[lines[n].start..lines[n].start + lines[n].size]
    decreases |lines|
  {
    ContiguousAt(lines, n);
    if n == |lines| - 1 {
      assert lines[..n + 1] == lines;
    } else {
      var shorter := lines[..|lines| - 1];
      ContiguousPrefix(lines, |lines| - 1);
      ChunksAt(content, shorter, n);
      assert shorter[..n] == lines[..n];
    }
  }

  /** The chunks partition the content up to the end of the index: nothing missing, nothing twice. */
  lemma {:induction false} ChunksCoverContent(content: Bytes, lines: seq<ChunkRecord>)
    requires Contiguous(lines) && End(lines) <= |content|
    ensures 0 <= End(lines) && Flatten(Chunks(content, lines)) == content[..End(lines)]
  {
    EndNonNegative(lines);
    if |lines| > 0 {
      var shorter := lines[..|lines| - 1];
      ContiguousPrefix(lines, |lines| - 1);
      ChunksCoverContent(content, shorter);
      FlattenAppend(Chunks(content, shorter), content[End(shorter)..End(lines)]);
      assert content[..End(lines)] == content[..End(shorter)] + content[End(shorter)..End(lines)];
    }
  }

  /** Bytes beyond the index do not matter. */
  lemma {:induction false} ChunksOfPrefix(content: Bytes, longer: Bytes, lines: seq<ChunkRecord>)
    requires Contiguous(lines) && End(lines) <= |content| && End(lines) <= |longer|
    requires 0 <= End(lines) && content[..End(lines)] == longer[..End(lines)]
    ensures Chunks(content, lines) == Chunks(longer, lines)
  {
    if |lines| > 0 {
      var shorter := lines[..|lines| - 1];
      ContiguousPrefix(lines, |lines| - 1);
      assert content[..End(shorter)] == content[..End(lines)][..End(shorter)];
      assert longer[..End(shorter)] == longer[..End(lines)][..End(shorter)];
      ChunksOfPrefix(content, longer, shorter);
      assert content[End(shorter)..End(lines)] == content[..End(lines)][End(shorter)..];
      assert longer[End(shorter)..End(lines)] == longer[..End(lines)][End(shorter)..];
    }
  }

  // ----- recovery -----

  /** The log artifact's record exists and its file has the recorded size and hash. */
  predicate Published(d: Disk, id: Id) {
    id in d.artifacts && d.final.Some? &&
    |d.final.value| == d.artifacts[id].size && Sha256(d.final.value) == d.artifacts[id].sum
  }

  function Corrupted(d: Disk): Disk
    requires d.meta.Some?
  {
    d.(meta := Some(d.meta.value.(state := Failed)))
  }

  function CutTorn(d: Disk): Disk {
    if d.index.Some? then d.(index := Some(d.index.value.(torn := false))) else d
  }

  /** The files after an uninterrupted recovery from any state whatsoever. */
  function Recovered(d: Disk): (r: Disk)
    requires d.meta.Some?
  {
    var m := d.meta.value;
    if m.state == Failed then d
    else if m.state == Finalizing && m.artifact.Some? && Published(d, m.artifact.value) then
      var id := m.artifact.value;
      d.(artifacts := d.artifacts[id := d.artifacts[id].(completed := true)],
         meta := Some(m.(state := Completed)))
    else if m.state == Finalizing && m.artifact.Some? && d.body.Some? then
      d.(meta := Some(m.(state := Open, artifact := None, finalSize := None, finalSum := None)))
    else if m.state == Completed && m.artifact.Some? then
      if Published(d, m.artifact.value) then d else Corrupted(d)
    else RecoveredIndex(CutTorn(d))
  }

  function RecoveredIndex(d: Disk): Disk
    requires d.meta.Some?
  {
    var m, lines := d.meta.value, Lines(d);
    if !Contiguous(lines) then Corrupted(d)
    else if d.body.None? then (if End(lines) == 0 then d else Corrupted(d))
    else if |d.body.value| < End(lines) then Corrupted(d)
    else if m.state != Open then d
    else
      EndNonNegative(lines);
      d.(body := Some(d.body.value[..End(lines)]),
         meta := Some(m.(next := |lines|, committed := End(lines))))
  }

  // ----- the states the protocol can leave the files in -----

  function Content(d: Disk): Bytes {
    if d.final.Some? then d.final.value else if d.body.Some? then d.body.value else []
  }

  function BodyBytes(d: Disk): Bytes {
    if d.body.Some? then d.body.value else []
  }

  ghost predicate Readable(d: Disk) {
    Contiguous(Lines(d)) && End(Lines(d)) <= |Content(d)| &&
    forall i :: 0 <= i < |Lines(d)| ==> Lines(d)[i].sum == Sha256(Chunks(Content(d), Lines(d))[i])
  }

  ghost predicate Counted(d: Disk) {
    d.meta.Some? && d.meta.value.next == |Lines(d)| && d.meta.value.committed == End(Lines(d))
  }

  /** The artifact named by the metadata describes exactly the committed bytes. */
  ghost predicate Described(d: Disk) {
    d.meta.Some? && d.meta.value.artifact.Some? && d.meta.value.artifact.value in d.artifacts &&
    var a, m := d.artifacts[d.meta.value.artifact.value], d.meta.value;
    a.size == |Content(d)| && a.sum == Sha256(Content(d)) &&
    m.finalSize == Some(a.size) && m.finalSum == Some(a.sum) &&
    Counted(d) && End(Lines(d)) == |Content(d)| && (d.index.Some? ==> !d.index.value.torn)
  }

  /** Every state of the files reachable through writes that may stop at any file operation. */
  ghost predicate Sound(d: Disk) {
    if d.meta.None? then d == EMPTY_DISK
    else
      var m := d.meta.value;
      Readable(d) && m.state != Failed &&
      match m.state
      case Open =>
        d.final.None? && (d.body.None? ==> Lines(d) == []) && m.artifact.None? &&
        // the index is at most the one chunk in flight ahead of the metadata
        0 <= m.next <= |Lines(d)| <= m.next + 1 && m.committed == End(Lines(d)[..m.next])
      case Finalizing => Described(d) && d.body.Some? == d.final.None?
      case Completed => Described(d) && d.body.None? && d.final.Some? && d.artifacts[m.artifact.value].completed
      case Failed => false
  }

  /** No write is outstanding: the three files agree. */
  ghost predicate Clean(d: Disk) {
    d.meta.Some? ==>
      (d.meta.value.state == Completed ||
       (d.meta.value.state == Open && Counted(d) && (d.index.Some? ==> !d.index.value.torn) &&
        |Content(d)| == End(Lines(d))))
  }

  ghost function Meaning(d: Disk): Log
    requires Sound(d)
  {
    if d.meta.None? then NoLog
    else Log(d.meta.value.runner, Chunks(Content(d), Lines(d)), d.final.Some?)
  }

  /** Recovery from every reachable state succeeds, never reaches the Corrupted verdict, keeps
      exactly the committed chunks, and leaves the log either open with its body intact or
      completed with its artifact. */
  lemma RecoveryKeepsMeaning(d: Disk)
    requires Sound(d) && d.meta.Some?
    ensures var r := Recovered(d);
            Sound(r) && Clean(r) && Meaning(r) == Meaning(d) && r.meta.value.state in {Open, Completed} &&
            (r.meta.value.state == Completed <==> d.final.Some?)
  {
    var r, lines := Recovered(d), Lines(d);
    EndNonNegative(lines);
    assert Lines(r) == lines == lines[..|lines|];
    match d.meta.value.state
    case Completed => assert r == d;
    case Finalizing => assert Content(r) == Content(d);
    case Open =>
      if d.body.Some? {
        var kept := d.body.value[..End(lines)];
        assert kept[..End(lines)] == kept;
        ChunksOfPrefix(d.body.value, kept, lines);
        assert Content(r) == kept;
      } else {
        assert r == CutTorn(d) && Content(r) == Content(d) == [];
      }
  }

  /** What a recovery that fails or stops part-way can leave. */
  ghost predicate PartlyRecovered(d: Disk, p: Disk)
    requires d.meta.Some?
  {
    var cut := CutTorn(d);
    || p == d || p == cut || p == Recovered(d)
    || (d.meta.value.artifact.Some? && d.meta.value.artifact.value in d.artifacts &&
        Published(d, d.meta.value.artifact.value) && d.meta.value.state == Finalizing &&
        p == d.(artifacts := Recovered(d).artifacts))
    || (d.meta.value.state == Open && Contiguous(Lines(d)) && d.body.Some? && 0 <= End(Lines(d)) <= |d.body.value| &&
        p == cut.(body := Some(d.body.value[..End(Lines(d))])))
  }

  /** Dropping a torn line, or body bytes that no index line covers, loses no committed chunk. */
  lemma TrimKeepsMeaning(d: Disk, cut: bool, trim: bool)
    requires Sound(d) && d.meta.Some? && d.meta.value.state == Open
    requires trim ==> d.body.Some?
    ensures 0 <= End(Lines(d)) && (trim ==> End(Lines(d)) <= |d.body.value|)
    ensures var c := if cut then CutTorn(d) else d;
            var p := if trim then c.(body := Some(d.body.value[..End(Lines(d))])) else c;
            Sound(p) && Meaning(p) == Meaning(d) && Recovered(p) == Recovered(d)
  {
    var lines := Lines(d);
    EndNonNegative(lines);
    var c := if cut then CutTorn(d) else d;
    var p := if trim then c.(body := Some(d.body.value[..End(lines)])) else c;
    assert Lines(p) == lines;
    if trim {
      var kept := d.body.value[..End(lines)];
      assert kept[..End(lines)] == kept;
      ChunksOfPrefix(d.body.value, kept, lines);
    }
  }

  /** There is nothing to repair when no write is outstanding. */
  lemma CleanIsRecovered(d: Disk)
    requires Sound(d) && Clean(d) && d.meta.Some?
    ensures Recovered(d) == d
  {
    if d.meta.value.state == Open {
      assert CutTorn(d) == d;
      if d.body.Some? { assert d.body.value[..End(Lines(d))] == d.body.value; }
    }
  }

  /** Completing the artifact's record ahead of the metadata changes nothing else. */
  lemma ArtifactFirst(d: Disk, p: Disk)
    requires Sound(d) && d.meta.Some? && d.meta.value.state == Finalizing && d.final.Some?
    requires p == d.(artifacts := Recovered(d).artifacts)
    ensures Sound(p) && Meaning(p) == Meaning(d) && Recovered(p) == Recovered(d)
    ensures p.artifacts.Keys == d.artifacts.Keys
  {
  }

  /** An interrupted recovery loses nothing, and the next one ends where it would have ended. */
  lemma PartialRecovery(d: Disk, p: Disk)
    requires Sound(d) && d.meta.Some? && PartlyRecovered(d, p)
    ensures Sound(p) && p.meta.Some? && Meaning(p) == Meaning(d) && Recovered(p) == Recovered(d)
    ensures p.artifacts.Keys == d.artifacts.Keys
  {
    if p == Recovered(d) {
      RecoveryKeepsMeaning(d);
      CleanIsRecovered(p);
    } else if p == d {
    } else if d.meta.value.state == Open {
      PartialTrim(d, p);
    } else {
      assert CutTorn(d) == d;
      ArtifactFirst(d, p);
    }
  }

  lemma PartialTrim(d: Disk, p: Disk)
    requires Sound(d) && d.meta.Some? && d.meta.value.state == Open && PartlyRecovered(d, p) && p != Recovered(d) && p != d
    ensures Sound(p) && p.meta.Some? && Meaning(p) == Meaning(d) && Recovered(p) == Recovered(d)
    ensures p.artifacts.Keys == d.artifacts.Keys
  {
    if p == CutTorn(d) { TrimKeepsMeaning(d, true, false); } else { TrimKeepsMeaning(d, true, true); }
  }

  // ----- what a request means, on the log itself -----

  datatype Verdict =
    | Accepted | IdentityConflict | AlreadyFinalized | SequenceConflict | SequenceGap
    | CompletionConflict | ManifestExists | SealExists | Mismatch

  datatype CompleteRequest = CompleteRequest(stream: string, last: int, size: int, sum: Digest)

  function Opened(log: Log, runner: string): Log {
    if log.NoLog? then Log(runner, [], false) else log
  }

  /** The log with one more chunk. */
  function Extended(log: Log, data: Bytes): Log {
    if log.Log? then log.(chunks := log.chunks + [data]) else log
  }

  function AppendVerdict(log: Log, runner: string, number: int, data: Bytes): Verdict
    requires log.Log?
  {
    if log.runner != runner then IdentityConflict
    else if log.finished then AlreadyFinalized
    else if number > |log.chunks| then SequenceGap
    else if number == |log.chunks| || (0 <= number && log.chunks[number] == data) then Accepted
    else SequenceConflict
  }

  function AppendMeaning(log: Log, runner: string, number: int, data: Bytes): Log
    requires log.Log?
  {
    if AppendVerdict(log, runner, number, data) == Accepted && number == |log.chunks|
    then Extended(log, data) else log
  }

  /** A completion request describes the log when it carries its last number, length and hash. */
  predicate Describes(r: CompleteRequest, log: Log)
    requires log.Log?
  {
    r.stream == "combined" && r.last + 1 == |log.chunks| &&
    r.size == |Flatten(log.chunks)| && r.sum == Sha256(Flatten(log.chunks))
  }

  function CompleteVerdict(log: Log, r: CompleteRequest, manifest: bool, seal: bool): Verdict
    requires log.Log?
  {
    if log.finished then (if Describes(r, log) then Accepted else CompletionConflict)
    else if manifest then ManifestExists
    else if seal then SealExists
    else if Describes(r, log) then Accepted
    else Mismatch
  }

  /** What an append may make of a log, whether or not the runner hears the verdict. */
  predicate Appends(before: Log, runner: string, number: int, data: Bytes, heard: Option<Verdict>, after: Log) {
    var log := Opened(before, runner);
    var target := AppendMeaning(log, runner, number, data);
    if heard.Some? then heard.value == AppendVerdict(log, runner, number, data) && after == target
    else after == before || after == log || after == target
  }

  /** Opening a missing log first makes no difference. */
  lemma OpenedAppends(
      before: Log, log: Log, runner: string, number: int, data: Bytes, heard: Option<Verdict>, after: Log)
    requires log == Opened(before, runner) && Appends(log, runner, number, data, heard, after)
    ensures Appends(before, runner, number, data, heard, after)
  {
  }

  /** An accepted chunk is in the log, at its number. */
  lemma AcceptedIsThere(before: Log, runner: string, number: nat, data: Bytes, after: Log)
    requires Appends(before, runner, number, data, Some(Accepted), after)
    ensures after.Log? && number < |after.chunks| && after.chunks[number] == data
  {
  }

  /** The committed chunks; a missing log has none. */
  function Committed(log: Log): seq<Bytes> {
    if log.Log? then log.chunks else []
  }

  predicate OwnedBy(log: Log, runner: string) {
    log.NoLog? || log.runner == runner
  }

  predicate IsFinished(log: Log) {
    log.Log? && log.finished
  }

  /** The log holds these bytes at this number. */
  predicate Holds(log: Log, number: int, data: Bytes) {
    0 <= number < |Committed(log)| && Committed(log)[number] == data
  }

  /** What a runner hears of an append, and what the log is then. Its own unfinished log takes the next
      chunk, and accepts a committed one again without change; nothing else is accepted. */
  lemma AppendAnswers(before: Log, runner: string, number: int, data: Bytes, v: Verdict, after: Log)
    requires Appends(before, runner, number, data, Some(v), after)
    ensures v == IdentityConflict <==> !OwnedBy(before, runner)
    ensures v == AlreadyFinalized <==> OwnedBy(before, runner) && IsFinished(before)
    ensures v == Accepted <==>
      OwnedBy(before, runner) && !IsFinished(before) &&
      (number == |Committed(before)| || Holds(before, number, data))
    ensures v == SequenceGap <==> OwnedBy(before, runner) && !IsFinished(before) && number > |Committed(before)|
    ensures v == SequenceConflict <==>
      OwnedBy(before, runner) && !IsFinished(before) && number < |Committed(before)| && !Holds(before, number, data)
    ensures after.Log? && after.finished == IsFinished(before) && (before.Log? ==> after.runner == before.runner)
    ensures Committed(after) ==
      if v == Accepted && number == |Committed(before)| then Committed(before) + [data] else Committed(before)
  {
  }

  /** A chunk whose append stopped anywhere, without an answer, is accepted when it is sent again, and is
      in the log once. */
  lemma ResendCommitsOnce(
      before: Log, runner: string, data: Bytes, between: Log, v: Verdict, after: Log)
    requires OwnedBy(before, runner) && !IsFinished(before)
    requires Appends(before, runner, |Committed(before)|, data, None, between)
    requires Appends(between, runner, |Committed(before)|, data, Some(v), after)
    ensures v == Accepted && Committed(after) == Committed(before) + [data]
  {
    AppendAnswers(between, runner, |Committed(before)|, data, v, after);
  }

  /** What a completion may make of a log. */
  predicate Completes(
      before: Log, runner: string, r: CompleteRequest, manifest: bool, seal: bool, heard: Option<Verdict>, after: Log) {
    var log := Opened(before, runner);
    var verdict := CompleteVerdict(log, r, manifest, seal);
    var target := if verdict == Accepted then log.(finished := true) else log;
    if heard.Some? then heard.value == verdict && after == target
    else after == before || after == log || after == target
  }

  /** What a runner hears of a completion, and what the log is then. */
  lemma CompletionAnswers(
      before: Log, runner: string, r: CompleteRequest, manifest: bool, seal: bool, v: Verdict, after: Log)
    requires Completes(before, runner, r, manifest, seal, Some(v), after)
    ensures var whole := Flatten(Committed(before));
      var fits := r == CompleteRequest("combined", |Committed(before)| - 1, |whole|, Sha256(whole));
      (v == Accepted <==> fits && (IsFinished(before) || (!manifest && !seal))) &&
      (v == CompletionConflict <==> IsFinished(before) && !fits) &&
      (v == ManifestExists <==> !IsFinished(before) && manifest) &&
      (v == SealExists <==> !IsFinished(before) && !manifest && seal) &&
      (v == Mismatch <==> !IsFinished(before) && !manifest && !seal && !fits)
    ensures after.Log? && Committed(after) == Committed(before) && (IsFinished(after) <==> IsFinished(before) || v == Accepted)
  {
  }

  /** What a status request may be told of a log; a store that cannot read its files reports none. */
  predicate Reports(log: Log, status: (int, int)) {
    status == (0, 0) || (log.Log? && status == (|log.chunks|, |Flatten(log.chunks)|))
  }

  datatype AppendReply = Answered(verdict: Verdict, next: int, committed: int) | StorageError | Stopped
  datatype CompleteReply = Finished(verdict: Verdict, artifact: Option<Artifact>) | StorageError | Stopped
  datatype LogEvent = LogEvent(sequence: int, data: Bytes)
  datatype ReplayReply = Replayed(events: seq<LogEvent>, next: int) | WindowExceeded(next: int) | Unavailable | Stopped
  datatype Load = Loaded(l: LogStream) | Missing | Failing | Stopped

  /** The events of the chunks numbered after `after`. */
  function EventsAfter(chunks: seq<Bytes>, after: int): (events: seq<LogEvent>) {
    if |chunks| == 0 then []
    else
      var n := |chunks| - 1;
      EventsAfter(chunks[..n], after) + if n <= after then [] else [LogEvent(n, chunks[n])]
  }

  /** A replay after a number gives every later chunk, in order, each with its own number. */
  lemma {:induction false} EventsAreTheRest(chunks: seq<Bytes>, after: int)
    requires -1 <= after
    ensures var events := EventsAfter(chunks, after);
      |events| == (if after + 1 <= |chunks| then |chunks| - (after + 1) else 0) &&
      forall i :: 0 <= i < |events| ==> events[i] == LogEvent(after + 1 + i, chunks[after + 1 + i])
  {
    if |chunks| > 0 { EventsAreTheRest(chunks[..|chunks| - 1], after); }
  }

  /** A matching digest finishes the log unless a write fails first; any other digest changes nothing. */
  ghost predicate CompletionOutcome(log: Log, after: Log, request: CompleteRequest, r: CompleteReply, final: Option<Bytes>) {
    log.Log? &&
    (after == log || (after == log.(finished := true) && request.sum == Sha256(Flatten(log.chunks)))) &&
    (r.Finished? ==>
      if request.sum == Sha256(Flatten(log.chunks)) then
        after.Log? && after.finished && final == Some(Flatten(log.chunks)) &&
        r == Finished(Accepted, Some(Artifact(request.size, request.sum, true)))
      else r == Finished(Mismatch, None))
  }

  function Fault(o: Outcome): nat {
    if o == Done then 0 else 1
  }

  // ----- the single writes of an append and of a completion -----

  ghost predicate IsOpen(d: Disk) {
    Sound(d) && d.meta.Some? && d.meta.value.state == Open
  }

  lemma BodyGrows(d: Disk, bytes: Bytes)
    requires IsOpen(d) && BodyBytes(d) <= bytes
    ensures var e := d.(body := Some(bytes)); IsOpen(e) && Meaning(e) == Meaning(d)
  {
    var e := d.(body := Some(bytes));
    EndNonNegative(Lines(d));
    assert Lines(e) == Lines(d);
    assert bytes[..End(Lines(d))] == BodyBytes(d)[..End(Lines(d))];
    ChunksOfPrefix(Content(d), bytes, Lines(d));
  }

  lemma IndexTears(d: Disk, torn: bool)
    requires IsOpen(d)
    ensures var e := d.(index := Some(IndexFile(Lines(d), torn))); IsOpen(e) && Meaning(e) == Meaning(d)
  {
    assert Lines(d.(index := Some(IndexFile(Lines(d), torn)))) == Lines(d);
  }

  function RecordOf(d: Disk, data: Bytes): ChunkRecord {
    ChunkRecord(|Lines(d)|, End(Lines(d)), |data|, Sha256(data))
  }

  /** A complete index line is what commits a chunk. */
  lemma IndexCommits(d: Disk, data: Bytes)
    requires IsOpen(d) && Counted(d) && d.body.Some?
    requires 0 <= End(Lines(d)) <= |d.body.value| && d.body.value[End(Lines(d))..] == data
    ensures var e := d.(index := Some(IndexFile(Lines(d) + [RecordOf(d, data)], false)));
            IsOpen(e) && Meaning(e) == Extended(Meaning(d), data)
    ensures |d.body.value| == End(Lines(d) + [RecordOf(d, data)])
  {
    var lines := Lines(d);
    var more := lines + [RecordOf(d, data)];
    assert more[..|lines|] == lines;
    EndNonNegative(lines);
    assert d.body.value[End(lines)..End(more)] == data;
    assert more[..d.meta.value.next] == lines[..d.meta.value.next];
  }

  lemma MetaCounts(d: Disk)
    requires IsOpen(d)
    ensures var e := d.(meta := Some(d.meta.value.(next := |Lines(d)|, committed := End(Lines(d)))));
            IsOpen(e) && Meaning(e) == Meaning(d) && Counted(e) && Content(e) == Content(d)
  {
    assert Lines(d)[..|Lines(d)|] == Lines(d);
  }

  function WithBody(d: Disk, data: Bytes): Disk {
    d.(body := Some(BodyBytes(d) + data))
  }

  function WithIndex(d: Disk, data: Bytes): Disk {
    WithBody(d, data).(index := Some(IndexFile(Lines(d) + [RecordOf(d, data)], false)))
  }

  function WithMeta(d: Disk, data: Bytes): Disk
    requires d.meta.Some?
  {
    WithIndex(d, data).(meta := Some(d.meta.value.(next := |Lines(d)| + 1, committed := End(Lines(d)) + |data|)))
  }

  /** The files while a chunk is being written to a clean log, wherever the writing stops. */
  ghost predicate Appending(d: Disk, data: Bytes, p: Disk)
    requires d.meta.Some?
  {
    || p == d
    || (p.body.Some? && BodyBytes(d) <= p.body.value <= BodyBytes(d) + data && p == d.(body := p.body))
    || (exists torn :: p == WithBody(d, data).(index := Some(IndexFile(Lines(d), torn))))
    || p == WithIndex(d, data)
    || p == WithMeta(d, data)
  }

  lemma WithIndexCommits(d: Disk, data: Bytes)
    requires IsOpen(d) && Clean(d)
    ensures var e := WithIndex(d, data);
            IsOpen(e) && Meaning(e) == Extended(Meaning(d), data) &&
            0 <= End(Lines(d)) && |Content(e)| == End(Lines(e)) == End(Lines(d)) + |data|
  {
    var b := WithBody(d, data);
    EndNonNegative(Lines(d));
    BodyGrows(d, b.body.value);
    assert b.body.value[End(Lines(b))..] == data;
    IndexCommits(b, data);
    assert (Lines(d) + [RecordOf(d, data)])[..|Lines(d)|] == Lines(d);
  }

  lemma WithMetaIsClean(d: Disk, data: Bytes)
    requires IsOpen(d) && Clean(d)
    ensures var e := WithMeta(d, data);
            IsOpen(e) && Clean(e) && Meaning(e) == Extended(Meaning(d), data)
  {
    WithIndexCommits(d, data);
    MetaCounts(WithIndex(d, data));
  }

  lemma CleanCounts(d: Disk)
    requires Sound(d) && Clean(d) && d.meta.Some?
    ensures d.meta.value.next == |Meaning(d).chunks| && d.meta.value.committed == |Flatten(Meaning(d).chunks)|
    ensures Content(d) == Flatten(Meaning(d).chunks)
  {
    ChunksCoverContent(Content(d), Lines(d));
    assert Content(d)[..|Content(d)|] == Content(d);
  }

  /** Wherever it stops, the log holds its old chunks or those and the new one; a finished append
      leaves nothing outstanding. */
  lemma AppendingCommitsOnce(d: Disk, data: Bytes, p: Disk)
    requires IsOpen(d) && Clean(d) && Appending(d, data, p)
    ensures IsOpen(p) && p.artifacts == d.artifacts
    ensures Meaning(p) == Meaning(d) || Meaning(p) == Extended(Meaning(d), data)
    ensures p == WithMeta(d, data) ==>
      Clean(p) && Meaning(p) == Extended(Meaning(d), data) &&
      p.meta.value.next == |Meaning(p).chunks| && p.meta.value.committed == |Flatten(Meaning(p).chunks)|
  {
    if p == WithMeta(d, data) {
      WithMetaIsClean(d, data);
      CleanCounts(p);
    } else if p == d {
    } else if p == WithIndex(d, data) {
      WithIndexCommits(d, data);
    } else if p.body.Some? && BodyBytes(d) <= p.body.value && p == d.(body := p.body) {
      BodyGrows(d, p.body.value);
    } else {
      BodyGrows(d, WithBody(d, data).body.value);
      IndexTears(WithBody(d, data), p.index.value.torn);
    }
  }

  /** A clean log's record for a number carries the hash of the chunk with that number. */
  lemma RecordsMatchChunks(d: Disk)
    requires Sound(d) && d.meta.Some?
    ensures forall i :: 0 <= i < |Lines(d)| ==>
      Lines(d)[i].sequence == i && Lines(d)[i].sum == Sha256(Meaning(d).chunks[i])
  {
    forall i | 0 <= i < |Lines(d)| ensures Lines(d)[i].sequence == i { ContiguousAt(Lines(d), i); }
  }

  /** The states a completion passes through; `stage` counts the writes that have taken effect. */
  function Completing(d: Disk, id: Id, stage: nat): Disk
    requires d.meta.Some?
  {
    var bytes := BodyBytes(d);
    var a := Artifact(|bytes|, Sha256(bytes), stage >= 5);
    var m := d.meta.value.(
      state := if stage >= 6 then Completed else Finalizing,
      artifact := Some(id), finalSize := Some(|bytes|), finalSum := Some(a.sum));
    Disk(
      if stage == 0 then d.body else if stage < 4 then Some(bytes) else None,
      d.index,
      if stage < 3 then d.meta else Some(m),
      if stage < 2 then d.artifacts else d.artifacts[id := a],
      if stage < 4 then d.final else Some(bytes))
  }

  /** Before the rename the log is open with its body intact; from the rename on it is finished, and
      its artifact file holds exactly the committed bytes. */
  lemma CompletingIsSound(d: Disk, id: Id, stage: nat)
    requires IsOpen(d) && Clean(d)
    ensures var e := Completing(d, id, stage);
            Sound(e) && e.artifacts.Keys <= d.artifacts.Keys + {id} &&
            Meaning(e) == Meaning(d).(finished := stage >= 4) &&
            (stage >= 6 ==> Clean(e)) &&
            if stage >= 4 then e.body.None? && e.final == Some(Flatten(Meaning(d).chunks))
            else Content(e) == Content(d) && e.final.None?
  {
    var e, lines := Completing(d, id, stage), Lines(d);
    CleanCounts(d);
    assert Lines(e) == lines;
    assert Content(e) == Content(d) == BodyBytes(d);
    assert lines[..|lines|] == lines;
  }

  class Store {
    var disk: Disk
    var marker: bool    // this log's entry in logRecovery
    var up: bool        // false between a process stop and the next start
    var nextId: nat     // source of artifact identities that are never reused
    ghost var faults: nat  // file operations that did not succeed so far

    ghost predicate Valid()
      reads this
    {
      Sound(disk) && (up && !marker ==> Clean(disk)) && forall id :: id in disk.artifacts ==> id < nextId
    }

    ghost function Meant(): Log
      reads this
      requires Valid()
    {
      Meaning(disk)
    }

    constructor ()
      ensures Valid() && up && Meant() == NoLog
    {
      disk, marker, up, nextId, faults := EMPTY_DISK, false, true, 0, 0;
    }

    // ----- file operations: each may succeed, fail, or be cut short by a process stop -----

    /** A rename, a truncation, or a replacement of a whole file: it happens entirely or not at all. */
    method Apply(after: Disk) returns (o: Outcome)
      requires up
      modifies this`disk, this`up, this`faults
      ensures up == (o != Crash) && faults == old(faults) + Fault(o)
      ensures o == Done ==> disk == after
      ensures o == Error ==> disk == old(disk)
      ensures o == Crash ==> disk == old(disk) || disk == after
    {
      o := *;
      var effect: bool := *;
      if o == Done || (o == Crash && effect) { disk := after; }
      up, faults := o != Crash, faults + Fault(o);
    }

    method WriteMeta(l: LogStream) returns (o: Outcome)
      requires up
      modifies this`disk, this`up, this`faults
      ensures up == (o != Crash) && faults == old(faults) + Fault(o)
      ensures o == Done ==> disk == old(disk).(meta := Some(l))
      ensures o == Error ==> disk == old(disk)
      ensures o == Crash ==> disk == old(disk) || disk == old(disk).(meta := Some(l))
    {
      o := Apply(disk.(meta := Some(l)));
    }

    /** Creates the body if needed and appends to it; a failed write may leave a part of the data. */
    method AppendBody(data: Bytes) returns (o: Outcome)
      requires up
      modifies this`disk, this`up, this`faults
      ensures up == (o != Crash) && faults == old(faults) + Fault(o)
      ensures disk == old(disk) ||
              (disk.body.Some? && disk == old(disk).(body := disk.body) &&
               BodyBytes(old(disk)) <= disk.body.value <= BodyBytes(old(disk)) + data)
      ensures o == Done ==> disk == old(disk).(body := Some(BodyBytes(old(disk)) + data))
    {
      o := *;
      var kept: int := *;
      var created: bool := *;
      if o == Done {
        disk := disk.(body := Some(BodyBytes(disk) + data));
      } else if created && 0 <= kept <= |data| {
        disk := disk.(body := Some(BodyBytes(disk) + data[..kept]));
      }
      up, faults := o != Crash, faults + Fault(o);
    }

    /** Creates the index if needed and appends a line; a failed write may leave a torn line. */
    method AppendIndex(rec: ChunkRecord) returns (o: Outcome)
      requires up && (disk.index.Some? ==> !disk.index.value.torn)
      modifies this`disk, this`up, this`faults
      ensures up == (o != Crash) && faults == old(faults) + Fault(o)
      ensures disk == old(disk) ||
              (exists torn :: disk == old(disk).(index := Some(IndexFile(Lines(old(disk)), torn)))) ||
              disk == old(disk).(index := Some(IndexFile(Lines(old(disk)) + [rec], false)))
      ensures o == Done ==> disk == old(disk).(index := Some(IndexFile(Lines(old(disk)) + [rec], false)))
    {
      o := *;
      var created, whole, torn: bool := *, *, *;
      if o == Done || (created && whole) {
        disk := disk.(index := Some(IndexFile(Lines(disk) + [rec], false)));
      } else if created {
        disk := disk.(index := Some(IndexFile(Lines(disk), torn)));
      }
      up, faults := o != Crash, faults + Fault(o);
    }

    // ----- recovery and loading -----

    /** Checks the index lines in order, as far as they are contiguous. */
    static method ScanIndex(lines: seq<ChunkRecord>) returns (ok: bool, next: int, offset: int)
      ensures ok <==> Contiguous(lines)
      ensures ok ==> next == |lines| && offset == End(lines) >= 0
    {
      next, offset := 0, 0;
      ok := true;
      while next < |lines|
        invariant 0 <= next <= |lines| && Contiguous(lines[..next]) && offset == End(lines[..next]) >= 0
      {
        var rec := lines[next];
        assert lines[..next + 1][..next] == lines[..next];
        if rec.sequence != next || rec.start != offset || rec.size < 0 {
          if Contiguous(lines) { ContiguousPrefix(lines, next + 1); }
          return false, next, offset;
        }
        next, offset := next + 1, offset + rec.size;
      }
      assert lines[..|lines|] == lines;
    }

    /** Repairs the files whatever state they are in; the verdict on hopeless files is Failed. */
    method RecoverLog() returns (o: Outcome)
      requires up && disk.meta.Some?
      modifies this`disk, this`up, this`faults
      ensures up == (o != Crash) && faults == old(faults) + Fault(o)
      ensures o == Done ==> disk == Recovered(old(disk))
      ensures PartlyRecovered(old(disk), disk)
    {
      var l := disk.meta.value;
      if l.state == Failed { return Done; }
      if l.state == Finalizing && l.artifact.Some? {
        var id := l.artifact.value;
        if Published(disk, id) {
          o := Apply(disk.(artifacts := disk.artifacts[id := disk.artifacts[id].(completed := true)]));
          if o != Done { return; }
          o := WriteMeta(l.(state := Completed));
          return;
        }
        if disk.body.Some? {
          o := WriteMeta(l.(state := Open, artifact := None, finalSize := None, finalSum := None));
          return;
        }
      }
      if l.state == Completed && l.artifact.Some? {
        if Published(disk, l.artifact.value) { return Done; }
        o := WriteMeta(l.(state := Failed));
        return;
      }
      if disk.index.Some? && disk.index.value.torn {
        o := Apply(CutTorn(disk));
        if o != Done { return; }
      }
      assert disk == CutTorn(old(disk));
      var ok, next, offset := ScanIndex(Lines(disk));
      if !ok {
        o := WriteMeta(l.(state := Failed));
        return;
      }
      o := RecoverBody(l, next, offset);
    }

    /** The second half of recovery, once the index is known to be contiguous: the body is cut to what
        the index describes, then the counters follow. */
    method RecoverBody(l: LogStream, next: int, offset: int) returns (o: Outcome)
      requires up && disk.meta == Some(l)
      requires Contiguous(Lines(disk)) && next == |Lines(disk)| && offset == End(Lines(disk)) >= 0
      modifies this`disk, this`up, this`faults
      ensures up == (o != Crash) && faults == old(faults) + Fault(o)
      ensures o == Done ==> disk == RecoveredIndex(old(disk))
      ensures disk == old(disk) || disk == RecoveredIndex(old(disk)) ||
        (l.state == Open && old(disk).body.Some? && offset <= |old(disk).body.value| &&
         disk == old(disk).(body := Some(old(disk).body.value[..offset])))
    {
      if disk.body.None? && offset == 0 { return Done; }
      if disk.body.None? || |disk.body.value| < offset {
        o := WriteMeta(l.(state := Failed));
        return;
      }
      if l.state == Open && |disk.body.value| > offset {
        o := Apply(disk.(body := Some(disk.body.value[..offset])));
        if o != Done { return; }
      }
      assert l.state == Open ==> disk.body.value == old(disk).body.value[..offset];
      if l.state == Open && (l.next != next || l.committed != offset) {
        o := WriteMeta(l.(next := next, committed := offset));
        return;
      }
      return Done;
    }

    /** Recovery of files in a state the protocol can leave them in. */
    method Repair() returns (o: Outcome)
      requires up && Sound(disk) && disk.meta.Some?
      modifies this`disk, this`up, this`faults
      ensures up == (o != Crash) && faults == old(faults) + Fault(o)
      ensures Sound(disk) && disk.meta.Some? && Meaning(disk) == Meaning(old(disk))
      ensures disk.artifacts.Keys == old(disk).artifacts.Keys && (o == Done ==> Clean(disk))
    {
      ghost var d := disk;
      o := RecoverLog();
      PartialRecovery(d, disk);
      if o == Done { RecoveryKeepsMeaning(d); }
    }

    /** A process start: recovery runs before the store serves requests. */
    method Start() returns (o: Outcome)
      requires Valid() && !up
      modifies this
      ensures Valid() && Meant() == old(Meant()) && up == (o == Done) && (up ==> Clean(disk))
      ensures faults == old(faults) ==> up
    {
      up, marker := true, false;
      o := Done;
      if disk.meta.Some? { o := Repair(); }
      up := o == Done;
    }

    method LoadLog() returns (r: Load)
      requires Valid() && up
      modifies this
      ensures Valid() && Meant() == old(Meant()) && nextId == old(nextId) && up == !r.Stopped?
      ensures r.Missing? ==> disk.meta.None? && disk == old(disk)
      ensures faults == old(faults) <==> r.Loaded? || r.Missing?
      ensures r.Loaded? ==> disk.meta == Some(r.l) && Clean(disk) && !marker
    {
      if disk.meta.None? { return Missing; }
      if marker || disk.meta.value.state == Finalizing {
        var o := Repair();
        if o == Crash { return Load.Stopped; }
        marker := o == Error;
        if o == Error { return Failing; }
      }
      return Loaded(disk.meta.value);
    }

    method LoadOrCreateLog(runner: string) returns (r: Load)
      requires Valid() && up
      modifies this
      ensures Valid() && nextId == old(nextId) && up == !r.Stopped?
      ensures Meant() == old(Meant()) || Meant() == Opened(old(Meant()), runner)
      ensures r.Loaded? ==>
        disk.meta == Some(r.l) && Clean(disk) && !marker && Meant() == Opened(old(Meant()), runner)
      ensures !r.Missing? && (faults == old(faults) <==> r.Loaded?)
    {
      r := LoadLog();
      if !r.Missing? { return; }
      var l := LogStream(runner, Open, 0, 0, None, None, None);
      var o := WriteMeta(l);
      if o == Crash { return Load.Stopped; }
      if o == Error { return Failing; }
      marker := false;
      return Loaded(l);
    }

    /** The first record with this number. */
    static method FindLogRecord(lines: seq<ChunkRecord>, number: int) returns (found: Option<ChunkRecord>)
      ensures found.Some? ==> exists i :: 0 <= i < |lines| && found.value == lines[i] && lines[i].sequence == number
      ensures found.None? ==> forall i :: 0 <= i < |lines| ==> lines[i].sequence != number
    {
      for i := 0 to |lines|
        invariant forall k :: 0 <= k < i ==> lines[k].sequence != number
      {
        if lines[i].sequence == number { return Some(lines[i]); }
      }
      return None;
    }

    /** The writes of an accepted chunk: body, index, metadata. */
    method CommitChunk(data: Bytes, sum: Digest) returns (o: Outcome)
      requires up && disk.meta.Some? && disk.meta.value.state == Open && Counted(disk) && sum == Sha256(data)
      requires disk.index.Some? ==> !disk.index.value.torn
      modifies this`disk, this`up, this`marker, this`faults
      ensures up == (o != Crash) && faults == old(faults) + Fault(o) && Appending(old(disk), data, disk)
      ensures o == Done ==> disk == WithMeta(old(disk), data) && !marker
      ensures o == Error ==> marker
    {
      var l := disk.meta.value;
      marker := true;
      o := AppendBody(data);
      if o != Done { return; }
      o := AppendIndex(ChunkRecord(l.next, l.committed, |data|, sum));
      if o != Done { return; }
      o := WriteMeta(l.(next := l.next + 1, committed := l.committed + |data|));
      if o != Done { return; }
      marker := false;
    }

    /** Looks up an earlier chunk: it repeats the request exactly when it has the same bytes. */
    method IsRepeat(number: int, data: Bytes, sum: Digest) returns (same: bool)
      requires Valid() && disk.meta.Some? && sum == Sha256(data) && number < |Meant().chunks|
      ensures same <==> 0 <= number && Meant().chunks[number] == data
    {
      RecordsMatchChunks(disk);
      var rec := FindLogRecord(Lines(disk), number);
      return rec.Some? && rec.value.sum == sum;
    }

    /** Appends one chunk. Whatever fails, the log holds either its old chunks or those and this one;
        an answer is the verdict on the log as it was. */
    method AppendLog(runner: string, number: int, data: Bytes, sum: Digest) returns (r: AppendReply)
      requires Valid() && up
      requires sum == Sha256(data)  // checked by the handler before the call
      modifies this
      ensures Valid() && up == !r.Stopped? && (faults == old(faults) <==> r.Answered?)
      ensures Appends(old(Meant()), runner, number, data, if r.Answered? then Some(r.verdict) else None, Meant())
      ensures r.Answered? ==> r.next == |Meant().chunks| && r.committed == |Flatten(Meant().chunks)|
    {
      var load := LoadOrCreateLog(runner);
      if load.Stopped? { return AppendReply.Stopped; }
      if !load.Loaded? { return AppendReply.StorageError; }
      ghost var log := Meant();
      r := AppendLoaded(runner, number, data, sum);
      OpenedAppends(old(Meant()), log, runner, number, data, if r.Answered? then Some(r.verdict) else None, Meant());
    }

    /** The checks and the writes of an append, once the log is loaded. */
    method AppendLoaded(runner: string, number: int, data: Bytes, sum: Digest) returns (r: AppendReply)
      requires Valid() && up && disk.meta.Some? && Clean(disk) && sum == Sha256(data)
      modifies this`disk, this`up, this`marker, this`faults
      ensures Valid() && up == !r.Stopped? && (faults == old(faults) <==> r.Answered?)
      ensures Appends(old(Meant()), runner, number, data, if r.Answered? then Some(r.verdict) else None, Meant())
      ensures r.Answered? ==> r.next == |Meant().chunks| && r.committed == |Flatten(Meant().chunks)|
    {
      var l := disk.meta.value;
      CleanCounts(disk);
      if l.runner != runner { return Answered(IdentityConflict, l.next, l.committed); }
      if l.state != Open { return Answered(AlreadyFinalized, l.next, l.committed); }
      if number < l.next {
        var same := IsRepeat(number, data, sum);
        return Answered(if same then Accepted else SequenceConflict, l.next, l.committed);
      }
      if number > l.next { return Answered(SequenceGap, l.next, l.committed); }
      r := AppendNext(data, sum);
    }

    /** The writes of an accepted chunk, and what they mean. */
    method CommitNext(data: Bytes, sum: Digest) returns (o: Outcome)
      requires up && IsOpen(disk) && Clean(disk) && sum == Sha256(data)
      modifies this`disk, this`up, this`marker, this`faults
      ensures up == (o != Crash) && faults == old(faults) + Fault(o) && (o == Error ==> marker)
      ensures IsOpen(disk) && disk.artifacts == old(disk).artifacts
      ensures var log, more := Meaning(old(disk)), Extended(Meaning(old(disk)), data);
        (Meaning(disk) == log || Meaning(disk) == more) &&
        (o == Done ==> Meaning(disk) == more && Clean(disk) && !marker)
      ensures o == Done ==>
        disk.meta.value.next == |Meaning(disk).chunks| &&
        disk.meta.value.committed == |Flatten(Meaning(disk).chunks)|
    {
      ghost var d := disk;
      o := CommitChunk(data, sum);
      AppendingCommitsOnce(d, data, disk);
    }

    method AppendNext(data: Bytes, sum: Digest) returns (r: AppendReply)
      requires Valid() && up && IsOpen(disk) && Clean(disk) && sum == Sha256(data)
      modifies this`disk, this`up, this`marker, this`faults
      ensures Valid() && up == !r.Stopped? && (faults == old(faults) <==> r.Answered?)
      ensures var more := Extended(old(Meant()), data);
        (Meant() == old(Meant()) || Meant() == more) &&
        (r.Answered? ==> Meant() == more && r == Answered(Accepted, |Meant().chunks|, |Flatten(Meant().chunks)|))
    {
      var o := CommitNext(data, sum);
      match o
      case Done => return Answered(Accepted, disk.meta.value.next, disk.meta.value.committed);
      case Error => return AppendReply.StorageError;
      case Crash => return AppendReply.Stopped;
    }

    /** Turns the log into an artifact. An answer is the verdict on the log as it was; whatever fails,
        the log is either as it was or finished with an artifact equal to the committed bytes. */
    method CompleteLog(runner: string, request: CompleteRequest, manifest: bool, seal: bool) returns (r: CompleteReply)
      requires Valid() && up
      modifies this
      ensures Valid() && up == !r.Stopped? && (faults == old(faults) <==> r.Finished?)
      ensures Completes(old(Meant()), runner, request, manifest, seal, if r.Finished? then Some(r.verdict) else None, Meant())
      ensures r.Finished? && r.verdict == Accepted ==>
        r.artifact == Some(Artifact(request.size, request.sum, true)) &&
        disk.final == Some(Flatten(Meant().chunks))
    {
      var load := LoadOrCreateLog(runner);
      if load.Stopped? { return CompleteReply.Stopped; }
      if !load.Loaded? { return CompleteReply.StorageError; }
      var l := load.l;
      CleanCounts(disk);
      if l.state == Completed {
        if request.stream != "combined" || l.next != request.last + 1 || l.finalSize.None? ||
           l.finalSize.value != request.size || l.finalSum != Some(request.sum)
        {
          return Finished(CompletionConflict, None);
        }
        return Finished(Accepted, Some(disk.artifacts[l.artifact.value]));
      }
      if manifest { return Finished(ManifestExists, None); }
      if seal { return Finished(SealExists, None); }
      if request.stream != "combined" || l.next != request.last + 1 || l.committed != request.size {
        return Finished(Mismatch, None);
      }
      r := CompleteOpen(request);
    }

    /** The digest check and the writes for a request whose numbers match. */
    method CompleteOpen(request: CompleteRequest) returns (r: CompleteReply)
      requires Valid() && up && IsOpen(disk) && Clean(disk)
      requires request.size == |Flatten(Meant().chunks)|
      modifies this
      ensures Valid() && up == !r.Stopped? && (faults == old(faults) <==> r.Finished?)
      ensures CompletionOutcome(old(Meant()), Meant(), request, r, disk.final)
    {
      var id := nextId;
      nextId := nextId + 1;
      r := WriteCompletion(id, request);
    }

    method WriteCompletion(id: Id, request: CompleteRequest) returns (r: CompleteReply)
      requires up && IsOpen(disk) && Clean(disk) && request.size == |Flatten(Meaning(disk).chunks)|
      modifies this`disk, this`up, this`marker, this`faults
      ensures up == !r.Stopped? && (faults == old(faults) <==> r.Finished?)
      ensures Sound(disk) && disk.artifacts.Keys <= old(disk).artifacts.Keys + {id}
      ensures up && !marker ==> Clean(disk)
      ensures CompletionOutcome(Meaning(old(disk)), Meaning(disk), request, r, disk.final)
    {
      ghost var d := disk;
      CleanCounts(d);
      var o := EnsureBody();
      ghost var stage: nat := if disk == d then 0 else 1;
      CompletingIsSound(d, id, stage);
      if o == Crash { return CompleteReply.Stopped; }
      if o == Error { return CompleteReply.StorageError; }
      if Sha256(disk.body.value) != request.sum { return Finished(Mismatch, None); }
      o, stage := Finalize(id, request.size, request.sum, d);
      CompletingIsSound(d, id, stage);
      if o == Crash { return CompleteReply.Stopped; }
      if o == Error { return CompleteReply.StorageError; }
      return Finished(Accepted, Some(disk.artifacts[id]));
    }

    /** An empty log has no body file yet. */
    method EnsureBody() returns (o: Outcome)
      requires up && disk.meta.Some?
      modifies this`disk, this`up, this`faults
      ensures up == (o != Crash) && faults == old(faults) + Fault(o)
      ensures disk in {Completing(old(disk), 0, 0), Completing(old(disk), 0, 1)}
      ensures o == Done ==> disk == Completing(old(disk), 0, 1)
    {
      if disk.body.Some? { return Done; }
      o := AppendBody([]);
    }

    /** The writes of a completion, in order, and how many of them took effect. */
    method Finalize(id: Id, size: int, sum: Digest, ghost d: Disk) returns (o: Outcome, ghost stage: nat)
      requires up && d.meta.Some? && disk == Completing(d, id, 1)
      requires size == |BodyBytes(d)| && sum == Sha256(BodyBytes(d)) && d.meta.value.state == Open
      modifies this`disk, this`up, this`marker, this`faults
      ensures up == (o != Crash) && faults == old(faults) + Fault(o) && disk == Completing(d, id, stage)
      ensures o == Done ==> stage == 6 && !marker
      ensures o == Error ==> marker
    {
      var l := disk.meta.value;
      var a := Artifact(size, sum, false);
      marker := true;
      stage := 1;
      o := Apply(disk.(artifacts := disk.artifacts[id := a]));
      if disk == Completing(d, id, 2) { stage := 2; }
      if o != Done { return; }
      l := l.(state := Finalizing, artifact := Some(id), finalSize := Some(size), finalSum := Some(sum));
      o := WriteMeta(l);
      if disk == Completing(d, id, 3) { stage := 3; }
      if o != Done { return; }
      o := Apply(disk.(body := None, final := disk.body));
      if disk == Completing(d, id, 4) { stage := 4; }
      if o != Done { return; }
      o := Apply(disk.(artifacts := disk.artifacts[id := a.(completed := true)]));
      if disk == Completing(d, id, 5) { stage := 5; }
      if o != Done { return; }
      o := WriteMeta(l.(state := Completed));
      if disk == Completing(d, id, 6) { stage := 6; }
      if o != Done { return; }
      marker := false;
    }

    /** What a runner is told about the log; a store that cannot read its files reports an empty log. */
    method Status() returns (next: int, committed: int)
      requires Valid() && up
      modifies this
      ensures Valid() && Meant() == old(Meant())
      ensures Reports(Meant(), (next, committed))
      ensures Meant().Log? && faults == old(faults) ==> next == |Meant().chunks| && committed == |Flatten(Meant().chunks)|
    {
      var load := LoadLog();
      if !load.Loaded? { return 0, 0; }
      CleanCounts(disk);
      return load.l.next, load.l.committed;
    }

    /** Replays the chunks after a given number, from the body or, once completed, from the artifact. */
    method ReplayLog(after: int, limit: nat) returns (r: ReplayReply)
      requires Valid() && up
      modifies this
      ensures Valid() && Meant() == old(Meant()) && up == !r.Stopped?
      ensures r.Replayed? ==> Meant().Log? && r.next == |Meant().chunks| && r.events == EventsAfter(Meant().chunks, after)
      ensures r.WindowExceeded? ==> Meant().Log? && r.next == |Meant().chunks| && (after + 1 < 0 || after + 1 < r.next - limit)
      ensures r.Replayed? ==> after + 1 >= 0 && after + 1 >= r.next - limit
      ensures r.Unavailable? || r.Stopped? ==> faults != old(faults) || Committed(Meant()) == []
    {
      var load := LoadLog();
      if load.Stopped? { return ReplayReply.Stopped; }
      if !load.Loaded? { return Unavailable; }
      var l := load.l;
      CleanCounts(disk);
      var first := if l.next - limit < 0 then 0 else l.next - limit;
      if after + 1 < first { return WindowExceeded(l.next); }
      if (disk.body.None? && disk.final.None?) || disk.index.None? { return Unavailable; }
      var body := if l.state == Completed then disk.final.value else disk.body.value;
      var events := ReadEvents(body, Lines(disk), after);
      return Replayed(events, l.next);
    }

    /** Reads the slice of the body behind each later index line. */
    static method ReadEvents(body: Bytes, lines: seq<ChunkRecord>, after: int) returns (events: seq<LogEvent>)
      requires Contiguous(lines) && End(lines) <= |body|
      ensures events == EventsAfter(Chunks(body, lines), after)
    {
      events := [];
      ghost var chunks := Chunks(body, lines);
      for i := 0 to |lines|
        invariant events == EventsAfter(chunks[..i], after)
      {
        var rec := lines[i];
        ContiguousAt(lines, i);
        ChunksAt(body, lines, i);
        assert chunks[..i + 1][..i] == chunks[..i];
        if rec.sequence > after {
          events := events + [LogEvent(rec.sequence, body[rec.start..rec.start + rec.size])];
        }
      }
      assert chunks[..|lines|] == chunks;
    }
  }

  // ----- repeating a completion -----

  /** One completion that stopped after `stage` writes, and the recovery that followed it; a log that is
      finished is not written again. */
  function Attempted(d: Disk, id: Id, stage: nat): Disk
    requires d.meta.Some?
  {
    if d.meta.value.state == Open then Recovered(Completing(d, id, stage)) else d
  }

  /** A log on which the request is a good one: open or finished, with nothing outstanding. */
  ghost predicate Completable(d: Disk, r: CompleteRequest) {
    Sound(d) && Clean(d) && d.meta.Some? && Describes(r, Meaning(d))
  }

  /** After a completion that stopped anywhere and its recovery, the log has the same chunks and is
      either finished, with an artifact of exactly those bytes, or open, and then the writes of the
      repeated request finish it like that. */
  lemma AttemptConverges(d: Disk, r: CompleteRequest, id: Id, stage: nat)
    requires Completable(d, r) && d.meta.value.state == Open
    ensures var e := Attempted(d, id, stage);
      Completable(e, r) && Meaning(e) == Meaning(d).(finished := stage >= 4) &&
      (stage >= 4 <==> e.meta.value.state == Completed) && (stage < 4 <==> IsOpen(e)) &&
      (stage >= 4 ==> Delivered(e, r, id))
    ensures stage >= 6 ==> Attempted(d, id, stage) == Completing(d, id, stage)
  {
    var p := Completing(d, id, stage);
    CompletingIsSound(d, id, stage);
    RecoveryKeepsMeaning(p);
    CleanCounts(d);
    if stage >= 6 { CleanIsRecovered(p); }
    assert Described(p) || stage < 3;
  }

  /** The artifact is completed, is the one requested, and its file holds exactly the committed bytes. */
  ghost predicate Delivered(d: Disk, r: CompleteRequest, id: Id)
    requires Sound(d)
  {
    d.meta.Some? && d.meta.value.state == Completed && d.meta.value.artifact == Some(id) &&
    id in d.artifacts && d.artifacts[id] == Artifact(r.size, r.sum, true) &&
    Meaning(d).finished && d.final == Some(Flatten(Meaning(d).chunks))
  }

  /** The log after a series of attempts, each with the identity of its artifact and where it stopped. */
  function AfterAttempts(d: Disk, attempts: seq<(Id, nat)>): (e: Disk)
    requires d.meta.Some?
    ensures e.meta.Some?
    decreases |attempts|
  {
    if |attempts| == 0 then d else AfterAttempts(Attempted(d, attempts[0].0, attempts[0].1), attempts[1..])
  }

  ghost predicate Renames(attempts: seq<(Id, nat)>) {
    exists i :: 0 <= i < |attempts| && attempts[i].1 >= 4
  }

  /** The log is d's, finished or still open, and the request still describes it. */
  ghost predicate Converged(d: Disk, r: CompleteRequest, e: Disk, finished: bool)
    requires Sound(d) && Meaning(d).Log?
  {
    Completable(e, r) && Meaning(e) == Meaning(d).(finished := finished) &&
    if finished then e.meta.value.state == Completed && exists id :: Delivered(e, r, id) else IsOpen(e)
  }

  lemma {:induction false} AttemptsConverge(d: Disk, r: CompleteRequest, e: Disk, finished: bool, attempts: seq<(Id, nat)>)
    requires Sound(d) && Meaning(d).Log? && Converged(d, r, e, finished)
    ensures Converged(d, r, AfterAttempts(e, attempts), finished || Renames(attempts))
    decreases |attempts|
  {
    if |attempts| > 0 {
      var (id, stage) := attempts[0];
      FirstRenames(attempts);
      NextConverges(d, r, e, finished, id, stage);
      AttemptsConverge(d, r, Attempted(e, id, stage), finished || stage >= 4, attempts[1..]);
    }
  }

  lemma NothingConverges(d: Disk, r: CompleteRequest)
    requires Completable(d, r) && d.meta.value.state == Open
    ensures Converged(d, r, d, false)
  {
    assert Meaning(d).(finished := false) == Meaning(d);
  }

  lemma NextConverges(d: Disk, r: CompleteRequest, e: Disk, finished: bool, id: Id, stage: nat)
    requires Sound(d) && Meaning(d).Log? && Converged(d, r, e, finished)
    ensures Converged(d, r, Attempted(e, id, stage), finished || stage >= 4)
  {
    if !finished { AttemptConverges(e, r, id, stage); }
  }

  /** However often a completion stops and wherever, the same request is accepted again, the log never
      loses or gains a chunk, and it is finished exactly when one attempt has got to its rename. */
  lemma CompletionConverges(d: Disk, r: CompleteRequest, attempts: seq<(Id, nat)>)
    requires Sound(d) && Clean(d) && d.meta.Some? && d.meta.value.state == Open
    requires CompleteVerdict(Meaning(d), r, false, false) == Accepted
    ensures var e := AfterAttempts(d, attempts);
      Converged(d, r, e, Renames(attempts)) && CompleteVerdict(Meaning(e), r, false, false) == Accepted &&
      (Renames(attempts) ==> forall manifest, seal :: CompleteVerdict(Meaning(e), r, manifest, seal) == Accepted)
  {
    NothingConverges(d, r);
    AttemptsConverge(d, r, d, false, attempts);
  }

  lemma FirstRenames(attempts: seq<(Id, nat)>)
    requires |attempts| > 0
    ensures Renames(attempts) <==> attempts[0].1 >= 4 || Renames(attempts[1..])
  {
    if Renames(attempts[1..]) {
      var i :| 0 <= i < |attempts| - 1 && attempts[1..][i].1 >= 4;
      assert attempts[i + 1].1 >= 4;
    }
    if Renames(attempts) && attempts[0].1 < 4 {
      var i :| 0 <= i < |attempts| && attempts[i].1 >= 4;
      assert attempts[1..][i - 1].1 >= 4;
    }
  }

  /** The next attempt that is not stopped finishes the log, with an artifact of the committed bytes. */
  lemma CompletionFinishes(d: Disk, r: CompleteRequest, attempts: seq<(Id, nat)>, id: Id)
    requires Sound(d) && Clean(d) && d.meta.Some? && d.meta.value.state == Open
    requires CompleteVerdict(Meaning(d), r, false, false) == Accepted
    ensures var e := AfterAttempts(d, attempts + [(id, 6)]);
      Converged(d, r, e, true) && e.final == Some(Flatten(Meaning(d).chunks))
  {
    var all := attempts + [(id, 6)];
    assert all[|attempts|].1 >= 4;
    NothingConverges(d, r);
    AttemptsConverge(d, r, d, false, all);
  }
}
