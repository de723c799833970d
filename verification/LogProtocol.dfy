/** The runner's sink and the server's log connected by a network that may lose, delay and repeat
    requests, where both sides may stop and restart at any moment. */
module LogProtocol {
  import opened Core
  import opened LogStore
  import opened LogSink

  /** A chunk request. */
  type Chunk = (nat, Bytes)

  /** Everything that was ever sent stays in the network: a request may arrive at any time, any number
      of times, or never. */
  datatype World = World(
    spool: Bytes, sink: Option<Sink>, server: Log,
    sent: set<Chunk>, accepted: set<Chunk>, statuses: set<(nat, nat)>,
    closings: set<CompleteRequest>, granted: set<CompleteRequest>)

  datatype Step =
    | SinkOpens | SinkStops | SinkWrites(p: Bytes) | SinkBegins(status: (nat, nat)) | SinkTakes(flush: bool)
    | SinkConfirms | SinkFails | SinkCloses | SinkRequestsCompletion
    | ServerReports(status: (nat, nat)) | ServerReceives(chunk: Chunk, heard: Option<Verdict>)
    | ServerCloses(request: CompleteRequest, manifest: bool, seal: bool, heard: Option<Verdict>)

  datatype Config = Config(runner: string, chunkSize: nat)

  predicate Initial(w: World) {
    w == World([], None, NoLog, {}, {}, {}, {}, {})
  }

  /** What the sink's methods do, with the messages they send. */
  predicate SinkNext(c: Config, w: World, step: Step, v: World)
    requires w.sink.Some?
  {
    var s := w.sink.value;
    match step
    case SinkWrites(p) =>
      !s.closing && v == w.(spool := w.spool + p, sink := Some(s.(produced := s.produced + |p|)))
    case SinkBegins(status) =>
      s.phase.Querying? && status in w.statuses && v == w.(sink := Some(Begun(s, status.0, status.1)))
    case SinkTakes(flush) =>
      s.phase.Idle? && s.uploaded <= s.produced <= |w.spool| &&
      var t := Taken(s, w.spool, c.chunkSize, flush);
      v == w.(sink := Some(t), sent := if t.phase.Sending? then w.sent + {(s.next, t.phase.data)} else w.sent)
    case SinkConfirms =>
      s.phase.Sending? && (s.next, s.phase.data) in w.accepted && v == w.(sink := Some(Confirmed(s)))
    case SinkFails => v == w.(sink := Some(s.(phase := Broken)))
    case SinkCloses => v == w.(sink := Some(s.(closing := true)))
    case SinkRequestsCompletion =>
      s.phase.Drained? && v == w.(closings := w.closings + {CompletionOf(s, w.spool)})
    case _ => false
  }

  /** What the store's methods guarantee, in terms of the meaning of its files: these are the predicates
      of their contracts. A server restart keeps that meaning, so it is no step of its own. */
  predicate ServerNext(c: Config, w: World, step: Step, v: World) {
    match step
    case ServerReports(status) =>
      Reports(w.server, status) && v == w.(statuses := w.statuses + {status})
    case ServerReceives(chunk, heard) =>
      chunk in w.sent && Appends(w.server, c.runner, chunk.0, chunk.1, heard, v.server) &&
      v == w.(server := v.server, accepted := if heard == Some(Accepted) then w.accepted + {chunk} else w.accepted)
    case ServerCloses(request, manifest, seal, heard) =>
      request in w.closings && Completes(w.server, c.runner, request, manifest, seal, heard, v.server) &&
      v == w.(server := v.server, granted := if heard == Some(Accepted) then w.granted + {request} else w.granted)
    case _ => false
  }

  predicate Next(c: Config, w: World, step: Step, v: World) {
    match step
    case SinkOpens => v == w.(sink := Some(Opening(w.spool)))
    case SinkStops => v == w.(sink := None)
    case _ => ServerNext(c, w, step, v) || (w.sink.Some? && SinkNext(c, w, step, v))
  }

  ghost predicate IsRun(c: Config, run: seq<World>, steps: seq<Step>) {
    c.chunkSize > 0 && |run| == |steps| + 1 && Initial(run[0]) &&
    forall i :: 0 <= i < |steps| ==> Next(c, run[i], steps[i], run[i + 1])
  }

  // ----- the invariant -----

  /** The server has (at least) q chunks and the first q of them are o bytes long. */
  ghost predicate Position(server: Log, q: nat, o: nat) {
    (q == 0 && o == 0) ||
    (server.Log? && q <= |server.chunks| && |Flatten(server.chunks[..q])| == o)
  }

  ghost predicate FromSpool(w: World, chunk: Chunk, o: nat) {
    Position(w.server, chunk.0, o) && o + |chunk.1| <= |w.spool| && chunk.1 == w.spool[o..o + |chunk.1|]
  }

  /** No chunk is empty, neither on its way nor in the log. */
  ghost predicate NoneEmpty(w: World) {
    (forall chunk :: chunk in w.sent ==> chunk.1 != []) &&
    (w.server.Log? ==> forall i :: 0 <= i < |w.server.chunks| ==> w.server.chunks[i] != [])
  }

  ghost predicate ServerInvariant(c: Config, w: World) {
    (w.server.Log? ==> w.server.runner == c.runner && Flatten(w.server.chunks) <= w.spool) &&
    NoneEmpty(w) &&
    (forall status :: status in w.statuses ==> Position(w.server, status.0, status.1)) &&
    (forall chunk :: chunk in w.sent ==> exists o: nat :: FromSpool(w, chunk, o)) &&
    (forall chunk :: chunk in w.accepted ==>
      w.server.Log? && chunk.0 < |w.server.chunks| && w.server.chunks[chunk.0] == chunk.1) &&
    (forall r :: r in w.granted ==> w.server.Log? && w.server.finished && Describes(r, w.server))
  }

  ghost predicate SinkInvariant(w: World) {
    w.sink.Some? ==>
      var s := w.sink.value;
      s.produced == |w.spool| && s.uploaded <= s.produced &&
      (s.phase.Idle? || s.phase.Sending? || s.phase.Drained? ==> Position(w.server, s.next, s.uploaded)) &&
      (s.phase.Sending? ==> FromSpool(w, (s.next, s.phase.data), s.uploaded)) &&
      (s.phase.Drained? ==> s.closing && s.uploaded == s.produced)
  }

  ghost predicate Invariant(c: Config, w: World) {
    ServerInvariant(c, w) && SinkInvariant(w)
  }

  /** The log only grows, so a position reached once is a position for ever. */
  lemma PositionStays(server: Log, later: Log, q: nat, o: nat)
    requires Position(server, q, o)
    requires server.Log? ==> later.Log? && server.chunks <= later.chunks
    ensures Position(later, q, o)
  {
    if server.Log? && q <= |server.chunks| {
      assert later.chunks[..q] == server.chunks[..q];
    }
  }

  lemma FromSpoolStays(w: World, v: World, chunk: Chunk, o: nat)
    requires FromSpool(w, chunk, o) && w.spool <= v.spool
    requires w.server.Log? ==> v.server.Log? && w.server.chunks <= v.server.chunks
    ensures FromSpool(v, chunk, o)
  {
    PositionStays(w.server, v.server, chunk.0, o);
  }

  ghost predicate Grows(w: World, v: World) {
    w.spool <= v.spool && (w.server.Log? ==> v.server.Log? && w.server.chunks <= v.server.chunks)
  }

  lemma StepGrows(c: Config, w: World, step: Step, v: World)
    requires Next(c, w, step, v) || ServerNext(c, w, step, v)
    ensures Grows(w, v)
  {
  }

  /** What was true of earlier messages and positions stays true in a world that has only grown. */
  lemma GrowthKeepsMessages(c: Config, w: World, v: World)
    requires ServerInvariant(c, w) && Grows(w, v)
    ensures forall status :: status in w.statuses ==> Position(v.server, status.0, status.1)
    ensures forall chunk :: chunk in w.sent ==> exists o: nat :: FromSpool(v, chunk, o)
    ensures forall chunk :: chunk in w.accepted ==>
      v.server.Log? && chunk.0 < |v.server.chunks| && v.server.chunks[chunk.0] == chunk.1
  {
    forall status | status in w.statuses ensures Position(v.server, status.0, status.1) {
      PositionStays(w.server, v.server, status.0, status.1);
    }
    forall chunk | chunk in w.sent ensures exists o: nat :: FromSpool(v, chunk, o) {
      var o: nat :| FromSpool(w, chunk, o);
      FromSpoolStays(w, v, chunk, o);
    }
  }

  lemma GrowthKeepsSink(w: World, v: World)
    requires SinkInvariant(w) && Grows(w, v) && v.spool == w.spool && v.sink == w.sink
    ensures SinkInvariant(v)
  {
    if w.sink.Some? {
      var s := w.sink.value;
      if s.phase.Idle? || s.phase.Sending? || s.phase.Drained? {
        PositionStays(w.server, v.server, s.next, s.uploaded);
      }
    }
  }

  /** A chunk that arrives when the server is waiting for its number continues the spool. */
  lemma NextChunkContinues(w: World, log: Log, chunk: Chunk, o: nat)
    requires log.Log? && Flatten(log.chunks) <= w.spool && chunk.0 == |log.chunks|
    requires (w.server == log || (w.server.NoLog? && log.chunks == [])) && FromSpool(w, chunk, o)
    ensures Flatten(log.chunks + [chunk.1]) <= w.spool
  {
    assert log.chunks[..chunk.0] == log.chunks;
    FlattenAppend(log.chunks, chunk.1);
    assert o == |Flatten(log.chunks)|;
    assert w.spool[..o + |chunk.1|] == w.spool[..o] + w.spool[o..o + |chunk.1|];
  }

  lemma ReceivedStaysPrefix(c: Config, w: World, chunk: Chunk)
    requires ServerInvariant(c, w) && chunk in w.sent
    ensures var after := AppendMeaning(Opened(w.server, c.runner), c.runner, chunk.0, chunk.1);
            after.Log? && after.runner == c.runner && Flatten(after.chunks) <= w.spool
  {
    var log := Opened(w.server, c.runner);
    if chunk.0 == |log.chunks| {
      var o: nat :| FromSpool(w, chunk, o);
      NextChunkContinues(w, log, chunk, o);
    }
  }

  lemma ServerStep(c: Config, w: World, step: Step, v: World)
    requires Invariant(c, w) && ServerNext(c, w, step, v)
    ensures Invariant(c, v)
  {
    StepGrows(c, w, step, v);
    GrowthKeepsSink(w, v);
    match step
    case ServerReports(status) => ReportKeeps(c, w, status, v);
    case ServerReceives(chunk, heard) => ReceiveKeeps(c, w, chunk, heard, v);
    case ServerCloses(request, manifest, seal, heard) => CloseKeeps(c, w, step, v);
    case _ =>
  }

  lemma ReportKeeps(c: Config, w: World, status: (nat, nat), v: World)
    requires ServerInvariant(c, w) && ServerNext(c, w, ServerReports(status), v)
    ensures ServerInvariant(c, v)
  {
    if w.server.Log? { assert w.server.chunks[..|w.server.chunks|] == w.server.chunks; }
    GrowthKeepsMessages(c, w, v);
  }

  lemma ReceiveKeeps(c: Config, w: World, chunk: Chunk, heard: Option<Verdict>, v: World)
    requires ServerInvariant(c, w) && ServerNext(c, w, ServerReceives(chunk, heard), v)
    ensures ServerInvariant(c, v)
  {
    ReceiveGrows(c, w, chunk, heard, v);
    GrowthKeepsMessages(c, w, v);
    if heard == Some(Accepted) { AcceptedIsThere(w.server, c.runner, chunk.0, chunk.1, v.server); }
  }

  /** The log stays an initial part of the spool, and only grows. */
  lemma ReceiveGrows(c: Config, w: World, chunk: Chunk, heard: Option<Verdict>, v: World)
    requires ServerInvariant(c, w) && ServerNext(c, w, ServerReceives(chunk, heard), v)
    ensures Grows(w, v) && (v.server.Log? ==> v.server.runner == c.runner && Flatten(v.server.chunks) <= w.spool)
    ensures forall r :: r in w.granted ==> v.server == w.server
  {
    StepGrows(c, w, ServerReceives(chunk, heard), v);
    ReceivedStaysPrefix(c, w, chunk);
  }

  lemma CloseKeeps(c: Config, w: World, step: Step, v: World)
    requires ServerInvariant(c, w) && ServerNext(c, w, step, v) && step.ServerCloses?
    ensures ServerInvariant(c, v)
  {
    StepGrows(c, w, step, v);
    GrowthKeepsMessages(c, w, v);
  }

  /** Once a chunk is acknowledged, the sink's next number and offset name the place after it. */
  lemma ConfirmMoves(server: Log, q: nat, o: nat, data: Bytes)
    requires server.Log? && q < |server.chunks| && server.chunks[q] == data && Position(server, q, o)
    ensures Position(server, q + 1, o + |data|)
  {
    FlattenAppend(server.chunks[..q], data);
    assert server.chunks[..q + 1] == server.chunks[..q] + [data];
  }

  lemma SinkStep(c: Config, w: World, step: Step, v: World)
    requires c.chunkSize > 0 && Invariant(c, w) && w.sink.Some? && SinkNext(c, w, step, v)
    ensures Invariant(c, v)
  {
    GrowthKeepsMessages(c, w, v);
    SinkStepKeepsSink(c, w, step, v);
    if step.SinkTakes? && v.sink.value.phase.Sending? {
      var s := v.sink.value;
      assert FromSpool(v, (s.next, s.phase.data), s.uploaded);
    }
  }

  lemma SinkStepKeepsSink(c: Config, w: World, step: Step, v: World)
    requires c.chunkSize > 0 && Invariant(c, w) && w.sink.Some? && SinkNext(c, w, step, v)
    ensures SinkInvariant(v)
  {
    var s := w.sink.value;
    match step
    case SinkWrites(p) =>
      if s.phase.Sending? { FromSpoolStays(w, v, (s.next, s.phase.data), s.uploaded); }
    case SinkConfirms => ConfirmMoves(w.server, s.next, s.uploaded, s.phase.data);
    case _ =>
  }

  lemma {:induction false} InvariantHolds(c: Config, run: seq<World>, steps: seq<Step>, i: nat)
    requires IsRun(c, run, steps) && i < |run|
    ensures Invariant(c, run[i])
    decreases i
  {
    if i > 0 {
      InvariantHolds(c, run, steps, i - 1);
      var w, step, v := run[i - 1], steps[i - 1], run[i];
      assert Next(c, w, step, v);
      if step.SinkOpens? || step.SinkStops? {
        StepGrows(c, w, step, v);
        GrowthKeepsMessages(c, w, v);
      } else if ServerNext(c, w, step, v) {
        ServerStep(c, w, step, v);
      } else {
        SinkStep(c, w, step, v);
      }
    }
  }

  // ----- the promises, over every run -----

  /** At every moment of every run the committed log is an initial part of the spool. */
  lemma CommittedIsPrefixOfSpool(c: Config, run: seq<World>, steps: seq<Step>, i: nat)
    requires IsRun(c, run, steps) && i < |run| && run[i].server.Log?
    ensures Flatten(run[i].server.chunks) <= run[i].spool
  {
    InvariantHolds(c, run, steps, i);
  }

  /** Committed chunks are never lost, changed or reordered: the log of any moment starts the log of
      any later one. */
  lemma {:induction false} CommittedIsForEver(c: Config, run: seq<World>, steps: seq<Step>, i: nat, j: nat)
    requires IsRun(c, run, steps) && i <= j < |run| && run[i].server.Log?
    ensures run[j].server.Log? && run[i].server.chunks <= run[j].server.chunks && run[i].spool <= run[j].spool
    decreases j
  {
    if i < j {
      CommittedIsForEver(c, run, steps, i, j - 1);
      StepGrows(c, run[j - 1], steps[j - 1], run[j]);
    }
  }

  /** An acknowledged chunk is in the log, exactly at its number, at every later moment. */
  lemma AcknowledgedIsCommitted(c: Config, run: seq<World>, steps: seq<Step>, i: nat, j: nat, chunk: Chunk)
    requires IsRun(c, run, steps) && i <= j < |run| && chunk in run[i].accepted
    ensures run[j].server.Log? && chunk.0 < |run[j].server.chunks| && run[j].server.chunks[chunk.0] == chunk.1
  {
    InvariantHolds(c, run, steps, i);
    CommittedIsForEver(c, run, steps, i, j);
  }

  /** The sink never finds the server ahead of its spool. */
  lemma ServerNeverAhead(c: Config, run: seq<World>, steps: seq<Step>, i: nat)
    requires IsRun(c, run, steps) && i < |steps| && steps[i].SinkBegins?
    requires !ServerNext(c, run[i], steps[i], run[i + 1])
    ensures run[i + 1].sink.Some? && run[i + 1].sink.value.phase == Idle
  {
    InvariantHolds(c, run, steps, i);
    var w, status := run[i], steps[i].status;
    assert Next(c, w, steps[i], run[i + 1]);
    if w.server.Log? && status.0 <= |w.server.chunks| { FlattenPrefix(w.server.chunks, status.0); }
  }

  /** When a drained sink receives the success of its completion request, the artifact holds the whole
      spool: every byte once, in order. */
  lemma CompletionDeliversSpool(c: Config, run: seq<World>, steps: seq<Step>, i: nat)
    requires IsRun(c, run, steps) && i < |run| && run[i].sink.Some? && run[i].sink.value.phase.Drained?
    requires CompletionOf(run[i].sink.value, run[i].spool) in run[i].granted
    ensures run[i].server.Log? && run[i].server.finished && Flatten(run[i].server.chunks) == run[i].spool
  {
    InvariantHolds(c, run, steps, i);
  }

  /** A finished log never changes again. */
  lemma {:induction false} FinishedIsFinal(c: Config, run: seq<World>, steps: seq<Step>, i: nat, j: nat)
    requires IsRun(c, run, steps) && i <= j < |run| && run[i].server.Log? && run[i].server.finished
    ensures run[j].server == run[i].server
    decreases j
  {
    if i < j {
      FinishedIsFinal(c, run, steps, i, j - 1);
      InvariantHolds(c, run, steps, j - 1);
      assert Next(c, run[j - 1], steps[j - 1], run[j]);
    }
  }

  // ----- what a correct runner is answered -----

  /** A chunk that arrives at an unfinished log is answered "accepted" exactly when it is the next one or
      is in the log at its number already, and then the log stays as it is: a repeated request is never
      refused. */
  lemma RepeatIsAccepted(c: Config, run: seq<World>, steps: seq<Step>, i: nat, chunk: Chunk, v: Verdict)
    requires IsRun(c, run, steps) && i < |steps| && steps[i] == ServerReceives(chunk, Some(v))
    requires !IsFinished(run[i].server)
    ensures v == Accepted <==> chunk.0 == |Committed(run[i].server)| || Holds(run[i].server, chunk.0, chunk.1)
    ensures Holds(run[i].server, chunk.0, chunk.1) ==> run[i + 1].server == run[i].server && chunk in run[i + 1].accepted
  {
    InvariantHolds(c, run, steps, i);
    assert Next(c, run[i], steps[i], run[i + 1]);
    AppendAnswers(run[i].server, c.runner, chunk.0, chunk.1, v, run[i + 1].server);
  }

  /** With no empty chunk, a log whose first q chunks have as many bytes as all of them has q chunks. */
  lemma WholeMeansAll(chunks: seq<Bytes>, q: nat)
    requires q <= |chunks| && |Flatten(chunks[..q])| == |Flatten(chunks)|
    requires forall i :: 0 <= i < |chunks| ==> chunks[i] != []
    ensures q == |chunks|
  {
    if q < |chunks| {
      FlattenAppend(chunks[..q], chunks[q]);
      assert chunks[..q + 1] == chunks[..q] + [chunks[q]];
      FlattenPrefix(chunks, q + 1);
      assert false;
    }
  }

  lemma DrainedIsCommitted(c: Config, w: World)
    requires Invariant(c, w) && w.sink.Some? && w.sink.value.phase.Drained?
    ensures w.sink.value.next == |Committed(w.server)| && Flatten(Committed(w.server)) == w.spool
  {
    var s, chunks := w.sink.value, Committed(w.server);
    if w.server.Log? {
      assert chunks[..0] == [];
      FlattenPrefix(chunks, s.next);
      WholeMeansAll(chunks, s.next);
    }
  }

  /** When a sink has drained, the server's log is the whole spool, and the sink's completion request
      describes it: last number, length and hash. */
  lemma DrainedDescribesLog(c: Config, run: seq<World>, steps: seq<Step>, i: nat)
    requires IsRun(c, run, steps) && i < |run| && run[i].sink.Some? && run[i].sink.value.phase.Drained?
    ensures var r, chunks := CompletionOf(run[i].sink.value, run[i].spool), Committed(run[i].server);
      Flatten(chunks) == run[i].spool && Describes(r, Opened(run[i].server, c.runner)) &&
      r == CompleteRequest("combined", |chunks| - 1, |Flatten(chunks)|, Sha256(Flatten(chunks)))
  {
    InvariantHolds(c, run, steps, i);
    DrainedIsCommitted(c, run[i]);
  }

  /** The completion of a drained sink, when it is answered and neither a manifest nor a seal is in the
      way, succeeds, and finishes the log with the whole spool. */
  lemma DrainedCompletionIsAccepted(c: Config, run: seq<World>, steps: seq<Step>, i: nat, v: Verdict)
    requires IsRun(c, run, steps) && i < |steps| && run[i].sink.Some? && run[i].sink.value.phase.Drained?
    requires steps[i] == ServerCloses(CompletionOf(run[i].sink.value, run[i].spool), false, false, Some(v))
    ensures v == Accepted && IsFinished(run[i + 1].server) && Flatten(run[i + 1].server.chunks) == run[i].spool
    ensures CompletionOf(run[i].sink.value, run[i].spool) in run[i + 1].granted
  {
    DrainedDescribesLog(c, run, steps, i);
    assert Next(c, run[i], steps[i], run[i + 1]);
    CompletionAnswers(run[i].server, c.runner, steps[i].request, false, false, v, run[i + 1].server);
  }

  // ----- what a quiet network delivers -----

  /** A run with one step more. */
  lemma Longer(c: Config, run: seq<World>, steps: seq<Step>, step: Step, v: World)
      returns (longer: seq<World>, done: seq<Step>)
    requires IsRun(c, run, steps) && Next(c, run[|steps|], step, v)
    ensures IsRun(c, longer, done) && longer == run + [v] && done == steps + [step]
  {
    longer, done := run + [v], steps + [step];
    forall i | 0 <= i < |done| ensures Next(c, longer[i], done[i], longer[i + 1]) {
      if i < |steps| { assert longer[i] == run[i] && longer[i + 1] == run[i + 1] && done[i] == steps[i]; }
    }
  }

  /** A closing sink between two chunks whose next chunk is the one that the unfinished log waits for. */
  predicate InStep(w: World) {
    w.sink.Some? && w.sink.value.phase.Idle? && w.sink.value.closing && !IsFinished(w.server) &&
    w.sink.value.next == |Committed(w.server)|
  }

  /** One more chunk: the sink takes it, the server appends it, and the sink hears of it. */
  lemma OneMoreChunk(c: Config, run: seq<World>, steps: seq<Step>) returns (longer: seq<World>, done: seq<Step>)
    requires IsRun(c, run, steps) && InStep(run[|steps|]) && run[|steps|].sink.value.uploaded < |run[|steps|].spool|
    ensures IsRun(c, longer, done) && run <= longer && steps <= done && InStep(longer[|done|])
    ensures longer[|done|].spool == run[|steps|].spool
    ensures longer[|done|].sink.value.uploaded > run[|steps|].sink.value.uploaded
  {
    var w := run[|steps|];
    InvariantHolds(c, run, steps, |steps|);
    var s := w.sink.value;
    var t := Taken(s, w.spool, c.chunkSize, false);
    var chunk := (s.next, t.phase.data);
    longer, done := Longer(c, run, steps, SinkTakes(false), w.(sink := Some(t), sent := w.sent + {chunk}));
    var u := longer[|done|];
    var grown := Log(c.runner, Committed(w.server) + [chunk.1], false);
    assert Appends(u.server, c.runner, chunk.0, chunk.1, Some(Accepted), grown);
    longer, done := Longer(c, longer, done, ServerReceives(chunk, Some(Accepted)), u.(server := grown, accepted := u.accepted + {chunk}));
    u := longer[|done|];
    longer, done := Longer(c, longer, done, SinkConfirms, u.(sink := Some(Confirmed(t))));
  }

  /** The end: the sink finds nothing left, requests the completion, and the server finishes the log. */
  lemma LastSteps(c: Config, run: seq<World>, steps: seq<Step>) returns (longer: seq<World>, done: seq<Step>)
    requires IsRun(c, run, steps) && InStep(run[|steps|]) && run[|steps|].sink.value.uploaded == |run[|steps|].spool|
    ensures IsRun(c, longer, done) && run <= longer && steps <= done
    ensures longer[|done|].spool == run[|steps|].spool && Delivered(longer[|done|])
  {
    var w := run[|steps|];
    InvariantHolds(c, run, steps, |steps|);
    var t := Taken(w.sink.value, w.spool, c.chunkSize, false);
    longer, done := Longer(c, run, steps, SinkTakes(false), w.(sink := Some(t)));
    var u := longer[|done|];
    var request := CompletionOf(t, u.spool);
    longer, done := Longer(c, longer, done, SinkRequestsCompletion, u.(closings := u.closings + {request}));
    DrainedDescribesLog(c, longer, done, |done|);
    u := longer[|done|];
    var finished := Log(c.runner, Committed(u.server), true);
    InvariantHolds(c, longer, done, |done|);
    assert Completes(u.server, c.runner, request, false, false, Some(Accepted), finished);
    longer, done := Longer(c, longer, done, ServerCloses(request, false, false, Some(Accepted)),
                           u.(server := finished, granted := u.granted + {request}));
  }

  /** The artifact holds the spool. */
  predicate Delivered(w: World) {
    IsFinished(w.server) && Flatten(w.server.chunks) == w.spool
  }

  /** From wherever a run has got to, a closing sink that is in step with its log delivers the whole spool
      if no further message is lost: no step of either side is ever refused. */
  lemma {:induction false} QuietNetworkDelivers(c: Config, run: seq<World>, steps: seq<Step>)
      returns (longer: seq<World>, done: seq<Step>)
    requires IsRun(c, run, steps) && InStep(run[|steps|])
    ensures IsRun(c, longer, done) && run <= longer && steps <= done
    ensures longer[|done|].spool == run[|steps|].spool && Delivered(longer[|done|])
    decreases |run[|steps|].spool| - run[|steps|].sink.value.uploaded
  {
    InvariantHolds(c, run, steps, |steps|);
    if run[|steps|].sink.value.uploaded == |run[|steps|].spool| {
      longer, done := LastSteps(c, run, steps);
    } else {
      longer, done := OneMoreChunk(c, run, steps);
      InvariantHolds(c, longer, done, |done|);
      longer, done := QuietNetworkDelivers(c, longer, done);
    }
  }
}
