/** The runner's half of the live log: output is spooled to a local file and uploaded in numbered
    chunks by one background worker. */
module LogSink {
  import opened Core
  import opened LogStore

  /** Where the worker and the closing call are. `Sending` holds the chunk being uploaded. */
  datatype Phase = Querying | Idle | Sending(data: Bytes) | Drained | Broken

  /** The fields that a sink keeps in memory; the spool file outlives it. */
  datatype Sink = Sink(produced: nat, uploaded: nat, next: nat, closing: bool, phase: Phase)

  function Opening(spool: Bytes): Sink {
    Sink(|spool|, 0, 0, false, Querying)
  }

  function Begun(s: Sink, next: nat, committed: nat): Sink {
    if committed > s.produced then s.(phase := Broken)
    else s.(uploaded := committed, next := next, phase := Idle)
  }

  /** One pass of the worker's inner loop: stop, wait, or take the next chunk of the spool. */
  function Taken(s: Sink, spool: Bytes, chunkSize: nat, flush: bool): Sink
    requires s.uploaded <= s.produced <= |spool|
  {
    var available := s.produced - s.uploaded;
    if available == 0 then (if s.closing then s.(phase := Drained) else s)
    else if available < chunkSize && !s.closing && !flush then s
    else
      var size := if available > chunkSize then chunkSize else available;
      s.(phase := Sending(spool[s.uploaded..s.uploaded + size]))
  }

  function Confirmed(s: Sink): Sink
    requires s.phase.Sending?
  {
    s.(uploaded := s.uploaded + |s.phase.data|, next := s.next + 1, phase := Idle)
  }

  function CompletionOf(s: Sink, spool: Bytes): CompleteRequest {
    CompleteRequest("combined", s.next - 1, |spool|, Sha256(spool))
  }

  class JobLogSink {
    var spool: Bytes    // the spool file
    var produced: nat
    var uploaded: nat
    var next: nat
    var closing: bool
    var phase: Phase
    const chunkSize: nat
    const spoolLimit: nat

    ghost function View(): Sink
      reads this
    {
      Sink(produced, uploaded, next, closing, phase)
    }

    /** The produced count is the length of the spool file, and uploads stay within it. */
    ghost predicate Valid()
      reads this
    {
      chunkSize > 0 && produced == |spool| && uploaded <= produced &&
      (phase.Sending? ==>
        0 < |phase.data| <= chunkSize && uploaded + |phase.data| <= produced &&
        phase.data == spool[uploaded..uploaded + |phase.data|]) &&
      (phase.Drained? ==> closing && uploaded == produced)
    }

    /** Opens a sink over whatever an earlier run of the job left in the spool. */
    constructor (spool: Bytes, chunkSize: nat, spoolLimit: nat)
      ensures Valid() && View() == Opening(spool) && this.spool == spool
    {
      this.spool, produced, uploaded, next, closing, phase := spool, |spool|, 0, 0, false, Querying;
      this.chunkSize := if chunkSize == 0 then 262144 else chunkSize;
      this.spoolLimit := if spoolLimit == 0 then 4294967296 else spoolLimit;
    }

    /** Appends to the spool. A failing write may keep a part of the data; the count follows the file. */
    method Write(p: Bytes) returns (n: nat, ok: bool)
      requires Valid()
      modifies this`spool, this`produced
      ensures Valid() && n <= |p| && spool == old(spool) + p[..n] && produced == old(produced) + n
      ensures old(closing) || old(produced) + |p| > spoolLimit ==> n == 0 && !ok
      ensures ok ==> n == |p|
    {
      if closing { return 0, false; }
      if produced + |p| > spoolLimit { return 0, false; }
      var written: int := *;
      ok := *;
      n := if ok then |p| else if 0 <= written <= |p| then written else 0;
      spool, produced := spool + p[..n], produced + n;
    }

    /** The worker starts where the server says its log ends. */
    method Begin(status: (nat, nat))
      requires Valid() && phase.Querying?
      modifies this`uploaded, this`next, this`phase
      ensures Valid() && View() == Begun(old(View()), status.0, status.1)
      ensures if status.1 <= |spool| then phase.Idle? && (next, uploaded) == status else phase.Broken?
    {
      if status.1 > produced {
        phase := Broken;
        return;
      }
      uploaded, next, phase := status.1, status.0, Idle;
    }

    method Take(flush: bool)
      requires Valid() && phase.Idle?
      modifies this`phase
      ensures Valid() && View() == Taken(old(View()), spool, chunkSize, flush)
      ensures var available := produced - uploaded;
        (phase.Sending? <==> available > 0 && (flush || closing || available >= chunkSize)) &&
        (phase.Drained? <==> available == 0 && closing) && (phase.Sending? || phase.Drained? || phase.Idle?) &&
        (phase.Sending? ==> |phase.data| == if available < chunkSize then available else chunkSize)
    {
      var available := produced - uploaded;
      if available == 0 {
        if closing { phase := Drained; }
        return;
      }
      if available < chunkSize && !closing && !flush { return; }
      var size := available;
      if size > chunkSize { size := chunkSize; }
      phase := Sending(spool[uploaded..uploaded + size]);
    }

    method Confirm()
      requires Valid() && phase.Sending?
      modifies this`uploaded, this`next, this`phase
      ensures Valid() && View() == Confirmed(old(View()))
      ensures phase.Idle? && next == old(next) + 1 && uploaded == old(uploaded) + |old(phase).data|
    {
      uploaded := uploaded + |phase.data|;
      next := next + 1;
      phase := Idle;
    }

    /** An upload that the server refuses for good ends the worker; later output is still spooled. */
    method Fail()
      requires Valid()
      modifies this`phase
      ensures Valid() && View() == old(View()).(phase := Broken)
    {
      phase := Broken;
    }

    /** The first half of Complete: no write is accepted any more. */
    method Close()
      requires Valid()
      modifies this`closing
      ensures Valid() && View() == old(View()).(closing := true)
    {
      if !closing { closing := true; }
    }

    /** The worker's loop while the sink is closing: each chunk is sent again until the server accepts it,
        or refuses it for good. What is sent is the rest of the spool, in order and without gaps. */
    method Drain() returns (ghost sent: seq<Bytes>)
      requires Valid() && phase.Idle? && closing
      modifies this`phase, this`uploaded, this`next
      ensures Valid() && (phase.Drained? || phase.Broken?)
      ensures next == old(next) + |sent| && old(uploaded) <= uploaded && Flatten(sent) == spool[old(uploaded)..uploaded]
      ensures phase.Drained? ==> uploaded == |spool|
      ensures forall i :: 0 <= i < |sent| ==> 0 < |sent[i]| <= chunkSize
    {
      sent := [];
      while true
        invariant Valid() && phase.Idle? && next == old(next) + |sent|
        invariant old(uploaded) <= uploaded && Flatten(sent) == spool[old(uploaded)..uploaded]
        invariant forall i :: 0 <= i < |sent| ==> 0 < |sent[i]| <= chunkSize
        decreases produced - uploaded
      {
        Take(false);
        if phase.Drained? { return; }
        var accepted: bool := *;
        if !accepted {
          Fail();
          return;
        }
        ghost var data := phase.data;
        FlattenAppend(sent, data);
        assert spool[old(uploaded)..uploaded] + data == spool[old(uploaded)..uploaded + |data|];
        sent := sent + [data];
        Confirm();
      }
    }

    /** The second half of Complete, once the worker has drained: the request describes the spool. */
    method Completion() returns (r: CompleteRequest)
      requires Valid() && phase.Drained?
      ensures r == CompletionOf(View(), spool) && uploaded == |spool|
      ensures r.last + 1 == next && r.size == uploaded && r.sum == Sha256(spool)
    {
      return CompleteRequest("combined", next - 1, |spool|, Sha256(spool));
    }
  }
}
