/**
 The bounded queue between whoever sends to a mirror client and the client's one writer
 (internal/mirror/client.go), and the splitting of terminal output into frames.
 */
module OutboundQueue {
  import opened Options
  import opened Cipher

  type ResultId = nat

  const TagOutput: byte := 0x07
  const TagReady: byte := 0x08
  const MaxPlainPayload: nat := MaxWireMessage - 1 - Overhead

  datatype QueueError = ClientClosed | QueueFull | Other(code: nat)
  datatype Outcome = Delivered | Failed(error: QueueError)

  /** A frame, and the channel on which its sender waits for the outcome, if it does. */
  datatype OutboundFrame = OutboundFrame(tag: byte, payload: seq<byte>, result: Option<ResultId>)

  /** `outcomes` lists what was put on result channels, in order. */
  datatype Queue = Queue(frames: seq<OutboundFrame>, bytes: int, closed: bool, outcomes: seq<(ResultId, Outcome)>)

  const NewQueue := Queue([], 0, false, [])

  function FrameSize(f: OutboundFrame): nat {
    |f.payload| + 1 + Overhead
  }

  function TotalSize(frames: seq<OutboundFrame>): nat {
    if frames == [] then 0 else FrameSize(frames[0]) + TotalSize(frames[1..])
  }

  lemma {:induction false} TotalSizeAppend(frames: seq<OutboundFrame>, f: OutboundFrame)
    ensures TotalSize(frames + [f]) == TotalSize(frames) + FrameSize(f)
  {
    if frames == [] {
      assert [f][1..] == [];
    } else {
      assert (frames + [f])[1..] == frames[1..] + [f];
      TotalSizeAppend(frames[1..], f);
    }
  }

  /** What closing tells the senders still waiting. */
  function Refusals(frames: seq<OutboundFrame>, error: QueueError): seq<(ResultId, Outcome)> {
    if frames == [] then []
    else Refusal(frames[0], error) + Refusals(frames[1..], error)
  }

  function Refusal(f: OutboundFrame, error: QueueError): seq<(ResultId, Outcome)> {
    if f.result.Some? then [(f.result.value, Failed(error))] else []
  }

  lemma Regrouped<T>(a: seq<T>, b: seq<T>, c: seq<T>)
    ensures a + b + c == a + (b + c) && a + [] == a && [] + a == a
  {
  }

  lemma {:induction false} RefusalsAppend(frames: seq<OutboundFrame>, f: OutboundFrame, error: QueueError)
    ensures Refusals(frames + [f], error) == Refusals(frames, error) + Refusal(f, error)
  {
    if frames == [] {
      assert frames + [f] == [f] && [f][1..] == [];
      Regrouped(Refusal(f, error), [], []);
    } else {
      assert (frames + [f])[1..] == frames[1..] + [f] && (frames + [f])[0] == frames[0];
      RefusalsAppend(frames[1..], f, error);
      Regrouped(Refusal(frames[0], error), Refusals(frames[1..], error), Refusal(f, error));
    }
  }

  function CloseQueue(q: Queue, error: QueueError): Queue {
    if q.closed then q else Queue([], 0, true, q.outcomes + Refusals(q.frames, error))
  }

  function Push(q: Queue, maxBytes: int, f: OutboundFrame): (Queue, Option<QueueError>) {
    if q.closed then (q, Some(ClientClosed))
    else if FrameSize(f) > maxBytes || q.bytes + FrameSize(f) > maxBytes
    then (CloseQueue(q, QueueFull), Some(QueueFull))
    else (q.(frames := q.frames + [f], bytes := q.bytes + FrameSize(f)), None)
  }

  datatype SendResult = Sent | Cancelled | Refused(error: QueueError)

  /** Output chunks sent in order until one is refused, which closes the client, or the context is found cancelled before push number `cancelled`. */
  function SendAll(q: Queue, maxBytes: int, chunks: seq<seq<byte>>, cancelled: nat): (Queue, SendResult)
    decreases |chunks|
  {
    if chunks == [] then (q, Sent)
    else if cancelled == 0 then (q, Cancelled)
    else
      var (t, error) := Push(q, maxBytes, OutboundFrame(TagOutput, chunks[0], None));
      if error.Some? then (CloseQueue(t, error.value), Refused(error.value)) else SendAll(t, maxBytes, chunks[1..], cancelled - 1)
  }

  /** None when the writer must stop or wait. */
  function Pop(q: Queue): (Queue, Option<OutboundFrame>) {
    if q.closed || q.frames == [] then (q, None)
    else (q.(frames := q.frames[1..], bytes := q.bytes - FrameSize(q.frames[0])), Some(q.frames[0]))
  }

  ghost predicate Accounted(q: Queue, maxBytes: int) {
    q.bytes == TotalSize(q.frames) && 0 <= q.bytes <= maxBytes && (q.closed ==> q.frames == [])
  }

  lemma PushKeepsAccount(q: Queue, maxBytes: int, f: OutboundFrame)
    requires Accounted(q, maxBytes)
    ensures Accounted(Push(q, maxBytes, f).0, maxBytes)
  {
    TotalSizeAppend(q.frames, f);
  }

  /** A frame is accepted exactly when the queue is open and its payload and 17 bytes of framing still fit. */
  lemma PushAcceptsExactly(q: Queue, maxBytes: int, f: OutboundFrame)
    requires Accounted(q, maxBytes)
    ensures var (t, error) := Push(q, maxBytes, f);
            && (error.None? <==> !q.closed && TotalSize(q.frames) + |f.payload| + 17 <= maxBytes)
            && (error.None? ==> t.frames == q.frames + [f] && !t.closed && t.outcomes == q.outcomes)
            && (error.Some? ==> t.frames == [] && t.closed && error == Some(if q.closed then ClientClosed else QueueFull))
            && (q.closed ==> t == q)
  {
  }

  /** The writer gets the oldest frame exactly while the queue is open and holds one. */
  lemma PopTakesExactly(q: Queue)
    ensures var (t, f) := Pop(q);
            && (f.Some? <==> !q.closed && |q.frames| > 0) && t.closed == q.closed && t.outcomes == q.outcomes
            && (if f.Some? then [f.value] + t.frames == q.frames else t == q)
  {
  }

  predicate Fits(q: Queue, maxBytes: int, frames: seq<OutboundFrame>) {
    TotalSize(q.frames) + TotalSize(frames) <= maxBytes
  }

  /** Output is sent whole exactly when nothing cancels it in time and, the queue being open, all its chunks fit together. */
  lemma {:induction false} SendsExactly(q: Queue, maxBytes: int, chunks: seq<seq<byte>>, cancelled: nat)
    requires Accounted(q, maxBytes)
    ensures var r := SendAll(q, maxBytes, chunks, cancelled).1;
            && (r.Sent? <==> chunks == [] || (!q.closed && cancelled >= |chunks| && Fits(q, maxBytes, OutputFrames(chunks))))
            && (r.Refused? ==> r.error == if q.closed then ClientClosed else QueueFull)
            && (r.Cancelled? ==> cancelled < |chunks|)
    decreases |chunks|
  {
    if chunks != [] && cancelled > 0 {
      var f := OutboundFrame(TagOutput, chunks[0], None);
      var (t, error) := Push(q, maxBytes, f);
      PushAcceptsExactly(q, maxBytes, f);
      PushKeepsAccount(q, maxBytes, f);
      assert OutputFrames(chunks) == [f] + OutputFrames(chunks[1..]);
      assert TotalSize(OutputFrames(chunks)) == FrameSize(f) + TotalSize(OutputFrames(chunks[1..]));
      if error.None? {
        TotalSizeAppend(q.frames, f);
        SendsExactly(t, maxBytes, chunks[1..], cancelled - 1);
      }
    }
  }

  // ----- the queue object -----

  class ClientQueue {
    const maxBytes: int
    var frames: seq<OutboundFrame>
    var bytes: int
    var closed: bool
    var outcomes: seq<(ResultId, Outcome)>
    var hungUp: bool // closeNow has run: the connection is closed too

    ghost function View(): Queue
      reads this
    {
      Queue(frames, bytes, closed, outcomes)
    }

    constructor (maxBytes: nat)
      ensures this.maxBytes == maxBytes && View() == NewQueue && Accounted(View(), maxBytes)
    {
      this.maxBytes := maxBytes;
      frames, bytes, closed, outcomes, hungUp := [], 0, false, [], false;
    }

    method PushFrame(f: OutboundFrame) returns (error: Option<QueueError>)
      requires Accounted(View(), maxBytes)
      modifies this
      ensures (View(), error) == Push(old(View()), maxBytes, f)
      ensures Accounted(View(), maxBytes) && hungUp == old(hungUp)
      ensures error.None? <==> !old(closed) && TotalSize(old(frames)) + |f.payload| + 17 <= maxBytes
      ensures error.None? ==> frames == old(frames) + [f] && !closed && outcomes == old(outcomes)
      ensures error.Some? ==> frames == [] && closed && error.value == if old(closed) then ClientClosed else QueueFull
    {
      PushKeepsAccount(View(), maxBytes, f);
      PushAcceptsExactly(View(), maxBytes, f);
      var size := |f.payload| + 1 + Overhead;
      if closed {
        return Some(ClientClosed);
      }
      if size > maxBytes || bytes + size > maxBytes {
        CloseLocked(QueueFull);
        return Some(QueueFull);
      }
      frames := frames + [f];
      bytes := bytes + size;
      error := None;
    }

    method PopFrame() returns (f: Option<OutboundFrame>)
      requires Accounted(View(), maxBytes)
      modifies this
      ensures (View(), f) == Pop(old(View()))
      ensures f.Some? <==> !old(closed) && old(frames) != []
      ensures if f.Some? then [f.value] + frames == old(frames) else frames == old(frames)
      ensures Accounted(View(), maxBytes)
    {
      if closed || |frames| == 0 {
        return None;
      }
      var head := frames[0];
      frames := frames[1..];
      bytes := bytes - (|head.payload| + 1 + Overhead);
      f := Some(head);
    }

    method CloseLocked(error: QueueError)
      requires Accounted(View(), maxBytes)
      modifies this
      ensures View() == CloseQueue(old(View()), error)
      ensures Accounted(View(), maxBytes) && hungUp == old(hungUp)
    {
      if closed {
        return;
      }
      closed := true;
      for i := 0 to |frames|
        invariant frames == old(frames) && bytes == old(bytes) && closed && hungUp == old(hungUp)
        invariant outcomes == old(outcomes) + Refusals(frames[..i], error)
      {
        RefusalsAppend(frames[..i], frames[i], error);
        assert frames[..i] + [frames[i]] == frames[..i + 1];
        if frames[i].result.Some? {
          outcomes := outcomes + [(frames[i].result.value, Failed(error))];
        }
      }
      assert frames[..|frames|] == frames;
      frames, bytes := [], 0;
    }

    /** Closes the client once; a queue that was already closed keeps its error. */
    method CloseNow(error: QueueError)
      requires Accounted(View(), maxBytes) && (hungUp ==> closed)
      modifies this
      ensures Accounted(View(), maxBytes) && hungUp
      ensures View() == CloseQueue(old(View()), error)
    {
      if !hungUp {
        hungUp := true;
        CloseLocked(error);
      }
    }

    /** Sends one output frame per chunk, looking at the context before each; a refusal closes the client. */
    method SendOutput(output: seq<byte>, cancelled: nat) returns (r: SendResult)
      requires Accounted(View(), maxBytes) && (hungUp ==> closed)
      modifies this
      ensures Accounted(View(), maxBytes) && (hungUp ==> closed)
      ensures (View(), r) == SendAll(old(View()), maxBytes, Chunks(output), cancelled)
      ensures hungUp == (old(hungUp) || r.Refused?)
      ensures var chunks := Chunks(output);
              r.Sent? <==> chunks == [] || (!old(closed) && cancelled >= |chunks| && Fits(old(View()), maxBytes, OutputFrames(chunks)))
    {
      SendsExactly(View(), maxBytes, Chunks(output), cancelled);
      var chunks := ChunkOutput(output);
      for i := 0 to |chunks|
        invariant Accounted(View(), maxBytes) && (hungUp ==> closed) && hungUp == old(hungUp) && i <= cancelled
        invariant SendAll(old(View()), maxBytes, chunks, cancelled) == SendAll(View(), maxBytes, chunks[i..], cancelled - i)
      {
        SendAllStep(View(), maxBytes, chunks, cancelled, i);
        if i == cancelled {
          return Cancelled;
        }
        var error := PushFrame(OutboundFrame(TagOutput, chunks[i], None));
        if error.Some? {
          CloseNow(error.value);
          return Refused(error.value);
        }
      }
      return Sent;
    }
  }

  lemma SendAllStep(q: Queue, maxBytes: int, chunks: seq<seq<byte>>, cancelled: nat, i: nat)
    requires i < |chunks| && i <= cancelled
    ensures i == cancelled ==> SendAll(q, maxBytes, chunks[i..], cancelled - i) == (q, Cancelled)
    ensures i < cancelled ==>
              var (t, error) := Push(q, maxBytes, OutboundFrame(TagOutput, chunks[i], None));
              SendAll(q, maxBytes, chunks[i..], cancelled - i) ==
              if error.Some? then (CloseQueue(t, error.value), Refused(error.value))
              else SendAll(t, maxBytes, chunks[i + 1..], cancelled - i - 1)
  {
    assert chunks[i..][0] == chunks[i] && chunks[i..][1..] == chunks[i + 1..];
  }

  /** Output enters the queue whole and in order, or up to the cancellation, or the queue is closed. */
  lemma {:induction false} AllOrClosed(q: Queue, maxBytes: int, chunks: seq<seq<byte>>, cancelled: nat)
    ensures var (t, r) := SendAll(q, maxBytes, chunks, cancelled);
            && (r.Sent? ==> t.frames == q.frames + OutputFrames(chunks) && t.outcomes == q.outcomes)
            && (r.Cancelled? ==> cancelled < |chunks| && t.frames == q.frames + OutputFrames(chunks[..cancelled]) && t.outcomes == q.outcomes)
            && (r.Refused? ==> t.closed)
    decreases |chunks|
  {
    if chunks == [] || cancelled == 0 {
      assert q.frames + [] == q.frames;
      assert chunks[..0] == [];
    } else {
      var f := OutboundFrame(TagOutput, chunks[0], None);
      var (t, error) := Push(q, maxBytes, f);
      if error.None? {
        AllOrClosed(t, maxBytes, chunks[1..], cancelled - 1);
        assert q.frames + [f] + OutputFrames(chunks[1..]) == q.frames + ([f] + OutputFrames(chunks[1..]));
        if cancelled < |chunks| {
          assert chunks[..cancelled][1..] == chunks[1..][..cancelled - 1];
          assert q.frames + [f] + OutputFrames(chunks[1..][..cancelled - 1]) == q.frames + ([f] + OutputFrames(chunks[1..][..cancelled - 1]));
        }
      }
    }
  }

  // ----- chunking -----

  function Chunks(data: seq<byte>): (chunks: seq<seq<byte>>)
    ensures forall i :: 0 <= i < |chunks| ==> 0 < |chunks[i]| <= MaxPlainPayload
  {
    if data == [] then []
    else if |data| <= MaxPlainPayload then [data]
    else [data[..MaxPlainPayload]] + Chunks(data[MaxPlainPayload..])
  }

  function Concat(chunks: seq<seq<byte>>): seq<byte> {
    if chunks == [] then [] else chunks[0] + Concat(chunks[1..])
  }

  lemma {:induction false} ChunksConcat(data: seq<byte>)
    ensures Concat(Chunks(data)) == data
  {
    if data == [] {
    } else if |data| <= MaxPlainPayload {
      assert [data][1..] == [];
    } else {
      ChunksConcat(data[MaxPlainPayload..]);
      assert ([data[..MaxPlainPayload]] + Chunks(data[MaxPlainPayload..]))[1..] == Chunks(data[MaxPlainPayload..]);
      assert data == data[..MaxPlainPayload] + data[MaxPlainPayload..];
    }
  }

  /** Every chunk but the last is full, so the number of frames is the least possible. */
  lemma {:induction false} ChunksAreFull(data: seq<byte>, i: nat)
    requires i < |Chunks(data)| - 1
    ensures |Chunks(data)[i]| == MaxPlainPayload
  {
    if |data| > MaxPlainPayload && i > 0 {
      ChunksAreFull(data[MaxPlainPayload..], i - 1);
    }
  }

  method ChunkOutput(data: seq<byte>) returns (chunks: seq<seq<byte>>)
    ensures chunks == Chunks(data)
  {
    chunks := [];
    var rest := data;
    while |rest| > 0
      invariant chunks + Chunks(rest) == Chunks(data)
    {
      var size := if |rest| < MaxPlainPayload then |rest| else MaxPlainPayload;
      ghost var done := chunks;
      if size == |rest| {
        assert rest[..size] == rest && rest[size..] == [];
      }
      assert Chunks(rest) == [rest[..size]] + Chunks(rest[size..]);
      chunks := chunks + [rest[..size]];
      rest := rest[size..];
      assert chunks + Chunks(rest) == done + ([chunks[|done|]] + Chunks(rest));
    }
  }

  function OutputFrames(chunks: seq<seq<byte>>): seq<OutboundFrame> {
    if chunks == [] then []
    else [OutboundFrame(TagOutput, chunks[0], None)] + OutputFrames(chunks[1..])
  }
}
