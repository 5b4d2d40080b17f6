/**
 One client's output from its viewers to the browser: chunking, the bounded queue, the writer that
 seals frames, and an opener fed by an adversary. Viewer output, control frames, queue closures,
 writer failures and the adversary's deliveries interleave freely. A client may open one viewer after
 another; each is announced by a Ready frame, and what follows it up to the next is its screen.
 */
module OutputChannel {
  import opened Options
  import opened Cipher
  import opened OutboundQueue

  datatype Pipe = Pipe(
    emitted: seq<seq<byte>>, // per viewer announced, every byte it handed to its output callback; before the first, nothing
    todo: seq<seq<byte>>, // chunks the newest viewer's SendOutput call has still to push
    stopped: bool, // for the newest viewer: a push was refused, its context cancelled, or its gate was shut
    q: Queue,
    pushed: seq<Frame>, // every frame the queue ever accepted
    shown: seq<seq<byte>>, // and what they show, screen by screen
    inFlight: Option<OutboundFrame>,
    writerDone: bool,
    used: set<ResultId>, // result channels created so far
    accepted: set<ResultId>, // those whose frame the queue accepted
    awaited: map<ResultId, Frame>, // and what frame each of those used waits for
    wire: Wire)

  datatype SenderStep =
    | PushReady(payload: seq<byte>) // a viewer is announced
    | Emit(data: seq<byte>) // by the newest viewer, through an open gate
    | EmitDropped(n: nat, data: seq<byte>) // by any viewer whose gate is shut
    | PushChunk
    | CancelSend // the context was cancelled before the next push
    | PushControl(tag: byte, payload: seq<byte>, result: Option<ResultId>)

  datatype WriterStep =
    | Take
    | Write(written: bool)
    | Close(error: QueueError)
    | WriterStops

  datatype Action =
    | Send(sender: SenderStep)
    | Drain(writer: WriterStep)
    | OnWire(step: WireStep)

  function Start(keys: set<Key>): Pipe {
    Pipe([[]], [], false, NewQueue, [], [[]], None, false, {}, {}, map[], FreshWire(keys))
  }

  function Offer(p: Pipe, maxBytes: int, f: OutboundFrame): (Pipe, bool) {
    var (q, error) := Push(p.q, maxBytes, f);
    (if error.None? then p.(q := q, pushed := p.pushed + [(f.tag, f.payload)], shown := Show(p.shown, (f.tag, f.payload)))
     else p.(q := q), error.None?)
  }

  function Tell(q: Queue, f: OutboundFrame, outcome: Outcome): Queue {
    q.(outcomes := q.outcomes + (if f.result.Some? then [(f.result.value, outcome)] else []))
  }

  /** The writer seals and writes one frame, reports the outcome, and closes everything on an error. */
  function WriteFrame(p: Pipe, k: Key, f: OutboundFrame, written: bool): Pipe
    requires k in p.wire.sealers && k in p.wire.sent
  {
    var (wire, isSealed) := SealOn(p.wire, k, f.tag, f.payload);
    var ok := isSealed && written;
    p.(wire := wire, inFlight := None, writerDone := p.writerDone || !ok,
       q := if ok then Tell(p.q, f, Delivered) else CloseQueue(Tell(p.q, f, Failed(Other(0))), Other(0)))
  }

  function Emitted(emitted: seq<seq<byte>>, n: nat, data: seq<byte>): seq<seq<byte>>
    requires n < |emitted|
  {
    emitted[n := emitted[n] + data]
  }

  function StepSender(p: Pipe, maxBytes: int, a: SenderStep): Option<Pipe> {
    match a
    case PushReady(payload) =>
      if p.todo != [] || |payload| > MaxPlainPayload then None
      else var (t, ok) := Offer(p, maxBytes, OutboundFrame(TagReady, payload, None));
           Some(if ok then t.(emitted := p.emitted + [[]], stopped := false) else t)
    case Emit(data) =>
      if p.todo != [] || p.stopped || |p.emitted| <= 1 then None
      else Some(p.(emitted := Emitted(p.emitted, |p.emitted| - 1, data), todo := Chunks(data)))
    case EmitDropped(n, data) =>
      if n == 0 || n >= |p.emitted| || (n == |p.emitted| - 1 && p.todo != []) then None
      else Some(p.(emitted := Emitted(p.emitted, n, data), stopped := p.stopped || n == |p.emitted| - 1))
    case PushChunk =>
      if p.todo == [] then None
      else var (t, ok) := Offer(p, maxBytes, OutboundFrame(TagOutput, p.todo[0], None));
           Some(if ok then t.(todo := p.todo[1..]) else t.(todo := [], stopped := true))
    case CancelSend => if p.todo == [] then None else Some(p.(todo := [], stopped := true))
    case PushControl(tag, payload, result) =>
      if tag == TagOutput || tag == TagReady || |payload| > MaxPlainPayload || (result.Some? && result.value in p.used) then None
      else
        var (t, ok) := Offer(p, maxBytes, OutboundFrame(tag, payload, result));
        var channel := if result.Some? then {result.value} else {};
        Some(t.(used := p.used + channel, accepted := if ok then p.accepted + channel else p.accepted,
                awaited := if result.Some? then p.awaited[result.value := (tag, payload)] else p.awaited))
  }

  function StepWriter(p: Pipe, k: Key, a: WriterStep): Option<Pipe> {
    match a
    case Take =>
      if p.inFlight.Some? || p.writerDone || Pop(p.q).1.None? then None
      else var (q, f) := Pop(p.q); Some(p.(q := q, inFlight := f))
    case Write(written) =>
      if p.inFlight.None? || k !in p.wire.sealers || k !in p.wire.sent then None
      else Some(WriteFrame(p, k, p.inFlight.value, written))
    case Close(error) => Some(p.(q := CloseQueue(p.q, error)))
    case WriterStops => if p.inFlight.Some? then None else Some(p.(writerDone := true))
  }

  function Step(p: Pipe, k: Key, maxBytes: int, a: Action): Option<Pipe> {
    match a
    case Send(sender) => StepSender(p, maxBytes, sender)
    case Drain(writer) => StepWriter(p, k, writer)
    case OnWire(step) =>
      var wire := Advance(p.wire, step);
      if wire.None? || (step.SealStep? && step.key == k) then None else Some(p.(wire := wire.value))
  }

  // ----- screens -----

  /** What each viewer shows, by the Ready frames in between; first, what comes before any of them. */
  function Screens(frames: seq<Frame>): (screens: seq<seq<byte>>)
    ensures |screens| > 0
  {
    if frames == [] then [[]] else Show(Screens(frames[..|frames| - 1]), frames[|frames| - 1])
  }

  function Show(screens: seq<seq<byte>>, f: Frame): (more: seq<seq<byte>>)
    ensures |more| >= |screens|
  {
    if f.0 == TagReady || screens == [] then screens + [[]]
    else if f.0 == TagOutput then screens[|screens| - 1 := screens[|screens| - 1] + f.1]
    else screens
  }

  /** Screen by screen, `a` shows a beginning of what `b` does. */
  predicate Behind(a: seq<seq<byte>>, b: seq<seq<byte>>) {
    |a| <= |b| && forall n :: 0 <= n < |a| ==> a[n] <= b[n]
  }

  lemma ScreensAppend(frames: seq<Frame>, f: Frame)
    ensures Screens(frames + [f]) == Show(Screens(frames), f)
  {
    assert (frames + [f])[..|frames|] == frames;
  }

  lemma ShowMore(a: seq<seq<byte>>, b: seq<seq<byte>>, f: Frame)
    requires Behind(a, b)
    ensures Behind(a, Show(b, f))
  {
  }

  /** Frames that are a prefix show less. */
  lemma {:induction false} PrefixIsBehind(a: seq<Frame>, b: seq<Frame>)
    requires a <= b
    ensures Behind(Screens(a), Screens(b))
  {
    if a != b {
      PrefixIsBehind(a, b[..|b| - 1]);
      ShowMore(Screens(a), Screens(b[..|b| - 1]), b[|b| - 1]);
    }
  }

  // ----- frames in order -----

  function Plain(frames: seq<OutboundFrame>): (r: seq<Frame>)
    ensures |r| == |frames|
    ensures forall i :: 0 <= i < |r| ==> r[i] == (frames[i].tag, frames[i].payload)
  {
    if frames == [] then [] else [(frames[0].tag, frames[0].payload)] + Plain(frames[1..])
  }

  function Flight(f: Option<OutboundFrame>): seq<OutboundFrame> {
    if f.Some? then [f.value] else []
  }

  // ----- result channels -----

  function ChannelOf(f: OutboundFrame): seq<ResultId> {
    if f.result.Some? then [f.result.value] else []
  }

  function Waiting(frames: seq<OutboundFrame>): seq<ResultId> {
    if frames == [] then [] else ChannelOf(frames[0]) + Waiting(frames[1..])
  }

  function Told(outcomes: seq<(ResultId, Outcome)>): (r: seq<ResultId>)
    ensures |r| == |outcomes| && forall i :: 0 <= i < |r| ==> r[i] == outcomes[i].0
  {
    if outcomes == [] then [] else [outcomes[0].0] + Told(outcomes[1..])
  }

  lemma Grouped(a: seq<ResultId>, b: seq<ResultId>, c: seq<ResultId>)
    ensures a + b + c == a + (b + c) && a + [] == a && [] + a == a
  {
  }

  lemma {:induction false} WaitingAppend(frames: seq<OutboundFrame>, f: OutboundFrame)
    ensures Waiting(frames + [f]) == Waiting(frames) + ChannelOf(f)
  {
    if frames == [] {
      assert frames + [f] == [f] && [f][1..] == [];
      Grouped(ChannelOf(f), [], []);
    } else {
      assert (frames + [f])[1..] == frames[1..] + [f] && (frames + [f])[0] == frames[0];
      WaitingAppend(frames[1..], f);
      Grouped(ChannelOf(frames[0]), Waiting(frames[1..]), ChannelOf(f));
    }
  }

  /** Closing tells every waiting sender, in order, exactly once, and always the close error. */
  lemma {:induction false} RefusalsReachEveryone(frames: seq<OutboundFrame>, error: QueueError)
    ensures Told(Refusals(frames, error)) == Waiting(frames)
    ensures forall i :: 0 <= i < |Refusals(frames, error)| ==> Refusals(frames, error)[i].1 == Failed(error)
  {
    if frames != [] {
      RefusalsReachEveryone(frames[1..], error);
    }
  }

  /** Every result channel known so far: told already, in flight, or queued. */
  ghost function Channels(q: Queue, flight: Option<OutboundFrame>): multiset<ResultId> {
    multiset(Told(q.outcomes)) + multiset(Waiting(Flight(flight))) + multiset(Waiting(q.frames))
  }

  // ----- the invariant -----

  ghost predicate Small(frames: seq<OutboundFrame>) {
    forall i :: 0 <= i < |frames| ==> |frames[i].payload| <= MaxPlainPayload
  }

  /** Frames leave in the order they were accepted; only closing loses any, and then only from the tail. */
  ghost predicate OrderInv(pushed: seq<Frame>, sent: seq<Frame>, flight: Option<OutboundFrame>, q: Queue) {
    && (!q.closed ==> pushed == sent + Plain(Flight(flight)) + Plain(q.frames))
    && sent + Plain(Flight(flight)) <= pushed
    && (q.closed ==> q.frames == [])
  }

  ghost predicate WireOK(wire: Wire, k: Key) {
    WireInv(wire) && k in wire.sent
  }

  ghost predicate SmallInv(p: Pipe) {
    && Small(Flight(p.inFlight)) && Small(p.q.frames)
    && (forall i :: 0 <= i < |p.todo| ==> |p.todo[i]| <= MaxPlainPayload)
  }

  /** What was accepted is, viewer by viewer, what it emitted, minus at most a tail. */
  ghost predicate BytesInv(emitted: seq<seq<byte>>, todo: seq<seq<byte>>, stopped: bool, screens: seq<seq<byte>>) {
    && |screens| == |emitted| > 0 && emitted[0] == []
    && Behind(screens, emitted)
    && (stopped || |emitted| == 1 ==> todo == [])
    && (!stopped ==> screens[|screens| - 1] + Concat(todo) == emitted[|screens| - 1])
  }

  /** Every channel whose frame was accepted is told, in flight or queued, once; the others never. */
  ghost predicate ResultsInv(q: Queue, flight: Option<OutboundFrame>, used: set<ResultId>, accepted: set<ResultId>) {
    (q.closed ==> q.frames == []) && Channels(q, flight) == multiset(accepted) && accepted <= used
  }

  ghost predicate Inv(p: Pipe, k: Key, maxBytes: int) {
    && WireOK(p.wire, k) && OrderInv(p.pushed, p.wire.sent[k], p.inFlight, p.q) && SmallInv(p)
    && BytesInv(p.emitted, p.todo, p.stopped, p.shown)
    && ResultsInv(p.q, p.inFlight, p.used, p.accepted) && Accounted(p.q, maxBytes)
  }

  lemma PlainAppend(frames: seq<OutboundFrame>, f: OutboundFrame)
    ensures Plain(frames + [f]) == Plain(frames) + [(f.tag, f.payload)]
  {
  }

  lemma OfferKeepsOrder(p: Pipe, sent: seq<Frame>, maxBytes: int, f: OutboundFrame)
    requires OrderInv(p.pushed, sent, p.inFlight, p.q)
    ensures var t := Offer(p, maxBytes, f).0; OrderInv(t.pushed, sent, t.inFlight, t.q)
  {
    PlainAppend(p.q.frames, f);
  }

  lemma Shift(sent: seq<Frame>, h: Frame, t: seq<Frame>)
    ensures sent + [] + ([h] + t) == sent + [h] + t && sent + [h] <= sent + [] + ([h] + t)
  {
  }

  lemma PlainOne(f: OutboundFrame)
    ensures Plain(Flight(Some(f))) == [(f.tag, f.payload)] && Plain(Flight(None)) == []
  {
  }

  lemma TakeKeepsOrder(pushed: seq<Frame>, sent: seq<Frame>, q: Queue)
    requires OrderInv(pushed, sent, None, q) && Pop(q).1.Some?
    ensures OrderInv(pushed, sent, Pop(q).1, Pop(q).0)
  {
    PlainOne(q.frames[0]);
    Shift(sent, (q.frames[0].tag, q.frames[0].payload), Plain(q.frames[1..]));
  }

  lemma WriteKeepsOrder(p: Pipe, k: Key, written: bool)
    requires WireOK(p.wire, k) && OrderInv(p.pushed, p.wire.sent[k], p.inFlight, p.q) && p.inFlight.Some?
    ensures var t := WriteFrame(p, k, p.inFlight.value, written);
            k in t.wire.sent && OrderInv(t.pushed, t.wire.sent[k], t.inFlight, t.q)
  {
    var f := p.inFlight.value;
    assert Plain(Flight(Some(f))) == [(f.tag, f.payload)];
    assert Plain(Flight(None)) == [];
  }

  lemma WireKeepsInv(wire: Wire, step: WireStep)
    requires WireInv(wire) && Advance(wire, step).Some?
    ensures WireInv(Advance(wire, step).value)
  {
    match step
    case SealStep(k, tag, payload) =>
      SealKeepsEnds(wire, k, tag, payload);
      SealKeepsLog(wire, k, tag, payload);
    case FeedStep(k, c) => FeedKeepsEnds(wire, k, c);
  }

  lemma SenderKeepsOrder(p: Pipe, sent: seq<Frame>, maxBytes: int, a: SenderStep)
    requires OrderInv(p.pushed, sent, p.inFlight, p.q) && StepSender(p, maxBytes, a).Some?
    ensures var t := StepSender(p, maxBytes, a).value;
            t.wire == p.wire && OrderInv(t.pushed, sent, t.inFlight, t.q)
  {
    match a
    case PushChunk => OfferKeepsOrder(p, sent, maxBytes, OutboundFrame(TagOutput, p.todo[0], None));
    case PushControl(tag, payload, result) => OfferKeepsOrder(p, sent, maxBytes, OutboundFrame(tag, payload, result));
    case PushReady(payload) => OfferKeepsOrder(p, sent, maxBytes, OutboundFrame(TagReady, payload, None));
    case _ =>
  }

  lemma WriterKeepsOrder(p: Pipe, k: Key, a: WriterStep)
    requires WireOK(p.wire, k) && OrderInv(p.pushed, p.wire.sent[k], p.inFlight, p.q) && StepWriter(p, k, a).Some?
    ensures var t := StepWriter(p, k, a).value;
            WireOK(t.wire, k) && OrderInv(t.pushed, t.wire.sent[k], t.inFlight, t.q)
  {
    match a
    case Take => TakeKeepsOrder(p.pushed, p.wire.sent[k], p.q);
    case Write(written) =>
      WireKeepsInv(p.wire, SealStep(k, p.inFlight.value.tag, p.inFlight.value.payload));
      WriteKeepsOrder(p, k, written);
    case _ =>
  }

  lemma AdvanceKeepsSent(wire: Wire, step: WireStep, k: Key)
    requires WireOK(wire, k) && Advance(wire, step).Some? && !(step.SealStep? && step.key == k)
    ensures var t := Advance(wire, step).value; k in t.sent && t.sent[k] == wire.sent[k]
  {
  }

  lemma StepKeepsOrder(p: Pipe, k: Key, maxBytes: int, a: Action)
    requires WireOK(p.wire, k) && OrderInv(p.pushed, p.wire.sent[k], p.inFlight, p.q)
    requires Step(p, k, maxBytes, a).Some?
    ensures var t := Step(p, k, maxBytes, a).value;
            WireOK(t.wire, k) && OrderInv(t.pushed, t.wire.sent[k], t.inFlight, t.q)
  {
    match a
    case Send(sender) => SenderKeepsOrder(p, p.wire.sent[k], maxBytes, sender);
    case Drain(writer) => WriterKeepsOrder(p, k, writer);
    case OnWire(step) =>
      WireKeepsInv(p.wire, step);
      AdvanceKeepsSent(p.wire, step, k);
  }

  lemma OfferKeepsSmall(p: Pipe, maxBytes: int, f: OutboundFrame)
    requires Small(p.q.frames) && |f.payload| <= MaxPlainPayload
    ensures var t := Offer(p, maxBytes, f).0; Small(t.q.frames) && t.inFlight == p.inFlight
  {
  }

  lemma SenderKeepsSmall(p: Pipe, maxBytes: int, a: SenderStep)
    requires SmallInv(p) && StepSender(p, maxBytes, a).Some?
    ensures SmallInv(StepSender(p, maxBytes, a).value)
  {
    match a
    case PushReady(payload) => OfferKeepsSmall(p, maxBytes, OutboundFrame(TagReady, payload, None));
    case PushChunk => OfferKeepsSmall(p, maxBytes, OutboundFrame(TagOutput, p.todo[0], None));
    case PushControl(tag, payload, result) => OfferKeepsSmall(p, maxBytes, OutboundFrame(tag, payload, result));
    case _ =>
  }

  lemma WriterKeepsSmall(p: Pipe, k: Key, a: WriterStep)
    requires SmallInv(p) && StepWriter(p, k, a).Some?
    ensures SmallInv(StepWriter(p, k, a).value)
  {
  }

  lemma StepKeepsSmall(p: Pipe, k: Key, maxBytes: int, a: Action)
    requires SmallInv(p) && Step(p, k, maxBytes, a).Some?
    ensures SmallInv(Step(p, k, maxBytes, a).value)
  {
    match a
    case Send(sender) => SenderKeepsSmall(p, maxBytes, sender);
    case Drain(writer) => WriterKeepsSmall(p, k, writer);
    case OnWire(step) =>
  }

  lemma OfferShows(p: Pipe, maxBytes: int, f: OutboundFrame)
    requires p.shown == Screens(p.pushed)
    ensures var t := Offer(p, maxBytes, f).0; t.shown == Screens(t.pushed)
  {
    ScreensAppend(p.pushed, (f.tag, f.payload));
  }

  lemma StepShows(p: Pipe, k: Key, maxBytes: int, a: Action)
    requires p.shown == Screens(p.pushed) && Step(p, k, maxBytes, a).Some?
    ensures var t := Step(p, k, maxBytes, a).value; t.shown == Screens(t.pushed)
  {
    match a
    case Send(PushReady(payload)) => OfferShows(p, maxBytes, OutboundFrame(TagReady, payload, None));
    case Send(PushChunk) => OfferShows(p, maxBytes, OutboundFrame(TagOutput, p.todo[0], None));
    case Send(PushControl(tag, payload, result)) => OfferShows(p, maxBytes, OutboundFrame(tag, payload, result));
    case _ =>
  }

  lemma Regroup(a: seq<byte>, b: seq<byte>, c: seq<byte>)
    ensures a + b + c == a + (b + c) && a + b <= a + (b + c)
  {
  }

  /** The next chunk extends the newest screen, and is one less to go. */
  lemma ChunkShown(emitted: seq<seq<byte>>, todo: seq<seq<byte>>, screens: seq<seq<byte>>)
    requires BytesInv(emitted, todo, false, screens) && todo != []
    ensures BytesInv(emitted, todo[1..], false, Show(screens, (TagOutput, todo[0])))
    ensures BytesInv(emitted, [], true, screens)
  {
    Regroup(screens[|screens| - 1], todo[0], Concat(todo[1..]));
  }

  lemma MoreEmitted(emitted: seq<seq<byte>>, todo: seq<seq<byte>>, stopped: bool, screens: seq<seq<byte>>, n: nat, data: seq<byte>)
    requires BytesInv(emitted, todo, stopped, screens) && 0 < n < |emitted|
    ensures n < |emitted| - 1 ==> BytesInv(Emitted(emitted, n, data), todo, stopped, screens)
    ensures n == |emitted| - 1 && todo == [] ==> BytesInv(Emitted(emitted, n, data), [], true, screens)
    ensures n == |emitted| - 1 && todo == [] && !stopped ==> BytesInv(Emitted(emitted, n, data), Chunks(data), false, screens)
  {
    ChunksConcat(data);
    assert Concat([]) == [];
  }

  lemma NewScreen(emitted: seq<seq<byte>>, stopped: bool, screens: seq<seq<byte>>, payload: seq<byte>)
    requires BytesInv(emitted, [], stopped, screens)
    ensures BytesInv(emitted + [[]], [], false, Show(screens, (TagReady, payload)))
  {
    assert Concat([]) == [];
  }

  lemma SenderKeepsBytes(p: Pipe, maxBytes: int, a: SenderStep)
    requires BytesInv(p.emitted, p.todo, p.stopped, p.shown) && StepSender(p, maxBytes, a).Some?
    ensures var t := StepSender(p, maxBytes, a).value; BytesInv(t.emitted, t.todo, t.stopped, t.shown)
  {
    match a
    case PushReady(payload) => NewScreen(p.emitted, p.stopped, p.shown, payload);
    case Emit(data) => MoreEmitted(p.emitted, p.todo, p.stopped, p.shown, |p.emitted| - 1, data);
    case EmitDropped(n, data) => MoreEmitted(p.emitted, p.todo, p.stopped, p.shown, n, data);
    case CancelSend => ChunkShown(p.emitted, p.todo, p.shown);
    case PushChunk => ChunkShown(p.emitted, p.todo, p.shown);
    case PushControl(_, _, _) =>
  }

  lemma StepKeepsBytes(p: Pipe, k: Key, maxBytes: int, a: Action)
    requires BytesInv(p.emitted, p.todo, p.stopped, p.shown) && Step(p, k, maxBytes, a).Some?
    ensures var t := Step(p, k, maxBytes, a).value; BytesInv(t.emitted, t.todo, t.stopped, t.shown)
  {
    match a
    case Send(sender) => SenderKeepsBytes(p, maxBytes, sender);
    case Drain(writer) =>
    case OnWire(step) =>
  }

  lemma CloseKeepsChannels(q: Queue, flight: Option<OutboundFrame>, error: QueueError)
    requires q.closed ==> q.frames == []
    ensures Channels(CloseQueue(q, error), flight) == Channels(q, flight)
  {
    if !q.closed {
      RefusalsReachEveryone(q.frames, error);
      assert Told(CloseQueue(q, error).outcomes) == Told(q.outcomes) + Waiting(q.frames);
    }
  }

  lemma QueueingAddsChannel(q: Queue, flight: Option<OutboundFrame>, f: OutboundFrame, bytes: int)
    ensures Channels(q.(frames := q.frames + [f], bytes := bytes), flight) == Channels(q, flight) + multiset(ChannelOf(f))
  {
    WaitingAppend(q.frames, f);
    MultisetOf(Waiting(q.frames), ChannelOf(f));
  }

  lemma PushKeepsChannels(q: Queue, flight: Option<OutboundFrame>, maxBytes: int, f: OutboundFrame)
    requires q.closed ==> q.frames == []
    ensures var (t, error) := Push(q, maxBytes, f);
            Channels(t, flight) == if error.None? then Channels(q, flight) + multiset(ChannelOf(f)) else Channels(q, flight)
  {
    var (t, error) := Push(q, maxBytes, f);
    if error.None? {
      assert t == q.(frames := q.frames + [f], bytes := q.bytes + FrameSize(f));
      QueueingAddsChannel(q, flight, f, q.bytes + FrameSize(f));
    } else {
      assert t == CloseQueue(q, QueueFull) || t == q;
      CloseKeepsChannels(q, flight, QueueFull);
    }
  }

  lemma TakeKeepsChannels(q: Queue)
    requires Pop(q).1.Some?
    ensures Channels(Pop(q).0, Pop(q).1) == Channels(q, None)
  {
    assert Waiting(q.frames) == Waiting(Flight(Some(q.frames[0]))) + Waiting(q.frames[1..]);
  }

  lemma ToldAppend(outcomes: seq<(ResultId, Outcome)>, more: seq<(ResultId, Outcome)>)
    ensures Told(outcomes + more) == Told(outcomes) + Told(more)
  {
  }

  lemma WaitingOne(f: OutboundFrame)
    ensures Waiting(Flight(Some(f))) == ChannelOf(f) && Waiting(Flight(None)) == []
  {
    assert [f][1..] == [];
  }

  lemma MultisetOf(told: seq<ResultId>, now: seq<ResultId>)
    ensures multiset(told + now) == multiset(told) + multiset(now)
  {
  }

  lemma TellKeepsChannels(q: Queue, f: OutboundFrame, outcome: Outcome)
    ensures Channels(Tell(q, f, outcome), None) == Channels(q, Some(f))
  {
    var more := if f.result.Some? then [(f.result.value, outcome)] else [];
    WaitingOne(f);
    ToldAppend(q.outcomes, more);
    assert Told(more) == Waiting(Flight(Some(f)));
    MultisetOf(Told(q.outcomes), Waiting(Flight(Some(f))));
  }

  lemma WriteKeepsChannels(p: Pipe, k: Key, written: bool)
    requires k in p.wire.sealers && k in p.wire.sent && p.inFlight.Some? && (p.q.closed ==> p.q.frames == [])
    ensures var t := WriteFrame(p, k, p.inFlight.value, written);
            t.inFlight == None && Channels(t.q, None) == Channels(p.q, p.inFlight)
  {
    var f := p.inFlight.value;
    TellKeepsChannels(p.q, f, Delivered);
    TellKeepsChannels(p.q, f, Failed(Other(0)));
    CloseKeepsChannels(Tell(p.q, f, Failed(Other(0))), None, Other(0));
  }

  lemma OneMoreOf(accepted: set<ResultId>, used: set<ResultId>, id: ResultId)
    requires accepted <= used && id !in used
    ensures multiset(accepted + {id}) == multiset(accepted) + multiset{id} && accepted + {id} <= used + {id}
    ensures accepted <= used + {id}
  {
  }

  /** A push without a result channel changes none. */
  lemma PlainPushKeepsResults(q: Queue, flight: Option<OutboundFrame>, used: set<ResultId>, accepted: set<ResultId>,
                              maxBytes: int, f: OutboundFrame)
    requires ResultsInv(q, flight, used, accepted) && f.result.None?
    ensures ResultsInv(Push(q, maxBytes, f).0, flight, used, accepted)
  {
    PushKeepsChannels(q, flight, maxBytes, f);
    assert Channels(q, flight) + multiset([]) == Channels(q, flight);
  }

  /** A push with a fresh one adds it exactly when it is accepted. */
  lemma WaitingPushKeepsResults(q: Queue, flight: Option<OutboundFrame>, used: set<ResultId>, accepted: set<ResultId>,
                                maxBytes: int, f: OutboundFrame)
    requires ResultsInv(q, flight, used, accepted) && f.result.Some? && f.result.value !in used
    ensures var (t, error) := Push(q, maxBytes, f);
            ResultsInv(t, flight, used + {f.result.value}, if error.None? then accepted + {f.result.value} else accepted)
  {
    PushKeepsChannels(q, flight, maxBytes, f);
    OneMoreOf(accepted, used, f.result.value);
    assert multiset([f.result.value]) == multiset{f.result.value};
  }

  lemma ControlKeepsResults(p: Pipe, maxBytes: int, tag: byte, payload: seq<byte>, result: Option<ResultId>)
    requires ResultsInv(p.q, p.inFlight, p.used, p.accepted) && (result.Some? ==> result.value !in p.used)
    ensures var (t, ok) := Offer(p, maxBytes, OutboundFrame(tag, payload, result));
            var channel := if result.Some? then {result.value} else {};
            ResultsInv(t.q, t.inFlight, p.used + channel, if ok then p.accepted + channel else p.accepted)
  {
    if result.Some? {
      WaitingPushKeepsResults(p.q, p.inFlight, p.used, p.accepted, maxBytes, OutboundFrame(tag, payload, result));
    } else {
      PlainPushKeepsResults(p.q, p.inFlight, p.used, p.accepted, maxBytes, OutboundFrame(tag, payload, result));
      assert p.used + {} == p.used && p.accepted + {} == p.accepted;
    }
  }

  /** What a push without a result channel leaves as it was. */
  lemma PlainPush(p: Pipe, maxBytes: int, a: SenderStep, f: OutboundFrame, t: Pipe)
    requires StepSender(p, maxBytes, a) == Some(t)
    requires (a.PushReady? && f == OutboundFrame(TagReady, a.payload, None)) ||
             (a.PushChunk? && p.todo != [] && f == OutboundFrame(TagOutput, p.todo[0], None))
    ensures t.q == Push(p.q, maxBytes, f).0 && t.inFlight == p.inFlight && t.used == p.used && t.accepted == p.accepted
    ensures t.awaited == p.awaited && t.wire == p.wire
  {
  }

  lemma ChunkKeepsResults(p: Pipe, maxBytes: int, t: Pipe)
    requires ResultsInv(p.q, p.inFlight, p.used, p.accepted) && StepSender(p, maxBytes, PushChunk) == Some(t)
    ensures ResultsInv(t.q, t.inFlight, t.used, t.accepted)
  {
    var f := OutboundFrame(TagOutput, p.todo[0], None);
    PlainPush(p, maxBytes, PushChunk, f, t);
    PlainPushKeepsResults(p.q, p.inFlight, p.used, p.accepted, maxBytes, f);
  }

  lemma ReadyKeepsResults(p: Pipe, maxBytes: int, payload: seq<byte>, t: Pipe)
    requires ResultsInv(p.q, p.inFlight, p.used, p.accepted) && StepSender(p, maxBytes, PushReady(payload)) == Some(t)
    ensures ResultsInv(t.q, t.inFlight, t.used, t.accepted)
  {
    var f := OutboundFrame(TagReady, payload, None);
    PlainPush(p, maxBytes, PushReady(payload), f, t);
    PlainPushKeepsResults(p.q, p.inFlight, p.used, p.accepted, maxBytes, f);
  }

  /** The other steps of a sender do not touch the queue. */
  lemma QuietSender(p: Pipe, maxBytes: int, a: SenderStep, t: Pipe)
    requires StepSender(p, maxBytes, a) == Some(t) && !a.PushChunk? && !a.PushControl? && !a.PushReady?
    ensures t.q == p.q && t.inFlight == p.inFlight && t.used == p.used && t.accepted == p.accepted
  {
  }

  lemma SenderKeepsResults(p: Pipe, maxBytes: int, a: SenderStep)
    requires ResultsInv(p.q, p.inFlight, p.used, p.accepted) && StepSender(p, maxBytes, a).Some?
    ensures var t := StepSender(p, maxBytes, a).value; ResultsInv(t.q, t.inFlight, t.used, t.accepted)
  {
    match a
    case PushChunk => ChunkKeepsResults(p, maxBytes, StepSender(p, maxBytes, a).value);
    case PushReady(payload) => ReadyKeepsResults(p, maxBytes, payload, StepSender(p, maxBytes, a).value);
    case PushControl(tag, payload, result) => ControlKeepsResults(p, maxBytes, tag, payload, result);
    case _ => QuietSender(p, maxBytes, a, StepSender(p, maxBytes, a).value);
  }

  lemma WriterKeepsResults(p: Pipe, k: Key, a: WriterStep)
    requires ResultsInv(p.q, p.inFlight, p.used, p.accepted) && StepWriter(p, k, a).Some?
    ensures var t := StepWriter(p, k, a).value; ResultsInv(t.q, t.inFlight, t.used, t.accepted)
  {
    match a
    case Take => TakeKeepsChannels(p.q);
    case Write(written) => WriteKeepsChannels(p, k, written);
    case Close(error) => CloseKeepsChannels(p.q, p.inFlight, error);
    case WriterStops =>
  }

  lemma StepKeepsResults(p: Pipe, k: Key, maxBytes: int, a: Action)
    requires ResultsInv(p.q, p.inFlight, p.used, p.accepted) && Step(p, k, maxBytes, a).Some?
    ensures var t := Step(p, k, maxBytes, a).value; ResultsInv(t.q, t.inFlight, t.used, t.accepted)
  {
    match a
    case Send(sender) => SenderKeepsResults(p, maxBytes, sender);
    case Drain(writer) => WriterKeepsResults(p, k, writer);
    case OnWire(step) =>
  }

  lemma StepKeepsAccount(p: Pipe, k: Key, maxBytes: int, a: Action)
    requires Accounted(p.q, maxBytes) && Step(p, k, maxBytes, a).Some?
    ensures Accounted(Step(p, k, maxBytes, a).value.q, maxBytes)
  {
    match a
    case Send(sender) =>
      match sender {
        case PushChunk => PushKeepsAccount(p.q, maxBytes, OutboundFrame(TagOutput, p.todo[0], None));
        case PushReady(payload) => PushKeepsAccount(p.q, maxBytes, OutboundFrame(TagReady, payload, None));
        case PushControl(tag, payload, result) => PushKeepsAccount(p.q, maxBytes, OutboundFrame(tag, payload, result));
        case _ =>
      }
    case Drain(writer) =>
    case OnWire(step) =>
  }

  // ----- whole runs -----

  ghost predicate IsRun(ps: seq<Pipe>, acts: seq<Action>, keys: set<Key>, k: Key, maxBytes: int) {
    && |ps| == |acts| + 1 && k in keys && maxBytes >= 0 && ps[0] == Start(keys)
    && forall i {:trigger acts[i]} :: 0 <= i < |acts| ==> Step(ps[i], k, maxBytes, acts[i]) == Some(ps[i + 1])
  }

  lemma StepKeepsInv(p: Pipe, k: Key, maxBytes: int, a: Action, t: Pipe)
    requires Inv(p, k, maxBytes) && Step(p, k, maxBytes, a) == Some(t)
    ensures Inv(t, k, maxBytes)
  {
    StepKeepsOrder(p, k, maxBytes, a);
    StepKeepsSmall(p, k, maxBytes, a);
    StepKeepsBytes(p, k, maxBytes, a);
    StepKeepsResults(p, k, maxBytes, a);
    StepKeepsAccount(p, k, maxBytes, a);
  }

  lemma StartResults(maxBytes: nat)
    ensures ResultsInv(NewQueue, None, {}, {}) && Accounted(NewQueue, maxBytes)
  {
    assert Told([]) == [] && Waiting([]) == [] && Flight(None) == [];
    assert Channels(NewQueue, None) == multiset{};
  }

  lemma StartOrder(keys: set<Key>, k: Key)
    requires k in keys
    ensures var p := Start(keys); WireOK(p.wire, k) && OrderInv(p.pushed, p.wire.sent[k], p.inFlight, p.q)
  {
    assert Plain([]) == [] && Flight(None) == [];
  }

  lemma StartInv(keys: set<Key>, k: Key, maxBytes: int)
    requires k in keys && maxBytes >= 0
    ensures Inv(Start(keys), k, maxBytes)
  {
    StartResults(maxBytes);
    StartOrder(keys, k);
    assert Concat([]) == [];
    assert SmallInv(Start(keys));
  }

  lemma RunStep(ps: seq<Pipe>, acts: seq<Action>, keys: set<Key>, k: Key, maxBytes: int, i: nat)
    requires IsRun(ps, acts, keys, k, maxBytes) && i < |acts|
    ensures Step(ps[i], k, maxBytes, acts[i]) == Some(ps[i + 1])
  {
  }

  lemma {:induction false} RunKeepsInv(ps: seq<Pipe>, acts: seq<Action>, keys: set<Key>, k: Key, maxBytes: int, i: nat)
    requires IsRun(ps, acts, keys, k, maxBytes) && i < |ps|
    ensures Inv(ps[i], k, maxBytes)
  {
    if i == 0 {
      StartInv(keys, k, maxBytes);
    } else {
      RunKeepsInv(ps, acts, keys, k, maxBytes, i - 1);
      RunStep(ps, acts, keys, k, maxBytes, i - 1);
      StepKeepsInv(ps[i - 1], k, maxBytes, acts[i - 1], ps[i]);
    }
  }

  /** What each viewer shows is what the accepted frames spell. */
  lemma {:induction false} RunShows(ps: seq<Pipe>, acts: seq<Action>, keys: set<Key>, k: Key, maxBytes: int, i: nat)
    requires IsRun(ps, acts, keys, k, maxBytes) && i < |ps|
    ensures ps[i].shown == Screens(ps[i].pushed)
  {
    if i > 0 {
      RunShows(ps, acts, keys, k, maxBytes, i - 1);
      RunStep(ps, acts, keys, k, maxBytes, i - 1);
      StepShows(ps[i - 1], k, maxBytes, acts[i - 1]);
    }
  }

  /** What the peer has accepted lags behind what was pushed, screen by screen, and that behind what was emitted. */
  lemma PeerIsBehind(p: Pipe, k: Key, maxBytes: int)
    requires Inv(p, k, maxBytes) && p.shown == Screens(p.pushed)
    ensures k in p.wire.got && Behind(Screens(p.wire.got[k]), p.emitted) && Screens(p.wire.got[k])[0] == []
  {
    PrefixIsBehind(p.wire.got[k], p.wire.sent[k]);
    PrefixIsBehind(p.wire.sent[k], p.pushed);
  }

  /**
   Whatever happened, what the peer has accepted after the n-th Ready and before the next is a prefix of
   the bytes the n-th viewer emitted, and before the first Ready it has accepted no output at all.
   */
  lemma OutputIsPrefix(ps: seq<Pipe>, acts: seq<Action>, keys: set<Key>, k: Key, maxBytes: int, i: nat)
    requires IsRun(ps, acts, keys, k, maxBytes) && i < |ps|
    ensures k in ps[i].wire.got && Behind(Screens(ps[i].wire.got[k]), ps[i].emitted)
    ensures Screens(ps[i].wire.got[k])[0] == []
  {
    RunKeepsInv(ps, acts, keys, k, maxBytes, i);
    RunShows(ps, acts, keys, k, maxBytes, i);
    PeerIsBehind(ps[i], k, maxBytes);
  }

  /** The writer never meets a frame the sealer finds too long. */
  lemma NeverTooLong(ps: seq<Pipe>, acts: seq<Action>, keys: set<Key>, k: Key, maxBytes: int, i: nat)
    requires IsRun(ps, acts, keys, k, maxBytes) && i < |ps| && ps[i].inFlight.Some?
    ensures k in ps[i].wire.sealers
    ensures Seal(ps[i].wire.sealers[k], k, ps[i].inFlight.value.tag, ps[i].inFlight.value.payload).1 != SealFailed(TooLong)
  {
    RunKeepsInv(ps, acts, keys, k, maxBytes, i);
    assert |Flight(ps[i].inFlight)[0].payload| <= MaxPlainPayload;
  }

  lemma Repeated(ids: seq<ResultId>, x: nat, y: nat)
    requires x < y < |ids|
    ensures ids[x] == ids[y] ==> multiset(ids)[ids[x]] >= 2
  {
    assert ids == ids[..y] + ids[y..];
    assert ids[x] in ids[..y] && ids[y] in ids[y..];
  }

  /** The queue's byte count is exact and bounded. */
  lemma QueueAccounting(ps: seq<Pipe>, acts: seq<Action>, keys: set<Key>, k: Key, maxBytes: int, i: nat)
    requires IsRun(ps, acts, keys, k, maxBytes) && i < |ps|
    ensures ps[i].q.bytes == TotalSize(ps[i].q.frames) <= maxBytes
  {
    RunKeepsInv(ps, acts, keys, k, maxBytes, i);
  }

  /** No result channel is ever told twice. */
  lemma OutcomesAreUnique(ps: seq<Pipe>, acts: seq<Action>, keys: set<Key>, k: Key, maxBytes: int, i: nat, x: nat, y: nat)
    requires IsRun(ps, acts, keys, k, maxBytes) && i < |ps| && x < y < |ps[i].q.outcomes|
    ensures ps[i].q.outcomes[x].0 != ps[i].q.outcomes[y].0
  {
    RunKeepsInv(ps, acts, keys, k, maxBytes, i);
    var ids := Told(ps[i].q.outcomes);
    Repeated(ids, x, y);
    assert Channels(ps[i].q, ps[i].inFlight)[ids[x]] <= 1;
  }

  /** Once the queue is closed and nothing is in flight, exactly the accepted channels have been told, each once. */
  lemma EveryoneIsTold(ps: seq<Pipe>, acts: seq<Action>, keys: set<Key>, k: Key, maxBytes: int, i: nat)
    requires IsRun(ps, acts, keys, k, maxBytes) && i < |ps| && ps[i].q.closed && ps[i].inFlight.None?
    ensures multiset(Told(ps[i].q.outcomes)) == multiset(ps[i].accepted)
  {
    RunKeepsInv(ps, acts, keys, k, maxBytes, i);
    assert Waiting([]) == [] && Flight(None) == [];
    assert Channels(ps[i].q, None) == multiset(Told(ps[i].q.outcomes)) + multiset([]) + multiset([]);
  }

  lemma ClosedStays(p: Pipe, k: Key, maxBytes: int, a: Action)
    requires p.q.closed && p.q.frames == [] && Step(p, k, maxBytes, a).Some?
    ensures var t := Step(p, k, maxBytes, a).value; t.q.closed && t.q.frames == [] && t.pushed == p.pushed && t.shown == p.shown
  {
  }

  /** A closed queue stays closed and accepts nothing. */
  lemma {:induction false} ClosingAbsorbs(ps: seq<Pipe>, acts: seq<Action>, keys: set<Key>, k: Key, maxBytes: int, i: nat, j: nat)
    requires IsRun(ps, acts, keys, k, maxBytes) && i <= j < |ps| && ps[i].q.closed
    ensures ps[j].q.closed && ps[j].q.frames == [] && ps[j].pushed == ps[i].pushed
  {
    if i == j {
      RunKeepsInv(ps, acts, keys, k, maxBytes, i);
    } else {
      ClosingAbsorbs(ps, acts, keys, k, maxBytes, i, j - 1);
      assert Step(ps[j - 1], k, maxBytes, acts[j - 1]) == Some(ps[j]);
      ClosedStays(ps[j - 1], k, maxBytes, acts[j - 1]);
    }
  }

  // ----- what the senders are told -----

  /** The frame waits for the outcome it was pushed with. */
  predicate Awaits(awaited: map<ResultId, Frame>, f: OutboundFrame) {
    f.result.Some? ==> f.result.value in awaited && awaited[f.result.value] == (f.tag, f.payload)
  }

  /** An outcome is no better than the truth: delivered frames were sealed, and a failure closed the queue. */
  predicate Honest(awaited: map<ResultId, Frame>, sent: seq<Frame>, closed: bool, o: (ResultId, Outcome)) {
    if o.1.Delivered? then o.0 in awaited && awaited[o.0] in sent else closed
  }

  ghost predicate AllAwait(awaited: map<ResultId, Frame>, frames: seq<OutboundFrame>) {
    forall i :: 0 <= i < |frames| ==> Awaits(awaited, frames[i])
  }

  ghost predicate AllHonest(awaited: map<ResultId, Frame>, sent: seq<Frame>, q: Queue) {
    forall i :: 0 <= i < |q.outcomes| ==> Honest(awaited, sent, q.closed, q.outcomes[i])
  }

  ghost predicate OutcomesInv(p: Pipe, k: Key) {
    && k in p.wire.sent && p.awaited.Keys <= p.used
    && AllAwait(p.awaited, p.q.frames) && AllAwait(p.awaited, Flight(p.inFlight))
    && AllHonest(p.awaited, p.wire.sent[k], p.q)
  }

  lemma RefusalsAreFailures(frames: seq<OutboundFrame>, error: QueueError, o: (ResultId, Outcome))
    requires o in Refusals(frames, error)
    ensures o.1 == Failed(error)
  {
    RefusalsReachEveryone(frames, error);
  }

  /** Closing a queue tells only failures, and leaves none waiting. */
  lemma CloseIsHonest(awaited: map<ResultId, Frame>, sent: seq<Frame>, q: Queue, error: QueueError)
    requires AllAwait(awaited, q.frames) && AllHonest(awaited, sent, q)
    ensures AllAwait(awaited, CloseQueue(q, error).frames) && AllHonest(awaited, sent, CloseQueue(q, error))
  {
    var t := CloseQueue(q, error);
    forall i | 0 <= i < |t.outcomes| ensures Honest(awaited, sent, t.closed, t.outcomes[i]) {
      if i < |q.outcomes| {
        assert t.outcomes[i] == q.outcomes[i];
      } else {
        RefusalsAreFailures(q.frames, error, t.outcomes[i]);
      }
    }
  }

  /** What the writer tells of the frame in flight: delivered exactly when it was sealed and written. */
  lemma WriteTells(p: Pipe, k: Key, written: bool)
    requires WireOK(p.wire, k) && p.inFlight.Some? && !p.wire.sealers[k].poisoned
    ensures var (f, t) := (p.inFlight.value, WriteFrame(p, k, p.inFlight.value, written));
            var ok := |p.wire.sent[k]| < MaxUint64 && |f.payload| + 17 <= MaxWireMessage && written;
            && p.q.outcomes + (if f.result.None? then [] else [(f.result.value, if ok then Delivered else Failed(Other(0)))])
               <= t.q.outcomes
            && (if ok then t.q.frames == p.q.frames && t.q.closed == p.q.closed && t.wire.sent[k] == p.wire.sent[k] + [(f.tag, f.payload)]
                else t.q.closed && t.writerDone)
  {
    SealLogsExactly(p.wire, k, p.inFlight.value.tag, p.inFlight.value.payload);
  }

  /** More frames sealed, and more outcomes known, make no outcome less honest. */
  lemma StillHonest(awaited: map<ResultId, Frame>, more: map<ResultId, Frame>, sent: seq<Frame>, longer: seq<Frame>, q: Queue)
    requires AllHonest(awaited, sent, q) && sent <= longer
    requires forall id :: id in awaited ==> id in more && more[id] == awaited[id]
    ensures AllHonest(more, longer, q)
  {
    forall i | 0 <= i < |q.outcomes| ensures Honest(more, longer, q.closed, q.outcomes[i]) {
      assert Honest(awaited, sent, q.closed, q.outcomes[i]);
    }
  }

  lemma DeliveredIsHonest(awaited: map<ResultId, Frame>, sent: seq<Frame>, q: Queue, f: OutboundFrame)
    requires AllHonest(awaited, sent, q) && Awaits(awaited, f) && (f.tag, f.payload) in sent
    ensures AllHonest(awaited, sent, Tell(q, f, Delivered))
  {
  }

  lemma FailedIsHonest(awaited: map<ResultId, Frame>, sent: seq<Frame>, q: Queue, f: OutboundFrame, error: QueueError)
    requires AllAwait(awaited, q.frames) && AllHonest(awaited, sent, q)
    ensures var t := CloseQueue(Tell(q, f, Failed(error)), error); AllAwait(awaited, t.frames) && AllHonest(awaited, sent, t)
  {
    var told := Tell(q, f, Failed(error));
    var t := CloseQueue(told, error);
    forall i | 0 <= i < |t.outcomes| ensures Honest(awaited, sent, t.closed, t.outcomes[i]) {
      if i < |q.outcomes| {
        assert t.outcomes[i] == q.outcomes[i];
      } else if i >= |told.outcomes| {
        RefusalsAreFailures(told.frames, error, t.outcomes[i]);
      }
    }
  }

  lemma SealedIsSent(w: Wire, k: Key, f: OutboundFrame)
    requires k in w.sealers && k in w.sent
    ensures var (t, ok) := SealOn(w, k, f.tag, f.payload);
            k in t.sent && w.sent[k] <= t.sent[k] && (ok ==> (f.tag, f.payload) in t.sent[k])
  {
    var (t, ok) := SealOn(w, k, f.tag, f.payload);
    if ok {
      assert t.sent[k][|w.sent[k]|] == (f.tag, f.payload);
    }
  }

  lemma WriteIsHonest(p: Pipe, k: Key, written: bool)
    requires OutcomesInv(p, k) && WireOK(p.wire, k) && p.inFlight.Some?
    ensures OutcomesInv(WriteFrame(p, k, p.inFlight.value, written), k)
  {
    var f := p.inFlight.value;
    var (wire, isSealed) := SealOn(p.wire, k, f.tag, f.payload);
    assert Awaits(p.awaited, Flight(p.inFlight)[0]);
    SealedIsSent(p.wire, k, f);
    StillHonest(p.awaited, p.awaited, p.wire.sent[k], wire.sent[k], p.q);
    if isSealed && written {
      DeliveredIsHonest(p.awaited, wire.sent[k], p.q, f);
    } else {
      FailedIsHonest(p.awaited, wire.sent[k], p.q, f, Other(0));
    }
  }

  lemma PushIsHonest(q: Queue, maxBytes: int, f: OutboundFrame, awaited: map<ResultId, Frame>, sent: seq<Frame>)
    requires AllAwait(awaited, q.frames) && AllHonest(awaited, sent, q) && Awaits(awaited, f)
    ensures var t := Push(q, maxBytes, f).0; AllAwait(awaited, t.frames) && AllHonest(awaited, sent, t)
  {
    CloseIsHonest(awaited, sent, q, QueueFull);
  }

  /** What a push with a result channel changes. */
  lemma ControlPush(p: Pipe, maxBytes: int, tag: byte, payload: seq<byte>, result: Option<ResultId>, t: Pipe)
    requires StepSender(p, maxBytes, PushControl(tag, payload, result)) == Some(t)
    ensures t.q == Push(p.q, maxBytes, OutboundFrame(tag, payload, result)).0 && t.inFlight == p.inFlight && t.wire == p.wire
    ensures t.awaited == (if result.Some? then p.awaited[result.value := (tag, payload)] else p.awaited)
    ensures t.used == (if result.Some? then p.used + {result.value} else p.used) && (result.Some? ==> result.value !in p.used)
  {
  }

  lemma StillAwait(awaited: map<ResultId, Frame>, more: map<ResultId, Frame>, frames: seq<OutboundFrame>)
    requires AllAwait(awaited, frames) && forall id :: id in awaited ==> id in more && more[id] == awaited[id]
    ensures AllAwait(more, frames)
  {
  }

  lemma ControlIsHonest(p: Pipe, k: Key, maxBytes: int, tag: byte, payload: seq<byte>, result: Option<ResultId>, t: Pipe)
    requires OutcomesInv(p, k) && StepSender(p, maxBytes, PushControl(tag, payload, result)) == Some(t)
    ensures OutcomesInv(t, k)
  {
    ControlPush(p, maxBytes, tag, payload, result, t);
    StillAwait(p.awaited, t.awaited, p.q.frames);
    StillAwait(p.awaited, t.awaited, Flight(p.inFlight));
    StillHonest(p.awaited, t.awaited, p.wire.sent[k], p.wire.sent[k], p.q);
    PushIsHonest(p.q, maxBytes, OutboundFrame(tag, payload, result), t.awaited, p.wire.sent[k]);
  }

  lemma PlainIsHonest(p: Pipe, k: Key, maxBytes: int, a: SenderStep, f: OutboundFrame, t: Pipe)
    requires OutcomesInv(p, k) && StepSender(p, maxBytes, a) == Some(t)
    requires (a.PushReady? && f == OutboundFrame(TagReady, a.payload, None)) ||
             (a.PushChunk? && p.todo != [] && f == OutboundFrame(TagOutput, p.todo[0], None))
    ensures OutcomesInv(t, k)
  {
    PlainPush(p, maxBytes, a, f, t);
    PushIsHonest(p.q, maxBytes, f, p.awaited, p.wire.sent[k]);
  }

  lemma SenderIsHonest(p: Pipe, k: Key, maxBytes: int, a: SenderStep, t: Pipe)
    requires OutcomesInv(p, k) && StepSender(p, maxBytes, a) == Some(t)
    ensures OutcomesInv(t, k)
  {
    match a
    case PushReady(payload) => PlainIsHonest(p, k, maxBytes, a, OutboundFrame(TagReady, payload, None), t);
    case PushChunk => PlainIsHonest(p, k, maxBytes, a, OutboundFrame(TagOutput, p.todo[0], None), t);
    case PushControl(tag, payload, result) => ControlIsHonest(p, k, maxBytes, tag, payload, result, t);
    case _ =>
  }

  lemma WriterIsHonest(p: Pipe, k: Key, a: WriterStep, t: Pipe)
    requires OutcomesInv(p, k) && WireOK(p.wire, k) && StepWriter(p, k, a) == Some(t)
    ensures OutcomesInv(t, k)
  {
    match a
    case Write(written) => WriteIsHonest(p, k, written);
    case Close(error) => CloseIsHonest(p.awaited, p.wire.sent[k], p.q, error);
    case _ =>
  }

  lemma StepIsHonest(p: Pipe, k: Key, maxBytes: int, a: Action, t: Pipe)
    requires OutcomesInv(p, k) && WireOK(p.wire, k) && Step(p, k, maxBytes, a) == Some(t)
    ensures OutcomesInv(t, k)
  {
    match a
    case Send(sender) => SenderIsHonest(p, k, maxBytes, sender, t);
    case Drain(writer) => WriterIsHonest(p, k, writer, t);
    case OnWire(step) => AdvanceKeepsSent(p.wire, step, k);
  }

  lemma {:induction false} RunIsHonest(ps: seq<Pipe>, acts: seq<Action>, keys: set<Key>, k: Key, maxBytes: int, i: nat)
    requires IsRun(ps, acts, keys, k, maxBytes) && i < |ps|
    ensures OutcomesInv(ps[i], k) && WireOK(ps[i].wire, k)
  {
    if i == 0 {
      StartOrder(keys, k);
    } else {
      RunIsHonest(ps, acts, keys, k, maxBytes, i - 1);
      RunStep(ps, acts, keys, k, maxBytes, i - 1);
      StepIsHonest(ps[i - 1], k, maxBytes, acts[i - 1], ps[i]);
      StepKeepsWire(ps[i - 1], k, maxBytes, acts[i - 1], ps[i]);
    }
  }

  lemma StepKeepsWire(p: Pipe, k: Key, maxBytes: int, a: Action, t: Pipe)
    requires WireOK(p.wire, k) && Step(p, k, maxBytes, a) == Some(t)
    ensures WireOK(t.wire, k)
  {
    match a
    case Send(sender) => SenderLeavesWire(p, maxBytes, sender, t);
    case Drain(Write(_)) => WireKeepsInv(p.wire, SealStep(k, p.inFlight.value.tag, p.inFlight.value.payload));
    case Drain(_) =>
    case OnWire(step) => WireKeepsInv(p.wire, step);
  }

  lemma SenderLeavesWire(p: Pipe, maxBytes: int, a: SenderStep, t: Pipe)
    requires StepSender(p, maxBytes, a) == Some(t)
    ensures t.wire == p.wire
  {
  }

  /** A sender told "delivered" had exactly its frame sealed for the wire; one told of a failure finds the queue closed. */
  lemma OutcomesAreHonest(ps: seq<Pipe>, acts: seq<Action>, keys: set<Key>, k: Key, maxBytes: int, i: nat, x: nat)
    requires IsRun(ps, acts, keys, k, maxBytes) && i < |ps| && x < |ps[i].q.outcomes|
    ensures var (id, outcome) := ps[i].q.outcomes[x];
            if outcome.Delivered? then k in ps[i].wire.sent && id in ps[i].awaited && ps[i].awaited[id] in ps[i].wire.sent[k]
            else ps[i].q.closed
  {
    RunIsHonest(ps, acts, keys, k, maxBytes, i);
    assert Honest(ps[i].awaited, ps[i].wire.sent[k], ps[i].q.closed, ps[i].q.outcomes[x]);
  }

  // ----- getting there -----

  /** A step of the sender or the writer does what it is for. */
  lemma SenderSteps(p: Pipe, maxBytes: int, data: seq<byte>, n: nat)
    ensures p.todo == [] && !p.stopped && |p.emitted| > 1 ==>
              var (t, last) := (StepSender(p, maxBytes, Emit(data)), |p.emitted| - 1);
              t.Some? && t.value == p.(emitted := p.emitted[last := p.emitted[last] + data], todo := Chunks(data))
    ensures 0 < n < |p.emitted| - 1 ==>
              StepSender(p, maxBytes, EmitDropped(n, data)) == Some(p.(emitted := p.emitted[n := p.emitted[n] + data]))
    ensures p.todo != [] ==> StepSender(p, maxBytes, CancelSend) == Some(p.(todo := [], stopped := true))
  {
  }

  lemma WriterSteps(p: Pipe, k: Key, error: QueueError)
    ensures StepWriter(p, k, Take).Some? <==> p.inFlight.None? && !p.writerDone && !p.q.closed && p.q.frames != []
    ensures StepWriter(p, k, Take).Some? ==>
              var t := StepWriter(p, k, Take).value;
              t.inFlight == Some(p.q.frames[0]) && t.q.frames == p.q.frames[1..] && t.wire == p.wire && t.pushed == p.pushed
    ensures var t := StepWriter(p, k, Close(error));
            t.Some? && t.value.q.closed && if p.q.closed then t == Some(p) else t.value.q.frames == [] && t.value.wire == p.wire
    ensures p.inFlight.None? ==> StepWriter(p, k, WriterStops) == Some(p.(writerDone := true))
  {
  }

  /** The newest chunk on its way: queued, taken, sealed. */
  lemma ChunkGoesOut(p: Pipe, k: Key, maxBytes: int, data: seq<byte>) returns (p1: Pipe, p2: Pipe, p3: Pipe)
    requires Inv(p, k, maxBytes) && p.todo == [data] && !p.stopped && 0 < |data| <= MaxPlainPayload
    requires !p.q.closed && p.q.frames == [] && p.inFlight.None? && !p.writerDone && |data| + 17 <= maxBytes
    requires !p.wire.sealers[k].poisoned && |p.wire.sent[k]| < MaxUint64
    ensures StepSender(p, maxBytes, PushChunk) == Some(p1) && StepWriter(p1, k, Take) == Some(p2)
    ensures StepWriter(p2, k, Write(true)) == Some(p3)
    ensures k in p3.wire.sent && p3.wire.sent[k] == p.wire.sent[k] + [(TagOutput, data)] && p3.wire.got == p.wire.got
    ensures p3.wire.openers == p.wire.openers && p3.todo == [] && !p3.stopped && !p3.q.closed && p3.q.frames == []
    ensures p3.inFlight.None? && !p3.writerDone && p3.emitted == p.emitted
    ensures Feasible(p3.wire, Sealed(k, CounterNonce(|p.wire.sent[k]|), [TagOutput] + data))
  {
    var f := OutboundFrame(TagOutput, data, None);
    PushAcceptsExactly(p.q, maxBytes, f);
    p1 := StepSender(p, maxBytes, PushChunk).value;
    assert p.q.frames + [f] == [f];
    p2 := StepWriter(p1, k, Take).value;
    assert [f][1..] == [];
    SealLogsExactly(p2.wire, k, TagOutput, data);
    SealedIsFeasible(p2.wire, k, TagOutput, data);
    p3 := StepWriter(p2, k, Write(true)).value;
  }

  lemma CaughtUp(p: Pipe, k: Key, maxBytes: int)
    requires Inv(p, k, maxBytes) && p.shown == Screens(p.pushed) && p.todo == [] && !p.stopped
    requires !p.q.closed && p.q.frames == [] && p.inFlight.None? && p.wire.got[k] == p.wire.sent[k]
    ensures var screens := Screens(p.wire.got[k]);
            |screens| == |p.emitted| && screens[|screens| - 1] == p.emitted[|p.emitted| - 1]
  {
    assert Plain([]) == [] && Flight(None) == [] && Concat([]) == [];
    assert p.pushed == p.wire.sent[k];
  }

  /**
   With nothing queued or lost before, what the newest viewer emits reaches the peer's screen: emitted, queued,
   taken, sealed, written and fed to the opener, its screen shows all of it.
   */
  lemma OutputArrives(p: Pipe, k: Key, maxBytes: int, data: seq<byte>)
    returns (p0: Pipe, p1: Pipe, p2: Pipe, p3: Pipe, t: Pipe)
    requires Inv(p, k, maxBytes) && p.shown == Screens(p.pushed) && p.todo == [] && !p.stopped && |p.emitted| > 1
    requires !p.q.closed && p.q.frames == [] && p.inFlight.None? && !p.writerDone
    requires 0 < |data| <= MaxPlainPayload && |data| + 17 <= maxBytes && |p.wire.sent[k]| < MaxUint64
    requires !p.wire.sealers[k].poisoned && !p.wire.openers[k].poisoned && p.wire.got[k] == p.wire.sent[k]
    ensures Step(p, k, maxBytes, Send(Emit(data))) == Some(p0) && Step(p0, k, maxBytes, Send(PushChunk)) == Some(p1)
    ensures Step(p1, k, maxBytes, Drain(Take)) == Some(p2) && Step(p2, k, maxBytes, Drain(Write(true))) == Some(p3)
    ensures var c := Sealed(k, CounterNonce(|p.wire.sent[k]|), [TagOutput] + data);
            Step(p3, k, maxBytes, OnWire(FeedStep(k, c))) == Some(t)
    ensures k in t.wire.got && t.emitted[|t.emitted| - 1] == p.emitted[|p.emitted| - 1] + data
    ensures var screens := Screens(t.wire.got[k]); screens[|screens| - 1] == t.emitted[|t.emitted| - 1]
  {
    p0 := EmitStarts(p, k, maxBytes, data);
    p1, p2, p3 := ChunkGoesOut(p0, k, maxBytes, data);
    StillKept(p0, k, maxBytes, p1, p2, p3);
    t := PeerReads(p3, k, maxBytes, data, p.wire.sent[k]);
  }

  lemma EmitStarts(p: Pipe, k: Key, maxBytes: int, data: seq<byte>) returns (t: Pipe)
    requires Inv(p, k, maxBytes) && p.todo == [] && !p.stopped && |p.emitted| > 1 && 0 < |data| <= MaxPlainPayload
    ensures Step(p, k, maxBytes, Send(Emit(data))) == Some(t) && Inv(t, k, maxBytes)
    ensures t == p.(emitted := Emitted(p.emitted, |p.emitted| - 1, data), todo := [data])
  {
    t := p.(emitted := Emitted(p.emitted, |p.emitted| - 1, data), todo := Chunks(data));
    StepKeepsInv(p, k, maxBytes, Send(Emit(data)), t);
  }

  lemma StillKept(p0: Pipe, k: Key, maxBytes: int, p1: Pipe, p2: Pipe, p3: Pipe)
    requires Inv(p0, k, maxBytes) && p0.shown == Screens(p0.pushed) && StepSender(p0, maxBytes, PushChunk) == Some(p1)
    requires StepWriter(p1, k, Take) == Some(p2) && StepWriter(p2, k, Write(true)) == Some(p3)
    ensures Inv(p3, k, maxBytes) && p3.shown == Screens(p3.pushed)
  {
    StepKeepsInv(p0, k, maxBytes, Send(PushChunk), p1);
    StepShows(p0, k, maxBytes, Send(PushChunk));
    StepKeepsInv(p1, k, maxBytes, Drain(Take), p2);
    StepShows(p1, k, maxBytes, Drain(Take));
    StepKeepsInv(p2, k, maxBytes, Drain(Write(true)), p3);
    StepShows(p2, k, maxBytes, Drain(Write(true)));
  }

  lemma PeerReads(p: Pipe, k: Key, maxBytes: int, data: seq<byte>, before: seq<Frame>) returns (t: Pipe)
    requires Inv(p, k, maxBytes) && p.shown == Screens(p.pushed) && p.todo == [] && !p.stopped
    requires !p.q.closed && p.q.frames == [] && p.inFlight.None? && |data| <= MaxPlainPayload
    requires p.wire.sent[k] == before + [(TagOutput, data)] && p.wire.got[k] == before && !p.wire.openers[k].poisoned
    requires Feasible(p.wire, Sealed(k, CounterNonce(|before|), [TagOutput] + data))
    ensures Step(p, k, maxBytes, OnWire(FeedStep(k, Sealed(k, CounterNonce(|before|), [TagOutput] + data)))) == Some(t)
    ensures t.emitted == p.emitted && k in t.wire.got
    ensures var screens := Screens(t.wire.got[k]); |screens| == |t.emitted| && screens[|screens| - 1] == t.emitted[|t.emitted| - 1]
  {
    var c := Sealed(k, CounterNonce(|before|), [TagOutput] + data);
    FeedsExactly(p.wire, k, c);
    t := Step(p, k, maxBytes, OnWire(FeedStep(k, c))).value;
    StepKeepsInv(p, k, maxBytes, OnWire(FeedStep(k, c)), t);
    CaughtUp(t, k, maxBytes);
  }
}
