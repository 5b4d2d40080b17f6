/**
 One client's output over runs of the whole mirror: the machine of MirrorSystem and the pipe of
 OutputChannel, joined where they touch. A viewer announced under the manager lock may output only
 through the gate the manager keeps for its opening; the gate is read under the shared lock, which is
 held until the last chunk is queued; and what closes the client's queue on one side closes it on the other.
 */
module MirrorOutput {
  import opened Options
  import opened Cipher
  import opened OutboundQueue
  import opened MirrorManager
  import Mirror = MirrorSystem
  import Channel = OutputChannel

  /** The client in question, its sealing key and its queue's bound. */
  datatype Link = Link(client: ClientId, key: Key, maxBytes: nat)

  datatype Joint = Joint(
    s: Mirror.Sys,
    p: Channel.Pipe,
    openings: seq<OpenId>, // whose Ready the queue accepted: number n - 1 is the opening of p.emitted[n]
    sending: nat, // whose output the pipe is queueing
    ended: set<nat>) // viewers that were told of a refused chunk, and read no further

  function Start(keys: set<Key>): Joint {
    Joint(Mirror.Init, Channel.Start(keys), [], 0, {})
  }

  datatype Action =
    | Manage(step: Mirror.Action)
    | Announce(id: OpenId, payload: seq<byte>, offered: bool) // `open`'s first section, for this client
    | Emits(n: nat, data: seq<byte>) // sendViewerOutput, called by viewer n
    | Chunk
    | Control(tag: byte, payload: seq<byte>, result: Option<ResultId>)
    | Writes(writer: Channel.WriterStep)
    | OnWire(wire: WireStep)

  /** Whether the step takes the manager lock, which a reader in sendViewerOutput keeps out. */
  predicate TakesLock(a: Mirror.Action) {
    match a
    case Start(b) => !b.ServerStarted? && !b.TunnelStarted? && !b.StartAbort?
    case Stop(e) => !e.CleanupRun?
    case Rotate(r) => r.RotateCut? || r.RotateClose? || r.RotateCommitted?
    case Serve(_) => false
    case Open(_) => true
    case Visit(v) => !v.InputLookup? && !v.OutputPushed?
    case View(_) => false
  }

  predicate Preparing(s: Mirror.Sys, c: ClientId, id: OpenId) {
    id in s.calls.opens && s.calls.opens[id] == Mirror.Preparing(c)
  }

  /** A reservation for client `c`. */
  predicate Reserves(s: Mirror.Sys, c: ClientId, a: Mirror.Action) {
    a.Open? && a.open.ReserveOpen? && Preparing(s, c, a.open.id)
  }

  // ----- steps -----

  /** The manager's side has moved; its closing of the queue reaches the pipe. */
  function Followed(l: Link, j: Joint, s: Mirror.Sys): Joint {
    j.(s := s, p := if l.client in s.net.closedQueues then j.p.(q := CloseQueue(j.p.q, Other(0))) else j.p)
  }

  /** The pipe has moved; its closing of the queue reaches the manager's side. */
  function Reported(l: Link, j: Joint, p: Channel.Pipe): Joint {
    j.(p := p, s := if p.q.closed then j.s.(net := j.s.net.(closedQueues := j.s.net.closedQueues + {l.client})) else j.s)
  }

  function Through(l: Link, j: Joint, a: Channel.Action): Option<Joint> {
    var p := Channel.Step(j.p, l.key, l.maxBytes, a);
    if p.None? || l.client !in j.s.net.registered then None else Some(Reported(l, j, p.value))
  }

  /** Whether the pipe's queue would accept this Ready frame. */
  predicate Accepts(l: Link, p: Channel.Pipe, payload: seq<byte>) {
    Push(p.q, l.maxBytes, OutboundFrame(TagReady, payload, None)).1.None?
  }

  /** Ready is offered to the queue only once every other condition holds and the context is live. */
  function StepAnnounce(l: Link, j: Joint, id: OpenId, payload: seq<byte>, offered: bool): Option<Joint> {
    var p := Channel.Step(j.p, l.key, l.maxBytes, Channel.Send(Channel.PushReady(payload)));
    var ok := offered && Accepts(l, j.p, payload);
    var s := Mirror.Step(j.s, Mirror.Open(Mirror.ReserveOpen(id, ok)));
    if p.None? || s.None? || !Preparing(j.s, l.client, id) || l.client !in j.s.net.registered then None
    else
      var verdict := Reserve(j.s.m, l.client, id, ok && Mirror.Reachable(j.s, l.client)).1;
      if verdict == Reserved then Some(j.(s := s.value, p := p.value, openings := j.openings + [id]))
      else if verdict == QueueRefused && offered && !ok then Some(Reported(l, j.(s := s.value), p.value))
      else Some(j.(s := s.value))
  }

  /** The callback of viewer `n`: through its gate if that is open, and otherwise to nowhere. */
  function StepEmits(l: Link, j: Joint, n: nat, data: seq<byte>): Option<Joint> {
    if n == 0 || n >= |j.p.emitted| || n > |j.openings| || n in j.ended || j.s.cut.Some? then None
    else if j.p.todo != [] && j.sending == n then None
    else
      var emitted := Channel.Emitted(j.p.emitted, n, data);
      if !OutputAllowed(j.s.m, l.client, j.openings[n - 1])
      then Some(j.(p := j.p.(emitted := emitted, stopped := j.p.stopped || n == |j.p.emitted| - 1)))
      else if j.p.todo != [] then None
      else Some(j.(p := j.p.(emitted := emitted, todo := Chunks(data)), sending := n))
  }

  function Step(l: Link, j: Joint, a: Action): Option<Joint> {
    match a
    case Manage(b) =>
      if (j.p.todo != [] && TakesLock(b)) || Reserves(j.s, l.client, b) then None
      else var s := Mirror.Step(j.s, b); if s.None? then None else Some(Followed(l, j, s.value))
    case Announce(id, payload, offered) => StepAnnounce(l, j, id, payload, offered)
    case Emits(n, data) => StepEmits(l, j, n, data)
    case Chunk =>
      var t := Through(l, j, Channel.Send(Channel.PushChunk));
      if t.None? then None
      else Some(t.value.(ended := if t.value.p.stopped then j.ended + {j.sending} else j.ended))
    case Control(tag, payload, result) => Through(l, j, Channel.Send(Channel.PushControl(tag, payload, result)))
    case Writes(w) => Through(l, j, Channel.Drain(w))
    case OnWire(w) => Through(l, j, Channel.OnWire(w))
  }

  // ----- the invariant -----

  ghost predicate OpeningsInv(calls: Mirror.Calls, openings: seq<OpenId>) {
    && (forall i :: 0 <= i < |openings| ==> !Mirror.Unreserved(calls, openings[i]))
    && (forall i, k :: 0 <= i < k < |openings| ==> openings[i] != openings[k])
  }

  /** The gate stands open for the newest opening at most. */
  ghost predicate GateInv(m: Mgr, c: ClientId, openings: seq<OpenId>) {
    forall id :: OutputAllowed(m, c, id) ==> openings != [] && id == openings[|openings| - 1]
  }

  predicate NewestAllowed(m: Mgr, c: ClientId, openings: seq<OpenId>) {
    openings != [] && OutputAllowed(m, c, openings[|openings| - 1])
  }

  /** Only the newest viewer sends, through an open gate; where the pipe says it stopped, it will not send again. */
  ghost predicate SenderInv(l: Link, j: Joint) {
    && (j.p.todo != [] ==> j.s.cut.None? && j.sending == |j.openings| && NewestAllowed(j.s.m, l.client, j.openings))
    && (j.p.stopped ==> |j.openings| in j.ended || !NewestAllowed(j.s.m, l.client, j.openings))
  }

  ghost predicate LinkInv(l: Link, j: Joint) {
    && (l.client in j.s.net.closedQueues <==> j.p.q.closed)
    && |j.p.emitted| == |j.openings| + 1
    && OpeningsInv(j.s.calls, j.openings) && GateInv(j.s.m, l.client, j.openings) && SenderInv(l, j)
  }

  // ----- what the manager's steps do to the gate -----

  lemma StartLeavesGate(s: Mirror.Sys, a: Mirror.StartStep, c: ClientId, id: OpenId)
    requires Mirror.StepStart(s, a).Some?
    ensures var t := Mirror.StepStart(s, a).value;
            OutputAllowed(t.m, c, id) == OutputAllowed(s.m, c, id) && t.calls == s.calls
  {
    Mirror.StartLeavesClients(s, a);
  }

  lemma StopNarrowsGate(s: Mirror.Sys, a: Mirror.StopStep, c: ClientId, id: OpenId)
    requires Mirror.StepStop(s, a).Some?
    ensures var t := Mirror.StepStop(s, a).value;
            && (OutputAllowed(t.m, c, id) ==> OutputAllowed(s.m, c, id))
            && (Mirror.Unreserved(t.calls, id) ==> Mirror.Unreserved(s.calls, id))
  {
  }

  lemma OpenNarrowsGate(s: Mirror.Sys, a: Mirror.OpenStep, c: ClientId, id: OpenId)
    requires Mirror.StepOpen(s, a).Some? && !Reserves(s, c, Mirror.Open(a))
    ensures var t := Mirror.StepOpen(s, a).value;
            && (OutputAllowed(t.m, c, id) ==> OutputAllowed(s.m, c, id))
            && (Mirror.Unreserved(t.calls, id) ==> Mirror.Unreserved(s.calls, id))
  {
  }

  lemma ClientNarrowsGate(s: Mirror.Sys, a: Mirror.ClientStep, c: ClientId, id: OpenId)
    requires Mirror.StepClient(s, a).Some?
    ensures var t := Mirror.StepClient(s, a).value;
            && (OutputAllowed(t.m, c, id) ==> OutputAllowed(s.m, c, id))
            && (Mirror.Unreserved(t.calls, id) ==> Mirror.Unreserved(s.calls, id))
  {
  }

  /** Nothing but a reservation for the client opens a gate of the client's, and what was reserved stays so. */
  lemma GateNarrows(s: Mirror.Sys, a: Mirror.Action, t: Mirror.Sys, c: ClientId, id: OpenId)
    requires Mirror.Step(s, a) == Some(t) && !Reserves(s, c, a)
    ensures OutputAllowed(t.m, c, id) ==> OutputAllowed(s.m, c, id)
    ensures Mirror.Unreserved(t.calls, id) ==> Mirror.Unreserved(s.calls, id)
  {
    match a
    case Start(b) => StartLeavesGate(s, b, c, id);
    case Stop(e) => StopNarrowsGate(s, e, c, id);
    case Rotate(r) =>
    case Serve(v) => Mirror.ServerLeavesManager(s, v);
    case Open(o) => OpenNarrowsGate(s, o, c, id);
    case Visit(v) => ClientNarrowsGate(s, v, c, id);
    case View(v) =>
  }

  /** Steps without the manager lock leave the manager as it is. */
  lemma UnlockedLeavesManager(s: Mirror.Sys, a: Mirror.Action, t: Mirror.Sys)
    requires Mirror.Step(s, a) == Some(t) && !TakesLock(a)
    ensures t.m == s.m && t.cut == s.cut
  {
    if a.Serve? {
      Mirror.ServerLeavesManager(s, a.server);
    }
  }

  lemma ClosedQueuesGrow(s: Mirror.Sys, a: Mirror.Action, t: Mirror.Sys)
    requires Mirror.Step(s, a) == Some(t)
    ensures s.net.closedQueues <= t.net.closedQueues && s.net.registered.Keys <= t.net.registered.Keys
  {
    match a
    case Start(b) => Mirror.StartGrows(s, b);
    case Stop(e) => Mirror.StopGrows(s, e);
    case Open(o) => Mirror.OpenLeavesServers(s, o);
    case Visit(v) => Mirror.ClientLeavesServers(s, v);
    case _ =>
  }

  // ----- every joint step is a step of each machine -----

  /** The pipe's part in a step; None when it has none. */
  function PipeAction(l: Link, j: Joint, a: Action): Option<Channel.Action> {
    match a
    case Manage(b) =>
      var s := Mirror.Step(j.s, b);
      if s.Some? && l.client in s.value.net.closedQueues then Some(Channel.Drain(Channel.Close(Other(0)))) else None
    case Announce(id, payload, offered) =>
      var ok := offered && Accepts(l, j.p, payload);
      var verdict := Reserve(j.s.m, l.client, id, ok && Mirror.Reachable(j.s, l.client)).1;
      if verdict == Reserved || (verdict == QueueRefused && offered && !ok)
      then Some(Channel.Send(Channel.PushReady(payload))) else None
    case Emits(n, data) =>
      if 0 < n <= |j.openings| && OutputAllowed(j.s.m, l.client, j.openings[n - 1])
      then Some(Channel.Send(Channel.Emit(data))) else Some(Channel.Send(Channel.EmitDropped(n, data)))
    case Chunk => Some(Channel.Send(Channel.PushChunk))
    case Control(tag, payload, result) => Some(Channel.Send(Channel.PushControl(tag, payload, result)))
    case Writes(w) => Some(Channel.Drain(w))
    case OnWire(w) => Some(Channel.OnWire(w))
  }

  /** An open gate belongs to the newest viewer. */
  lemma OnlyNewestAllowed(l: Link, j: Joint, n: nat)
    requires LinkInv(l, j) && 0 < n <= |j.openings| && OutputAllowed(j.s.m, l.client, j.openings[n - 1])
    ensures n == |j.openings|
  {
    assert j.openings[n - 1] == j.openings[|j.openings| - 1];
  }

  lemma EmitsIsPipeStep(l: Link, j: Joint, n: nat, data: seq<byte>, t: Joint)
    requires LinkInv(l, j) && StepEmits(l, j, n, data) == Some(t)
    ensures Channel.Step(j.p, l.key, l.maxBytes, PipeAction(l, j, Emits(n, data)).value) == Some(t.p)
  {
    if OutputAllowed(j.s.m, l.client, j.openings[n - 1]) {
      OnlyNewestAllowed(l, j, n);
    }
  }

  /**
   The joint machine refines the pipe: what the pipe takes for granted of its viewers (only the newest
   emits, and none after it stopped) is what the manager's gate enforces.
   */
  lemma RefinesPipe(l: Link, j: Joint, a: Action, t: Joint)
    requires LinkInv(l, j) && Step(l, j, a) == Some(t)
    ensures if PipeAction(l, j, a).None? then t.p == j.p
            else Channel.Step(j.p, l.key, l.maxBytes, PipeAction(l, j, a).value) == Some(t.p)
  {
    match a
    case Emits(n, data) => EmitsIsPipeStep(l, j, n, data, t);
    case _ =>
  }

  lemma ReportIsMirrorStep(l: Link, j: Joint, p: Channel.Pipe)
    requires l.client in j.s.net.registered
    ensures var t := Reported(l, j, p).s; t == j.s || Mirror.Step(j.s, Mirror.Serve(Mirror.QueueCloses(l.client))) == Some(t)
  {
  }

  /** It refines the mirror too, by at most two steps: the manager's, and the closing of the client's queue. */
  lemma RefinesMirror(l: Link, j: Joint, a: Action, t: Joint) returns (mid: Mirror.Sys)
    requires Step(l, j, a) == Some(t)
    ensures mid == j.s || exists b :: Mirror.Step(j.s, b) == Some(mid)
    ensures t.s == mid || Mirror.Step(mid, Mirror.Serve(Mirror.QueueCloses(l.client))) == Some(t.s)
  {
    mid := j.s;
    match a
    case Manage(b) =>
      mid := t.s;
      assert Mirror.Step(j.s, b) == Some(mid);
    case Announce(id, payload, offered) =>
      var b := Mirror.Open(Mirror.ReserveOpen(id, offered && Accepts(l, j.p, payload)));
      mid := Mirror.Step(j.s, b).value;
      ReserveLeavesServers(j.s, b, mid);
      var p := Channel.Step(j.p, l.key, l.maxBytes, Channel.Send(Channel.PushReady(payload))).value;
      ReportIsMirrorStep(l, j.(s := mid), p);
    case Emits(n, data) =>
    case _ =>
      ReportIsMirrorStep(l, j, t.p);
  }

  lemma ReserveLeavesServers(s: Mirror.Sys, a: Mirror.Action, t: Mirror.Sys)
    requires a.Open? && Mirror.Step(s, a) == Some(t)
    ensures t.net == s.net
  {
    Mirror.OpenLeavesServers(s, a.open);
  }

  // ----- the link holds in every run -----

  lemma OpeningsStay(s: Mirror.Sys, t: Mirror.Sys, openings: seq<OpenId>)
    requires OpeningsInv(s.calls, openings) && forall id :: Mirror.Unreserved(t.calls, id) ==> Mirror.Unreserved(s.calls, id)
    ensures OpeningsInv(t.calls, openings)
  {
  }

  lemma MirrorNarrows(s: Mirror.Sys, a: Mirror.Action, t: Mirror.Sys, c: ClientId)
    requires Mirror.Step(s, a) == Some(t) && !Reserves(s, c, a)
    ensures forall id :: OutputAllowed(t.m, c, id) ==> OutputAllowed(s.m, c, id)
    ensures forall id :: Mirror.Unreserved(t.calls, id) ==> Mirror.Unreserved(s.calls, id)
  {
    forall id
      ensures OutputAllowed(t.m, c, id) ==> OutputAllowed(s.m, c, id)
      ensures Mirror.Unreserved(t.calls, id) ==> Mirror.Unreserved(s.calls, id)
    {
      GateNarrows(s, a, t, c, id);
    }
  }

  lemma ManageKeepsLink(l: Link, j: Joint, b: Mirror.Action, t: Joint)
    requires LinkInv(l, j) && Step(l, j, Manage(b)) == Some(t)
    ensures LinkInv(l, t)
  {
    MirrorNarrows(j.s, b, t.s, l.client);
    OpeningsStay(j.s, t.s, j.openings);
    ClosedQueuesGrow(j.s, b, t.s);
    if j.p.todo != [] {
      UnlockedLeavesManager(j.s, b, t.s);
    }
  }

  lemma EmitsKeepsLink(l: Link, j: Joint, n: nat, data: seq<byte>, t: Joint)
    requires LinkInv(l, j) && StepEmits(l, j, n, data) == Some(t)
    ensures LinkInv(l, t)
  {
    if OutputAllowed(j.s.m, l.client, j.openings[n - 1]) {
      OnlyNewestAllowed(l, j, n);
    }
  }

  /** What the pipe's own steps leave as it was. */
  lemma PipeKeeps(p: Channel.Pipe, k: Key, maxBytes: int, a: Channel.Action, t: Channel.Pipe)
    requires Channel.Step(p, k, maxBytes, a) == Some(t) && (a.Send? ==> a.sender.PushChunk? || a.sender.PushControl?)
    ensures t.emitted == p.emitted && (t.todo != [] ==> p.todo != []) && (p.q.closed ==> t.q.closed)
    ensures t.stopped ==> p.stopped || (a.Send? && a.sender.PushChunk? && p.todo != [])
  {
  }

  lemma ThroughKeepsLink(l: Link, j: Joint, a: Channel.Action, t: Joint)
    requires LinkInv(l, j) && Through(l, j, a) == Some(t) && (a.Send? ==> a.sender.PushControl?)
    ensures LinkInv(l, t)
  {
    PipeKeeps(j.p, l.key, l.maxBytes, a, t.p);
  }

  lemma ChunkKeepsLink(l: Link, j: Joint, t: Joint)
    requires LinkInv(l, j) && Step(l, j, Chunk) == Some(t)
    ensures LinkInv(l, t)
  {
    PipeKeeps(j.p, l.key, l.maxBytes, Channel.Send(Channel.PushChunk), t.p);
  }

  /** A reservation hands the gate to its opening, and every opening before has been reserved. */
  lemma ReserveNarrows(s: Mirror.Sys, t: Mirror.Sys, c: ClientId, id: OpenId, ok: bool)
    requires Mirror.Step(s, Mirror.Open(Mirror.ReserveOpen(id, ok))) == Some(t) && Preparing(s, c, id)
    requires Mirror.OpensInv(s.m, s.calls)
    ensures forall x :: Mirror.Unreserved(t.calls, x) ==> Mirror.Unreserved(s.calls, x)
    ensures Reserve(s.m, c, id, ok && Mirror.Reachable(s, c)).1 == Reserved ==>
              !Mirror.Unreserved(t.calls, id) && forall x :: OutputAllowed(t.m, c, x) ==> x == id
    ensures Reserve(s.m, c, id, ok && Mirror.Reachable(s, c)).1 != Reserved ==> t.m == s.m
  {
  }

  lemma AnnounceKeepsLink(l: Link, j: Joint, id: OpenId, payload: seq<byte>, offered: bool, t: Joint)
    requires LinkInv(l, j) && Mirror.OpensInv(j.s.m, j.s.calls) && StepAnnounce(l, j, id, payload, offered) == Some(t)
    ensures LinkInv(l, t)
  {
    var ok := offered && Accepts(l, j.p, payload);
    var s := Mirror.Step(j.s, Mirror.Open(Mirror.ReserveOpen(id, ok))).value;
    ReserveNarrows(j.s, s, l.client, id, ok);
    ReserveLeavesServers(j.s, Mirror.Open(Mirror.ReserveOpen(id, ok)), s);
    OpeningsStay(j.s, s, j.openings);
  }

  lemma StepKeepsLink(l: Link, j: Joint, a: Action, t: Joint)
    requires LinkInv(l, j) && Mirror.Inv(j.s) && Step(l, j, a) == Some(t)
    ensures LinkInv(l, t)
  {
    match a
    case Manage(b) => ManageKeepsLink(l, j, b, t);
    case Announce(id, payload, offered) => AnnounceKeepsLink(l, j, id, payload, offered, t);
    case Emits(n, data) => EmitsKeepsLink(l, j, n, data, t);
    case Chunk => ChunkKeepsLink(l, j, t);
    case Control(tag, payload, result) => ThroughKeepsLink(l, j, Channel.Send(Channel.PushControl(tag, payload, result)), t);
    case Writes(w) => ThroughKeepsLink(l, j, Channel.Drain(w), t);
    case OnWire(w) => ThroughKeepsLink(l, j, Channel.OnWire(w), t);
  }

  lemma StepKeepsMirror(l: Link, j: Joint, a: Action, t: Joint)
    requires Mirror.Inv(j.s) && Step(l, j, a) == Some(t)
    ensures Mirror.Inv(t.s)
  {
    var mid := RefinesMirror(l, j, a, t);
    if b :| Mirror.Step(j.s, b) == Some(mid) {
      Mirror.StepKeepsInv(j.s, b);
    }
    if Mirror.Step(mid, Mirror.Serve(Mirror.QueueCloses(l.client))) == Some(t.s) {
      Mirror.StepKeepsInv(mid, Mirror.Serve(Mirror.QueueCloses(l.client)));
    }
  }

  lemma StepKeepsPipe(l: Link, j: Joint, a: Action, t: Joint)
    requires LinkInv(l, j) && Channel.Inv(j.p, l.key, l.maxBytes) && Step(l, j, a) == Some(t)
    ensures Channel.Inv(t.p, l.key, l.maxBytes)
  {
    RefinesPipe(l, j, a, t);
    if PipeAction(l, j, a).Some? {
      Channel.StepKeepsInv(j.p, l.key, l.maxBytes, PipeAction(l, j, a).value, t.p);
    }
  }

  lemma StepKeepsShown(l: Link, j: Joint, a: Action, t: Joint)
    requires LinkInv(l, j) && j.p.shown == Channel.Screens(j.p.pushed) && Step(l, j, a) == Some(t)
    ensures t.p.shown == Channel.Screens(t.p.pushed)
  {
    RefinesPipe(l, j, a, t);
    if PipeAction(l, j, a).Some? {
      Channel.StepShows(j.p, l.key, l.maxBytes, PipeAction(l, j, a).value);
    }
  }

  ghost predicate IsRun(js: seq<Joint>, acts: seq<Action>, keys: set<Key>, l: Link) {
    && |js| == |acts| + 1 && l.key in keys && js[0] == Start(keys)
    && forall i {:trigger acts[i]} :: 0 <= i < |acts| ==> Step(l, js[i], acts[i]) == Some(js[i + 1])
  }

  lemma RunStep(js: seq<Joint>, acts: seq<Action>, keys: set<Key>, l: Link, i: nat)
    requires IsRun(js, acts, keys, l) && i < |acts|
    ensures Step(l, js[i], acts[i]) == Some(js[i + 1])
  {
  }

  lemma StartIsMirror(l: Link, keys: set<Key>)
    ensures Mirror.Inv(Mirror.Init) && LinkInv(l, Start(keys))
  {
    Mirror.RunKeepsInv([Mirror.Init], [], 0);
  }

  lemma {:induction false} RunKeepsLink(js: seq<Joint>, acts: seq<Action>, keys: set<Key>, l: Link, i: nat)
    requires IsRun(js, acts, keys, l) && i < |js|
    ensures Mirror.Inv(js[i].s) && LinkInv(l, js[i])
  {
    if i == 0 {
      StartIsMirror(l, keys);
    } else {
      RunKeepsLink(js, acts, keys, l, i - 1);
      RunStep(js, acts, keys, l, i - 1);
      StepKeepsMirror(l, js[i - 1], acts[i - 1], js[i]);
      StepKeepsLink(l, js[i - 1], acts[i - 1], js[i]);
    }
  }

  lemma NextKeepsPipe(js: seq<Joint>, acts: seq<Action>, keys: set<Key>, l: Link, i: nat, t: Joint)
    requires IsRun(js, acts, keys, l) && i < |acts| && Channel.Inv(js[i].p, l.key, l.maxBytes) && t == js[i + 1]
    ensures Channel.Inv(t.p, l.key, l.maxBytes)
  {
    RunKeepsLink(js, acts, keys, l, i);
    RunStep(js, acts, keys, l, i);
    StepKeepsPipe(l, js[i], acts[i], t);
  }

  lemma {:induction false} RunKeepsPipe(js: seq<Joint>, acts: seq<Action>, keys: set<Key>, l: Link, i: nat)
    requires IsRun(js, acts, keys, l) && i < |js|
    ensures Channel.Inv(js[i].p, l.key, l.maxBytes)
  {
    if i == 0 {
      Channel.StartInv(keys, l.key, l.maxBytes);
    } else {
      RunKeepsPipe(js, acts, keys, l, i - 1);
      NextKeepsPipe(js, acts, keys, l, i - 1, js[i]);
    }
  }

  lemma NextKeepsShown(js: seq<Joint>, acts: seq<Action>, keys: set<Key>, l: Link, i: nat, t: Joint)
    requires IsRun(js, acts, keys, l) && i < |acts| && t == js[i + 1]
    requires js[i].p.shown == Channel.Screens(js[i].p.pushed)
    ensures t.p.shown == Channel.Screens(t.p.pushed)
  {
    RunKeepsLink(js, acts, keys, l, i);
    RunStep(js, acts, keys, l, i);
    StepKeepsShown(l, js[i], acts[i], t);
  }

  lemma {:induction false} RunKeepsShown(js: seq<Joint>, acts: seq<Action>, keys: set<Key>, l: Link, i: nat)
    requires IsRun(js, acts, keys, l) && i < |js|
    ensures js[i].p.shown == Channel.Screens(js[i].p.pushed)
  {
    if i > 0 {
      RunKeepsShown(js, acts, keys, l, i - 1);
      NextKeepsShown(js, acts, keys, l, i - 1, js[i]);
    }
  }

  // ----- what the peer sees -----

  /**
   In every run of the manager, with viewers opening, closing and reopening, rotations, shutdowns, tunnel
   and viewer exits, overflow, writer failures and an adversary on the wire: what the peer accepts after
   the n-th Ready and before the next is a prefix of what the viewer of the n-th opening emitted, no
   opening is announced twice, and nothing is shown before the first.
   */
  lemma ScreensFollowOpenings(js: seq<Joint>, acts: seq<Action>, keys: set<Key>, l: Link, i: nat)
    requires IsRun(js, acts, keys, l) && i < |js|
    ensures var j := js[i];
            && l.key in j.p.wire.got && Channel.Behind(Channel.Screens(j.p.wire.got[l.key]), j.p.emitted)
            && Channel.Screens(j.p.wire.got[l.key])[0] == []
            && |j.p.emitted| == |j.openings| + 1
            && forall x, y :: 0 <= x < y < |j.openings| ==> j.openings[x] != j.openings[y]
  {
    RunKeepsLink(js, acts, keys, l, i);
    RunKeepsPipe(js, acts, keys, l, i);
    RunKeepsShown(js, acts, keys, l, i);
    Channel.PeerIsBehind(js[i].p, l.key, l.maxBytes);
  }

  /** Every chunk the queue accepts is one that MirrorSystem's OutputPushed stands for, from the newest opening. */
  lemma ChunksPassTheGate(js: seq<Joint>, acts: seq<Action>, keys: set<Key>, l: Link, i: nat)
    requires IsRun(js, acts, keys, l) && i < |acts| && acts[i] == Chunk && js[i + 1].p.pushed != js[i].p.pushed
    ensures var j := js[i];
            && j.openings != []
            && Mirror.Step(j.s, Mirror.Visit(Mirror.OutputPushed(l.client, j.openings[|j.openings| - 1]))) == Some(j.s)
  {
    RunKeepsLink(js, acts, keys, l, i);
    RunStep(js, acts, keys, l, i);
  }

  lemma SilentStep(l: Link, j: Joint, a: Action, t: Joint)
    requires LinkInv(l, j) && Channel.Inv(j.p, l.key, l.maxBytes) && j.p.q.closed && Step(l, j, a) == Some(t)
    ensures t.p.q.closed && t.p.pushed == j.p.pushed && t.p.shown == j.p.shown
  {
    RefinesPipe(l, j, a, t);
    if PipeAction(l, j, a).Some? {
      Channel.ClosedStays(j.p, l.key, l.maxBytes, PipeAction(l, j, a).value);
    }
  }

  lemma SilentNext(js: seq<Joint>, acts: seq<Action>, keys: set<Key>, l: Link, i: nat)
    requires IsRun(js, acts, keys, l) && i < |acts| && js[i].p.q.closed
    ensures js[i + 1].p.q.closed && js[i + 1].p.pushed == js[i].p.pushed && js[i + 1].p.shown == js[i].p.shown
  {
    RunKeepsLink(js, acts, keys, l, i);
    RunKeepsPipe(js, acts, keys, l, i);
    RunStep(js, acts, keys, l, i);
    SilentStep(l, js[i], acts[i], js[i + 1]);
  }

  lemma {:induction false} ClosedSilences(js: seq<Joint>, acts: seq<Action>, keys: set<Key>, l: Link, i: nat, k: nat)
    requires IsRun(js, acts, keys, l) && i <= k < |js| && js[i].p.q.closed
    ensures js[k].p.q.closed && js[k].p.pushed == js[i].p.pushed && js[k].p.shown == js[i].p.shown
  {
    if i < k {
      ClosedSilences(js, acts, keys, l, i, k - 1);
      SilentNext(js, acts, keys, l, k - 1);
    }
  }

  lemma MirrorGrows(l: Link, j: Joint, a: Action, t: Joint)
    requires Step(l, j, a) == Some(t)
    ensures Mirror.Grows(j.s, t.s)
  {
    var mid := RefinesMirror(l, j, a, t);
    if b :| Mirror.Step(j.s, b) == Some(mid) {
      Mirror.StepGrows(j.s, b);
    }
    if Mirror.Step(mid, Mirror.Serve(Mirror.QueueCloses(l.client))) == Some(t.s) {
      Mirror.StepGrows(mid, Mirror.Serve(Mirror.QueueCloses(l.client)));
    }
  }

  lemma NextGrows(js: seq<Joint>, acts: seq<Action>, keys: set<Key>, l: Link, i: nat)
    requires IsRun(js, acts, keys, l) && i < |acts|
    ensures Mirror.Grows(js[i].s, js[i + 1].s)
  {
    RunStep(js, acts, keys, l, i);
    MirrorGrows(l, js[i], acts[i], js[i + 1]);
  }

  lemma {:induction false} RunGrows(js: seq<Joint>, acts: seq<Action>, keys: set<Key>, l: Link, i: nat, k: nat)
    requires IsRun(js, acts, keys, l) && i <= k < |js|
    ensures Mirror.Grows(js[i].s, js[k].s)
  {
    if i < k {
      RunGrows(js, acts, keys, l, i, k - 1);
      NextGrows(js, acts, keys, l, k - 1);
      Mirror.GrowsOn(js[i].s, js[k - 1].s, js[k].s);
    }
  }

  /** A client of an older version is closed as soon as no rotation is under way. */
  lemma StaleIsClosed(l: Link, j: Joint)
    requires Mirror.Inv(j.s) && LinkInv(l, j) && Mirror.Stale(j.s, l.client) && j.s.cut.None?
    ensures j.p.q.closed
  {
  }

  lemma CutIsStale(l: Link, j: Joint, t: Joint, u: Joint)
    requires Mirror.Inv(j.s) && Step(l, j, Manage(Mirror.Rotate(Mirror.RotateCut))) == Some(t)
    requires Mirror.Grows(t.s, u.s) && u.s.cut.None?
    requires l.client in j.s.net.registered && j.s.m.server == Some(j.s.net.registered[l.client].server)
    ensures Mirror.Stale(u.s, l.client)
  {
  }

  /**
   Once a rotation has given up the manager lock, not one more frame enters the queue of a client registered
   before it: nothing its viewers emit, and no control frame either.
   */
  lemma RotationSilences(js: seq<Joint>, acts: seq<Action>, keys: set<Key>, l: Link, cutAt: nat, left: nat, k: nat)
    requires IsRun(js, acts, keys, l) && cutAt < left <= k < |js|
    requires acts[cutAt] == Manage(Mirror.Rotate(Mirror.RotateCut)) && js[left].s.cut.None?
    requires l.client in js[cutAt].s.net.registered
    requires js[cutAt].s.m.server == Some(js[cutAt].s.net.registered[l.client].server)
    ensures js[k].p.q.closed && js[k].p.pushed == js[left].p.pushed && js[k].p.shown == js[left].p.shown
  {
    RunKeepsLink(js, acts, keys, l, cutAt);
    RunStep(js, acts, keys, l, cutAt);
    RunGrows(js, acts, keys, l, cutAt + 1, left);
    CutIsStale(l, js[cutAt], js[cutAt + 1], js[left]);
    RunKeepsLink(js, acts, keys, l, left);
    StaleIsClosed(l, js[left]);
    ClosedSilences(js, acts, keys, l, left, k);
  }
}
