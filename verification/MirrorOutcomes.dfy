/**
 What the mirror's sections achieve, beside what they keep safe: the pairing the host shows is the one its
 own server admits, a client's input reaches the viewer started for it, and starting, opening, rotating,
 closing and shutting down get where they are meant to.
 */
module MirrorOutcomes {
  import opened Options
  import opened MirrorManager
  import opened MirrorSystem

  // ----- the pairing shown -----

  /** How a pairing is printed: the URL for a public address and a secret, and the QR code for a URL. */
  datatype Printer = Printer(url: (string, Secret) -> string, qr: string -> string)

  /** The manager's secret is its server's and its address its tunnel's, except inside the section of a rotation. */
  ghost predicate PairingInv(m: Mgr, op: Operation, cut: Option<set<ClientId>>, res: Resources) {
    && (op.Launch? && op.server.Some? ==> op.server.value in res.servers && res.servers[op.server.value].secret == op.secret)
    && (m.phase == Ready ==>
          && m.server.Some? && m.server.value in res.servers && m.tunnel.Some? && m.tunnel.value in res.tunnels
          && m.publicURL == res.tunnels[m.tunnel.value].url
          && (cut.None? ==> m.secret == Some(res.servers[m.server.value].secret)))
    && (cut.Some? ==> op.Rotation? && m.phase == Ready && res.servers[m.server.value].secret == op.secret)
  }

  /** What the strings of a commit or a rotation are made of. */
  predicate Prints(f: Printer, s: Sys, a: Action) {
    match a
    case Start(StartCommit(url, qr, _)) =>
      s.op.Launch? && s.op.tunnel.Some? && s.op.tunnel.value in s.res.tunnels ==>
        url == f.url(s.res.tunnels[s.op.tunnel.value].url, s.op.secret) && qr == f.qr(url)
    case Rotate(RotateCommitted(url, qr)) =>
      s.op.Rotation? ==> url == f.url(s.m.publicURL, s.op.secret) && qr == f.qr(url)
    case _ => true
  }

  predicate Shows(f: Printer, m: Mgr) {
    m.phase == Ready && m.secret.Some? ==> m.pairingURL == f.url(m.publicURL, m.secret.value) && m.qr == f.qr(m.pairingURL)
  }

  lemma StartKeepsPairing(f: Printer, s: Sys, a: StartStep, t: Sys)
    requires Inv(s) && PairingInv(s.m, s.op, s.cut, s.res) && Shows(f, s.m)
    requires StepStart(s, a) == Some(t) && Prints(f, s, Start(a))
    ensures PairingInv(t.m, t.op, t.cut, t.res) && Shows(f, t.m)
  {
  }

  lemma StopKeepsPairing(f: Printer, s: Sys, a: StopStep, t: Sys)
    requires Inv(s) && PairingInv(s.m, s.op, s.cut, s.res) && Shows(f, s.m) && StepStop(s, a) == Some(t)
    ensures PairingInv(t.m, t.op, t.cut, t.res) && Shows(f, t.m)
  {
  }

  lemma RotateKeepsPairing(f: Printer, s: Sys, a: RotateStep, t: Sys)
    requires Inv(s) && PairingInv(s.m, s.op, s.cut, s.res) && Shows(f, s.m)
    requires StepRotate(s, a) == Some(t) && Prints(f, s, Rotate(a))
    ensures PairingInv(t.m, t.op, t.cut, t.res) && Shows(f, t.m)
  {
  }

  lemma OpenLeavesPairing(s: Sys, a: OpenStep, t: Sys)
    requires StepOpen(s, a) == Some(t)
    ensures t.m.secret == s.m.secret && t.m.publicURL == s.m.publicURL && t.m.pairingURL == s.m.pairingURL && t.m.qr == s.m.qr
  {
  }

  lemma ClientLeavesPairing(s: Sys, a: ClientStep, t: Sys)
    requires StepClient(s, a) == Some(t)
    ensures t.m.secret == s.m.secret && t.m.publicURL == s.m.publicURL && t.m.pairingURL == s.m.pairingURL && t.m.qr == s.m.qr
  {
  }

  lemma ServerLeavesSecrets(s: Sys, a: ServerStep, t: Sys)
    requires StepServer(s, a) == Some(t)
    ensures t.res.tunnels == s.res.tunnels && t.res.servers.Keys == s.res.servers.Keys
    ensures forall id :: id in s.res.servers ==> t.res.servers[id].secret == s.res.servers[id].secret
  {
  }

  lemma StepKeepsPairing(f: Printer, s: Sys, a: Action, t: Sys)
    requires Inv(s) && PairingInv(s.m, s.op, s.cut, s.res) && Shows(f, s.m) && Step(s, a) == Some(t) && Prints(f, s, a)
    ensures PairingInv(t.m, t.op, t.cut, t.res) && Shows(f, t.m)
  {
    match a
    case Start(b) => StartKeepsPairing(f, s, b, t);
    case Stop(e) => StopKeepsPairing(f, s, e, t);
    case Rotate(r) => RotateKeepsPairing(f, s, r, t);
    case Serve(v) =>
      ServerLeavesManager(s, v);
      ServerLeavesSecrets(s, v, t);
    case Open(o) =>
      OpenLeavesServers(s, o);
      OpenLeavesPairing(s, o, t);
    case Visit(c) =>
      ClientLeavesServers(s, c);
      ClientLeavesPairing(s, c, t);
    case View(v) =>
  }

  ghost predicate Printed(f: Printer, states: seq<Sys>, acts: seq<Action>) {
    |states| == |acts| + 1 && forall i {:trigger acts[i]} :: 0 <= i < |acts| ==> Prints(f, states[i], acts[i])
  }

  lemma {:induction false} RunKeepsPairing(f: Printer, states: seq<Sys>, acts: seq<Action>, i: nat)
    requires IsRun(states, acts) && Printed(f, states, acts) && i < |states|
    ensures PairingInv(states[i].m, states[i].op, states[i].cut, states[i].res) && Shows(f, states[i].m)
  {
    if i > 0 {
      RunKeepsPairing(f, states, acts, i - 1);
      RunKeepsInv(states, acts, i - 1);
      RunStep(states, acts, i - 1);
      StepKeepsPairing(f, states[i - 1], acts[i - 1], states[i]);
    }
  }

  /**
   Whenever the manager is Ready and no rotation is inside its section, the host shows exactly the credential
   its own server admits, at its own tunnel's address: secret, URL and QR code agree, through every rotation.
   */
  lemma PairingIsCurrent(f: Printer, states: seq<Sys>, acts: seq<Action>, i: nat)
    requires IsRun(states, acts) && Printed(f, states, acts) && i < |states|
    requires states[i].m.phase == Ready && states[i].cut.None?
    ensures var (m, res) := (states[i].m, states[i].res);
            && m.server.Some? && m.server.value in res.servers && m.tunnel.Some? && m.tunnel.value in res.tunnels
            && m.secret == Some(res.servers[m.server.value].secret) && m.publicURL == res.tunnels[m.tunnel.value].url
            && m.pairingURL == f.url(m.publicURL, res.servers[m.server.value].secret) && m.qr == f.qr(m.pairingURL)
  {
    RunKeepsPairing(f, states, acts, i);
  }

  predicate SameShown(s: Mgr, t: Mgr) {
    && t.server == s.server && t.tunnel == s.tunnel && t.secret == s.secret
    && t.publicURL == s.publicURL && t.pairingURL == s.pairingURL && t.qr == s.qr
  }

  lemma StartShows(s: Sys, a: StartStep, t: Sys)
    requires Inv(s) && StepStart(s, a) == Some(t) && t.m.phase == Ready
    ensures if s.m.phase == Ready then SameShown(s.m, t.m)
            else a.StartCommit? && !a.cancelled && s.op.Launch? && t.m.server == s.op.server && t.m.tunnel == s.op.tunnel
                 && t.m.secret == Some(s.op.secret) && t.m.pairingURL == a.pairingURL && t.m.qr == a.qr
  {
  }

  lemma RotateShows(s: Sys, a: RotateStep, t: Sys)
    requires Inv(s) && StepRotate(s, a) == Some(t)
    ensures t.m.phase == s.m.phase
    ensures if a.RotateCommitted?
            then s.op.Rotation?
                 && SameShown(s.m.(secret := Some(s.op.secret), pairingURL := a.pairingURL, qr := a.qr), t.m)
            else SameShown(s.m, t.m)
  {
  }

  lemma StopShows(s: Sys, a: StopStep, t: Sys)
    requires Inv(s) && StepStop(s, a) == Some(t) && t.m.phase == Ready
    ensures s.m.phase == Ready && SameShown(s.m, t.m)
  {
  }

  /** What is shown changes only by a commit or a rotation, to what that one made. */
  lemma OnlyCommitsShow(s: Sys, a: Action, t: Sys)
    requires Inv(s) && Step(s, a) == Some(t) && t.m.phase == Ready && !SameShown(s.m, t.m)
    ensures if s.m.phase == Ready
            then a.Rotate? && a.rotate.RotateCommitted? && s.op.Rotation? && t.m.secret == Some(s.op.secret)
                 && t.m.pairingURL == a.rotate.pairingURL && t.m.qr == a.rotate.qr
            else a.Start? && a.start.StartCommit? && s.op.Launch? && t.m.server == s.op.server && t.m.tunnel == s.op.tunnel
                 && t.m.secret == Some(s.op.secret) && t.m.pairingURL == a.start.pairingURL && t.m.qr == a.start.qr
  {
    match a
    case Start(b) => StartShows(s, b, t);
    case Stop(e) => StopShows(s, e, t);
    case Rotate(r) => RotateShows(s, r, t);
    case Serve(v) => ServerLeavesManager(s, v);
    case Open(o) =>
      OpenLeavesServers(s, o);
      OpenLeavesPairing(s, o, t);
    case Visit(c) =>
      ClientLeavesServers(s, c);
      ClientLeavesPairing(s, c, t);
    case View(_) =>
  }

  // ----- whose viewer gets the input -----

  ghost predicate OwnersInv(m: Mgr, calls: Calls) {
    && (forall id :: id in calls.opens && (calls.opens[id].Started? || calls.opens[id].Attached?) ==>
          calls.opens[id].viewer in calls.startedFor && calls.startedFor[calls.opens[id].viewer] == calls.opens[id].client)
    && (forall c :: c in m.active ==> m.active[c].viewer in calls.startedFor && calls.startedFor[m.active[c].viewer] == c)
    && calls.startedFor.Keys <= calls.viewers.Keys
  }

  lemma OpenKeepsOwners(s: Sys, a: OpenStep, t: Sys)
    requires OwnersInv(s.m, s.calls) && StepOpen(s, a) == Some(t)
    ensures OwnersInv(t.m, t.calls)
  {
  }

  lemma ClientKeepsOwners(s: Sys, a: ClientStep, t: Sys)
    requires OwnersInv(s.m, s.calls) && StepClient(s, a) == Some(t)
    ensures OwnersInv(t.m, t.calls)
  {
  }

  lemma ViewerKeepsOwners(m: Mgr, calls: Calls, a: ViewerStep, t: Calls)
    requires OwnersInv(m, calls) && StepViewer(calls, a) == Some(t)
    ensures OwnersInv(m, t)
  {
  }

  lemma StepKeepsOwners(s: Sys, a: Action, t: Sys)
    requires OwnersInv(s.m, s.calls) && Step(s, a) == Some(t)
    ensures OwnersInv(t.m, t.calls)
  {
    match a
    case Start(b) => StartLeavesClients(s, b);
    case Stop(e) =>
    case Rotate(r) =>
    case Serve(v) => ServerLeavesManager(s, v);
    case Open(o) => OpenKeepsOwners(s, o, t);
    case Visit(c) => ClientKeepsOwners(s, c, t);
    case View(v) => ViewerKeepsOwners(s.m, s.calls, v, t.calls);
  }

  lemma {:induction false} RunKeepsOwners(states: seq<Sys>, acts: seq<Action>, i: nat)
    requires IsRun(states, acts) && i < |states|
    ensures OwnersInv(states[i].m, states[i].calls)
  {
    if i > 0 {
      RunKeepsOwners(states, acts, i - 1);
      RunStep(states, acts, i - 1);
      StepKeepsOwners(states[i - 1], acts[i - 1], states[i]);
    }
  }

  /** A client's input goes to its active viewer, which is one that its own `open` call started. */
  lemma InputReachesOwnViewer(states: seq<Sys>, acts: seq<Action>, i: nat, c: ClientId, v: ViewerId)
    requires IsRun(states, acts) && i < |acts| && acts[i] == Visit(InputLookup(c, v))
    ensures c in states[i].m.active && states[i].m.active[c].viewer == v
    ensures v in states[i].calls.startedFor && states[i].calls.startedFor[v] == c
    ensures forall d :: d in states[i].m.active && states[i].m.active[d].viewer == v ==> d == c
  {
    RunKeepsOwners(states, acts, i);
    RunStep(states, acts, i);
  }

  // ----- getting there -----

  function Steps(s: Sys, acts: seq<Action>): Option<Sys>
    decreases |acts|
  {
    if acts == [] then Some(s)
    else var t := Step(s, acts[0]); if t.None? then None else Steps(t.value, acts[1..])
  }

  lemma OneStep(s: Sys, a: Action, t: Sys, acts: seq<Action>, u: Sys)
    requires Step(s, a) == Some(t) && Steps(t, acts) == Some(u)
    ensures Steps(s, [a] + acts) == Some(u)
  {
    assert ([a] + acts)[1..] == acts;
  }

  lemma TwoSteps(s: Sys, a: Action, t: Sys, b: Action, u: Sys)
    requires Step(s, a) == Some(t) && Step(t, b) == Some(u)
    ensures Steps(s, [a, b]) == Some(u)
  {
    assert Steps(u, []) == Some(u);
    OneStep(t, b, u, [], u);
    assert [b] + [] == [b] && [a] + [b] == [a, b];
    OneStep(s, a, t, [b], u);
  }

  lemma {:induction false} StepsAppend(s: Sys, acts: seq<Action>, t: Sys, more: seq<Action>, u: Sys)
    requires Steps(s, acts) == Some(t) && Steps(t, more) == Some(u)
    ensures Steps(s, acts + more) == Some(u)
    decreases |acts|
  {
    if acts == [] {
      assert acts + more == more;
    } else {
      var r := Step(s, acts[0]).value;
      StepsAppend(r, acts[1..], t, more, u);
      OneStep(s, acts[0], r, acts[1..] + more, u);
      assert acts + more == [acts[0]] + (acts[1..] + more);
    }
  }

  /** A start whose server and tunnel came up, and which nothing cancels, leaves a Ready manager showing what it made. */
  lemma StartSucceeds(s: Sys, secret: Secret, server: ServerId, tunnel: TunnelId, at: string, url: string, qr: string) returns (t: Sys)
    requires Inv(s) && s.op == Idle && s.cut.None? && s.m.phase != Ready && !s.m.shutdownAsked && !s.m.shutdown
    requires server !in s.res.servers && tunnel !in s.res.tunnels
    ensures Steps(s, [Start(StartBegin(secret)), Start(ServerStarted(server))]
                     + [Start(TunnelStarted(tunnel, at)), Start(StartCommit(url, qr, false))]) == Some(t)
    ensures t.m.phase == Ready && t.m.server == Some(server) && t.m.tunnel == Some(tunnel) && t.m.secret == Some(secret)
    ensures t.m.publicURL == at && t.m.pairingURL == url && t.m.qr == qr && t.m.errText == "" && t.m.clients == {}
    ensures server in t.res.servers && t.res.servers[server] == Server(1, true, 0, secret)
    ensures tunnel in t.res.tunnels && t.res.tunnels[tunnel] == Tunnel(at, 0)
  {
    var s1 := Step(s, Start(StartBegin(secret))).value;
    var s2 := Step(s1, Start(ServerStarted(server))).value;
    TwoSteps(s, Start(StartBegin(secret)), s1, Start(ServerStarted(server)), s2);
    var s3 := Step(s2, Start(TunnelStarted(tunnel, at))).value;
    t := Step(s3, Start(StartCommit(url, qr, false))).value;
    TwoSteps(s2, Start(TunnelStarted(tunnel, at)), s3, Start(StartCommit(url, qr, false)), t);
    StepsAppend(s, [Start(StartBegin(secret)), Start(ServerStarted(server))], s2,
                [Start(TunnelStarted(tunnel, at)), Start(StartCommit(url, qr, false))], t);
  }

  /** A start found cancelled at its commit, or by a shutdown, closes what it obtained and ends as told. */
  lemma StartUnwinds(s: Sys, url: string, qr: string, cancelled: bool, stopped: bool, message: string) returns (t: Sys)
    requires Inv(s) && s.op.Launch? && s.op.server.Some? && s.op.tunnel.Some? && s.cut.None?
    requires cancelled || s.m.shutdownAsked
    ensures Steps(s, [Start(StartCommit(url, qr, cancelled)), Start(StartFail(stopped, message))]) == Some(t)
    ensures if stopped then t.m.phase == Stopped && t.m.errText == "" else t.m.phase == Failed && t.m.errText == message
    ensures t.m.server.None? && t.m.tunnel.None? && t.m.secret.None? && t.m.pairingURL == ""
    ensures s.op.server.value in t.res.servers && t.res.servers[s.op.server.value].closes == 1
    ensures s.op.tunnel.value in t.res.tunnels && t.res.tunnels[s.op.tunnel.value].closes == 1
  {
    var u := Step(s, Start(StartCommit(url, qr, cancelled))).value;
    t := Step(u, Start(StartFail(stopped, message))).value;
    TwoSteps(s, Start(StartCommit(url, qr, cancelled)), u, Start(StartFail(stopped, message)), t);
  }

  /** So does one whose server or tunnel failed. */
  lemma StartFails(s: Sys, message: string) returns (t: Sys)
    requires Inv(s) && s.op.Launch? && s.cut.None?
    ensures Steps(s, [Start(StartAbort), Start(StartFail(false, message))]) == Some(t)
    ensures t.m.phase == Failed && t.m.errText == message && t.m.server.None? && t.m.tunnel.None?
    ensures s.op.server.Some? ==> s.op.server.value in t.res.servers && t.res.servers[s.op.server.value].closes == 1
    ensures s.op.tunnel.Some? ==> s.op.tunnel.value in t.res.tunnels && t.res.tunnels[s.op.tunnel.value].closes == 1
  {
    var u := Step(s, Start(StartAbort)).value;
    t := Step(u, Start(StartFail(false, message))).value;
    TwoSteps(s, Start(StartAbort), u, Start(StartFail(false, message)), t);
  }

  /** A reservation and a started viewer: for any client that is connected, reachable and without a viewer. */
  lemma ReservesAndStarts(s: Sys, c: ClientId, id: OpenId, v: ViewerId) returns (t: Sys)
    requires Inv(s) && s.cut.None? && s.m.phase == Ready && !s.m.shutdown && c in s.m.clients && Reachable(s, c)
    requires c !in s.m.opening && c !in s.m.active && v !in s.calls.viewers
    requires id in s.calls.opens && s.calls.opens[id] == Preparing(c)
    ensures Steps(s, [Open(ReserveOpen(id, true)), View(ViewerStarts(id, v))]) == Some(t)
    ensures t.m == s.m.(opening := s.m.opening[c := OpeningViewer(id, None)])
    ensures t.calls.opens == s.calls.opens[id := Started(c, v)] && t.calls.viewers == s.calls.viewers[v := Running]
    ensures t.cut == s.cut
  {
    var u := Step(s, Open(ReserveOpen(id, true))).value;
    t := Step(u, View(ViewerStarts(id, v))).value;
    TwoSteps(s, Open(ReserveOpen(id, true)), u, View(ViewerStarts(id, v)), t);
  }

  /** A started viewer whose opening still stands is attached and becomes the client's active viewer. */
  lemma AttachesAndActivates(s: Sys, c: ClientId, id: OpenId, v: ViewerId) returns (t: Sys)
    requires s.cut.None? && s.m.phase == Ready && !s.m.shutdown && c in s.m.clients && c !in s.m.active
    requires Owns(s.m, c, id) && id in s.calls.opens && s.calls.opens[id] == Started(c, v)
    ensures Steps(s, [Open(AttachOpen(id)), Open(ActivateOpen(id))]) == Some(t)
    ensures t.m == s.m.(opening := s.m.opening - {c}, active := s.m.active[c := ActiveViewer(v, id)])
    ensures t.calls.closing == s.calls.closing && t.calls.viewers == s.calls.viewers && id !in t.calls.opens
    ensures t.cut == s.cut
  {
    var u := Step(s, Open(AttachOpen(id))).value;
    t := Step(u, Open(ActivateOpen(id))).value;
    assert s.m.opening[c := OpeningViewer(id, Some(v))] - {c} == s.m.opening - {c};
    assert t.calls.closing == s.calls.closing;
    TwoSteps(s, Open(AttachOpen(id)), u, Open(ActivateOpen(id)), t);
  }

  lemma PutAndTaken<K, V>(m: map<K, V>, k: K, v: V)
    requires k !in m
    ensures m[k := v] - {k} == m
  {
  }

  lemma ActiveServes(t: Sys, c: ClientId, id: OpenId, v: ViewerId)
    requires t.cut.None? && c in t.m.active && t.m.active[c] == ActiveViewer(v, id)
    ensures Step(t, Visit(InputLookup(c, v))) == Some(t) && OutputAllowed(t.m, c, id)
  {
  }

  /** An undisturbed `open` gives the client its viewer, which then gets its input and may send it output. */
  lemma OpenSucceeds(s: Sys, c: ClientId, id: OpenId, v: ViewerId) returns (t: Sys)
    requires Inv(s) && s.cut.None? && s.m.phase == Ready && !s.m.shutdown && c in s.m.clients && Reachable(s, c)
    requires c !in s.m.opening && c !in s.m.active && v !in s.calls.viewers
    requires id in s.calls.opens && s.calls.opens[id] == Preparing(c)
    ensures Steps(s, [Open(ReserveOpen(id, true)), View(ViewerStarts(id, v))] + [Open(AttachOpen(id)), Open(ActivateOpen(id))])
              == Some(t)
    ensures t.m == s.m.(active := s.m.active[c := ActiveViewer(v, id)])
    ensures v in t.calls.viewers && t.calls.viewers[v] == Running
    ensures Step(t, Visit(InputLookup(c, v))) == Some(t) && OutputAllowed(t.m, c, id)
  {
    var u := ReservesAndStarts(s, c, id, v);
    t := AttachesAndActivates(u, c, id, v);
    PutAndTaken(s.m.opening, c, OpeningViewer(id, None));
    ActiveServes(t, c, id, v);
    StepsAppend(s, [Open(ReserveOpen(id, true)), View(ViewerStarts(id, v))], u, [Open(AttachOpen(id)), Open(ActivateOpen(id))], t);
  }

  /** A connection that registers is admitted by a Ready manager, and may ask for a viewer. */
  lemma ConnectSucceeds(s: Sys, c: ClientId, id: OpenId)
    requires s.cut.None? && c in s.net.connections && c in s.net.registered && id !in s.calls.issued
    requires s.m.phase == Ready && !s.m.shutdown
    ensures var t := Step(s, Open(ClientConnects(c, id, true)));
            t.Some? && t.value.m == s.m.(clients := s.m.clients + {c})
            && id in t.value.calls.opens && t.value.calls.opens[id] == Preparing(c) && id in t.value.calls.issued
  {
  }

  /** A handshake under the server's current secret registers, with an open queue. */
  lemma RegisterSucceeds(s: Sys, h: HandshakeId, server: ServerId, c: ClientId) returns (t: Sys)
    requires h !in s.net.handshakes && c !in s.net.registered && server in s.res.servers
    ensures Steps(s, [Serve(Handshake(h, server)), Serve(Register(h, c))]) == Some(t)
    ensures c in t.net.registered && t.net.registered[c] == Credential(server, s.res.servers[server].version)
    ensures c in t.net.connections && t.net.closedQueues == s.net.closedQueues && h !in t.net.handshakes && t.m == s.m
  {
    var u := Step(s, Serve(Handshake(h, server))).value;
    t := Step(u, Serve(Register(h, c))).value;
    TwoSteps(s, Serve(Handshake(h, server)), u, Serve(Register(h, c)), t);
  }

  /** A close by the client, a disconnect, or the viewer's own end takes the viewer out, and it will be closed unless it ended. */
  lemma ClientLosesViewer(s: Sys, c: ClientId, v: ViewerId)
    requires Inv(s) && s.cut.None? && HasFor(s.m, c, v)
    ensures var t := Step(s, Visit(ClientCloses(c)));
            t.Some? && v in t.value.calls.closing && c !in t.value.m.active && c !in t.value.m.opening
            && t.value.m.clients == s.m.clients
    ensures var t := Step(s, Visit(ClientDisconnects(c)));
            t.Some? && v in t.value.calls.closing && c !in t.value.m.active && c !in t.value.m.opening
            && t.value.m.clients == s.m.clients - {c}
    ensures c in s.m.active && v in s.calls.viewers && s.calls.viewers[v] == Over ==>
              var t := Step(s, Visit(ViewerWatched(c, v)));
              t.Some? && t.value.m == s.m.(active := s.m.active - {c}) && t.value.calls == s.calls
  {
  }

  /** What the clean-up after a clear has closed. */
  ghost predicate AllClosed(s: Sys, t: Sys) {
    && (s.m.server.Some? ==> s.m.server.value in t.res.servers && t.res.servers[s.m.server.value].closes == 1)
    && (s.m.tunnel.Some? ==> s.m.tunnel.value in t.res.tunnels && t.res.tunnels[s.m.tunnel.value].closes == 1)
    && s.m.clients <= t.net.closedQueues
    && (forall v :: Has(s.m, v) ==> v in t.calls.closing)
    && t.m.clients == {} && t.m.active == map[] && t.m.opening == map[]
  }

  /** A shutdown that was asked for closes everything and stops for good. */
  lemma ShutdownCloses(s: Sys) returns (t: Sys)
    requires Inv(s) && s.op == Idle && s.cut.None? && s.m.shutdownAsked && !s.m.shutdown
    ensures Steps(s, [Stop(ShutdownRun), Stop(CleanupRun)]) == Some(t)
    ensures t.m.phase == Stopped && t.m.shutdown && t.m.errText == "" && AllClosed(s, t)
  {
    HeldIsHas(s.m);
    var u := Step(s, Stop(ShutdownRun)).value;
    t := Step(u, Stop(CleanupRun)).value;
    TwoSteps(s, Stop(ShutdownRun), u, Stop(CleanupRun), t);
  }

  /** The exit of the manager's tunnel fails it with the tunnel's message; any other tunnel's does not touch it. */
  lemma TunnelExitCloses(s: Sys, tunnel: TunnelId, message: string) returns (t: Sys)
    requires Inv(s) && s.op == Idle && s.cut.None?
    ensures s.m.tunnel == Some(tunnel) ==>
              && Steps(s, [Stop(TunnelExits(tunnel, message)), Stop(CleanupRun)]) == Some(t)
              && t.m.phase == Failed && t.m.errText == message && AllClosed(s, t)
    ensures s.m.tunnel != Some(tunnel) ==> Step(s, Stop(TunnelExits(tunnel, message))) == Some(s)
  {
    HeldIsHas(s.m);
    t := s;
    if s.m.tunnel == Some(tunnel) {
      var u := Step(s, Stop(TunnelExits(tunnel, message))).value;
      t := Step(u, Stop(CleanupRun)).value;
      TwoSteps(s, Stop(TunnelExits(tunnel, message)), u, Stop(CleanupRun), t);
    }
  }

  /** Inside a rotation's section the remaining clients are closed one by one. */
  lemma {:induction false} RotationCloses(s: Sys) returns (acts: seq<Action>, t: Sys)
    requires Inv(s) && s.op.Rotation? && s.cut.Some?
    ensures Steps(s, acts) == Some(t) && t == s.(cut := Some({}), net := t.net)
    ensures t.net == s.net.(closedQueues := s.net.closedQueues + s.cut.value)
    decreases s.cut.value
  {
    if s.cut.value == {} {
      acts, t := [], s;
      assert s.net.closedQueues + {} == s.net.closedQueues;
    } else {
      var c :| c in s.cut.value;
      var u := Step(s, Rotate(RotateClose(c))).value;
      StepKeepsInv(s, Rotate(RotateClose(c)));
      var more;
      more, t := RotationCloses(u);
      acts := [Rotate(RotateClose(c))] + more;
      OneStep(s, Rotate(RotateClose(c)), u, more, t);
      assert s.net.closedQueues + {c} + (s.cut.value - {c}) == s.net.closedQueues + s.cut.value;
    }
  }

  /** A rotation begun on a Ready manager can always finish, and then the new secret is in force and nobody is connected. */
  lemma RotationFinishes(s: Sys, url: string, qr: string) returns (acts: seq<Action>, t: Sys)
    requires Inv(s) && s.op.Rotation? && s.cut.None?
    ensures Steps(s, acts) == Some(t) && t.cut.None? && t.op == RotationCleanup
    ensures t.m.phase == Ready && t.m.secret == Some(s.op.secret) && t.m.pairingURL == url && t.m.qr == qr
    ensures t.m.server == s.m.server && s.m.server.Some? && s.m.server.value in s.res.servers && s.m.server.value in t.res.servers
    ensures var (v, w) := (s.res.servers[s.m.server.value], t.res.servers[s.m.server.value]);
            w.secret == s.op.secret && w.version == v.version + 1
    ensures t.m.clients == {} && ConnectedTo(s.net, s.m.server.value) <= t.net.closedQueues
    ensures forall v :: Has(s.m, v) ==> v in t.calls.closing
  {
    var s1 := Step(s, Rotate(RotateCut)).value;
    StepKeepsInv(s, Rotate(RotateCut));
    var closes, s2 := RotationCloses(s1);
    HeldIsHas(s.m);
    HeldIsHas(s2.m);
    t := Step(s2, Rotate(RotateCommitted(url, qr))).value;
    OneStep(s, Rotate(RotateCut), s1, closes, s2);
    assert Steps(t, []) == Some(t);
    OneStep(s2, Rotate(RotateCommitted(url, qr)), t, [], t);
    acts := [Rotate(RotateCut)] + closes + ([Rotate(RotateCommitted(url, qr))] + []);
    StepsAppend(s, [Rotate(RotateCut)] + closes, s2, [Rotate(RotateCommitted(url, qr))] + [], t);
  }
}
