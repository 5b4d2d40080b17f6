/**
 The mirror as a machine: one manager, the local servers it starts one after another, the
 clients those servers register, their outbound queues, the `open` calls in flight and the
 viewers those start. A step is one critical section, or one event outside any lock.

 Rotation is taken apart further, because it is the one place where the manager lock is held
 across several effects: `RotateCut` advances the server's secret version, `RotateClose`
 closes one registered client's queue, and `RotateCommit` detaches the viewers and unlocks.
 While `cut` is set the manager lock is taken; steps that need no manager lock go on.
 */
module MirrorSystem {
  import opened Options
  import opened MirrorManager

  type HandshakeId = nat

  /** A local server, with the secret that authenticates handshakes and how often that was replaced. */
  datatype Server = Server(version: nat, live: bool, closes: nat, secret: Secret)
  datatype Tunnel = Tunnel(url: string, closes: nat)
  datatype Credential = Credential(server: ServerId, version: nat)
  datatype ViewerStatus = Running | Over

  /** Everything `start` ever obtained, with the number of Close calls each server and tunnel received. */
  datatype Resources = Resources(servers: map<ServerId, Server>, tunnels: map<TunnelId, Tunnel>)

  datatype Network = Network(
    handshakes: map<HandshakeId, Credential>,
    registered: map<ClientId, Credential>, // every client ever registered, with the version it was admitted under
    connections: set<ClientId>, // the clients still in their server's connections map
    closedQueues: set<ClientId>)

  /** An `open` call: before its reservation, after it, with a started viewer, with that viewer attached. */
  datatype OpenCall =
    | Preparing(client: ClientId)
    | Holding(client: ClientId)
    | Started(client: ClientId, viewer: ViewerId)
    | Attached(client: ClientId, viewer: ViewerId)

  datatype Calls = Calls(
    issued: set<OpenId>,
    opens: map<OpenId, OpenCall>,
    viewers: map<ViewerId, ViewerStatus>,
    closing: set<ViewerId>, // viewers some goroutine has taken out in order to close
    startedFor: map<ViewerId, ClientId>) // whose `open` call started each viewer

  /** What the holder of the operation mutex is doing. */
  datatype Operation =
    | Idle
    | Launch(secret: Secret, server: Option<ServerId>, tunnel: Option<TunnelId>)
    | LaunchFailed
    | LaunchEnding
    | Rotation(secret: Secret)
    | RotationCleanup
    | Closing(cleanup: Cleanup)

  datatype Sys = Sys(
    m: Mgr,
    op: Operation,
    cut: Option<set<ClientId>>, // clients SetSecret has still to close; Some while Rotate holds the manager lock
    res: Resources,
    net: Network,
    calls: Calls)

  const Init := Sys(NewMgr, Idle, None, Resources(map[], map[]), Network(map[], map[], {}, {}),
                    Calls({}, map[], map[], {}, map[]))

  /** Steps of `start`, which holds the operation mutex throughout. */
  datatype StartStep =
    | StartBegin(secret: Secret)
    | ServerStarted(server: ServerId)
    | TunnelStarted(tunnel: TunnelId, url: string)
    | StartAbort
    | StartCommit(pairingURL: string, qr: string, cancelled: bool)
    | StartFail(cancelled: bool, message: string)
    | StartEnd

  /** Steps of `Shutdown` and of the goroutine that watches the tunnel. */
  datatype StopStep =
    | ShutdownAsk
    | ShutdownRun
    | TunnelExits(tunnel: TunnelId, message: string)
    | CleanupRun

  /** Steps of `Rotate`. */
  datatype RotateStep =
    | RotateBegin(secret: Secret)
    | RotateAbort
    | RotateCut
    | RotateClose(client: ClientId)
    | RotateCommitted(pairingURL: string, qr: string)
    | RotateEnd

  /** Steps of the local servers and the client queues; none of them takes the manager lock. */
  datatype ServerStep =
    | ServerCancelled(server: ServerId)
    | Handshake(handshake: HandshakeId, server: ServerId)
    | Register(handshake: HandshakeId, client: ClientId)
    | Unregister(client: ClientId)
    | QueueCloses(client: ClientId)

  /** Sections under the manager lock of `Connected` and `open`. */
  datatype OpenStep =
    | ClientConnects(client: ClientId, id: OpenId, opens: bool)
    | ReserveOpen(id: OpenId, accepted: bool)
    | ViewerStartFails(id: OpenId)
    | AttachOpen(id: OpenId)
    | ActivateOpen(id: OpenId)

  /** The other sections under the manager lock that belong to one client. */
  datatype ClientStep =
    | ClientCloses(client: ClientId)
    | ClientDisconnects(client: ClientId)
    | ViewerWatched(client: ClientId, viewer: ViewerId)
    | InputLookup(client: ClientId, viewer: ViewerId)
    | OutputPushed(client: ClientId, id: OpenId)

  /** What happens to preparations and viewers outside every lock. */
  datatype ViewerStep =
    | PrepareFails(id: OpenId)
    | ViewerStarts(id: OpenId, viewer: ViewerId)
    | ViewerEnds(viewer: ViewerId)
    | ViewerCloses(viewer: ViewerId)

  datatype Action =
    | Start(start: StartStep)
    | Stop(stop: StopStep)
    | Rotate(rotate: RotateStep)
    | Serve(server: ServerStep)
    | Open(open: OpenStep)
    | Visit(client: ClientStep)
    | View(viewer: ViewerStep)

  // ----- resources -----

  /** One Close call on a server: its context is cancelled before anything else happens. */
  function CloseServer(res: Resources, id: Option<ServerId>): Resources {
    if id.None? || id.value !in res.servers then res
    else var v := res.servers[id.value];
         res.(servers := res.servers[id.value := v.(live := false, closes := v.closes + 1)])
  }

  function CloseTunnel(res: Resources, id: Option<TunnelId>): Resources {
    if id.None? || id.value !in res.tunnels then res
    else var v := res.tunnels[id.value]; res.(tunnels := res.tunnels[id.value := v.(closes := v.closes + 1)])
  }

  function CloseBoth(res: Resources, server: Option<ServerId>, tunnel: Option<TunnelId>): Resources {
    CloseServer(CloseTunnel(res, tunnel), server)
  }

  /** The clients SetSecret finds in the connections map of the manager's server. */
  function ConnectedTo(net: Network, server: ServerId): set<ClientId> {
    set c | c in net.connections && c in net.registered && net.registered[c].server == server
  }

  // ----- steps -----

  function StepStart(s: Sys, a: StartStep): Option<Sys> {
    match a
    case StartBegin(secret) =>
      if s.op != Idle || s.cut.Some? then None
      else var (m, verdict) := BeginStart(s.m);
           Some(s.(m := m, op := if verdict == Proceed then Launch(secret, None, None) else Idle))
    case ServerStarted(id) =>
      if !s.op.Launch? || s.op.server.Some? || s.op.tunnel.Some? || id in s.res.servers then None
      else Some(s.(op := s.op.(server := Some(id)),
                   res := s.res.(servers := s.res.servers[id := Server(1, true, 0, s.op.secret)])))
    case TunnelStarted(id, url) =>
      if !s.op.Launch? || s.op.server.None? || s.op.tunnel.Some? || id in s.res.tunnels then None
      else Some(s.(op := s.op.(tunnel := Some(id)), res := s.res.(tunnels := s.res.tunnels[id := Tunnel(url, 0)])))
    case StartAbort =>
      if !s.op.Launch? then None
      else Some(s.(op := LaunchFailed, res := CloseBoth(s.res, s.op.server, s.op.tunnel)))
    case StartCommit(pairingURL, qr, cancelled) =>
      if !s.op.Launch? || s.op.server.None? || s.op.tunnel.None? || s.op.tunnel.value !in s.res.tunnels || s.cut.Some? then None
      else var pairing := Pairing(s.op.secret, s.res.tunnels[s.op.tunnel.value].url, pairingURL, qr);
           var (m, ok) := CommitStart(s.m, s.op.server.value, s.op.tunnel.value, pairing, cancelled);
           if ok then Some(s.(m := m, op := LaunchEnding))
           else Some(s.(m := m, op := LaunchFailed, res := CloseBoth(s.res, s.op.server, s.op.tunnel)))
    case StartFail(cancelled, message) =>
      if s.op != LaunchFailed || s.cut.Some? then None
      else Some(s.(m := FailStart(s.m, cancelled, message), op := LaunchEnding))
    case StartEnd =>
      if s.op != LaunchEnding || s.cut.Some? then None
      else Some(s.(m := EndStart(s.m), op := Idle))
  }

  function StepStop(s: Sys, a: StopStep): Option<Sys> {
    match a
    case ShutdownAsk =>
      if s.cut.Some? then None else Some(s.(m := AskShutdown(s.m)))
    case ShutdownRun =>
      if s.op != Idle || s.cut.Some? || !s.m.shutdownAsked then None
      else Some(TakeCleanup(s, MirrorManager.Shutdown(s.m)))
    case TunnelExits(id, message) =>
      if s.op != Idle || s.cut.Some? then None
      else Some(TakeCleanup(s, TunnelExit(s.m, id, message)))
    case CleanupRun =>
      if !s.op.Closing? then None
      else var c := s.op.cleanup;
           Some(s.(op := Idle, res := CloseBoth(s.res, c.server, c.tunnel),
                   net := s.net.(closedQueues := s.net.closedQueues + c.clients)))
  }

  function StepRotate(s: Sys, a: RotateStep): Option<Sys> {
    match a
    case RotateBegin(secret) =>
      if s.op != Idle || s.cut.Some? || !CanRotate(s.m) then None else Some(s.(op := Rotation(secret)))
    case RotateAbort =>
      if !s.op.Rotation? || s.cut.Some? then None else Some(s.(op := Idle))
    case RotateCut =>
      if !s.op.Rotation? || s.cut.Some? || !CanRotate(s.m) || s.m.server.value !in s.res.servers then None
      else var (id, v) := (s.m.server.value, s.res.servers[s.m.server.value]);
           Some(s.(res := s.res.(servers := s.res.servers[id := v.(secret := s.op.secret, version := v.version + 1)]),
                   cut := Some(ConnectedTo(s.net, id))))
    case RotateClose(c) =>
      if s.cut.None? || c !in s.cut.value then None
      else Some(s.(cut := Some(s.cut.value - {c}),
                   net := s.net.(closedQueues := s.net.closedQueues + {c})))
    case RotateCommitted(pairingURL, qr) =>
      if s.cut != Some({}) || !s.op.Rotation? then None
      else var (m, viewers) := RotateCommit(s.m, s.op.secret, pairingURL, qr);
           Some(s.(m := m, cut := None, op := RotationCleanup, calls := ToClose(s.calls, viewers)))
    case RotateEnd =>
      if s.op != RotationCleanup then None else Some(s.(op := Idle))
  }

  function ToClose(calls: Calls, viewers: set<ViewerId>): Calls {
    calls.(closing := calls.closing + viewers)
  }

  function TakeCleanup(s: Sys, cleared: (Mgr, Option<Cleanup>)): Sys {
    if cleared.1.None? then s.(m := cleared.0)
    else s.(m := cleared.0, op := Closing(cleared.1.value), calls := ToClose(s.calls, cleared.1.value.viewers))
  }

  function StepServer(s: Sys, a: ServerStep): Option<Sys> {
    var net := s.net;
    match a
    case ServerCancelled(id) =>
      if id !in s.res.servers then None
      else Some(s.(res := s.res.(servers := s.res.servers[id := s.res.servers[id].(live := false)])))
    case Handshake(h, id) =>
      if h in net.handshakes || id !in s.res.servers then None
      else Some(s.(net := net.(handshakes := net.handshakes[h := Credential(id, s.res.servers[id].version)])))
    case Register(h, c) =>
      if h !in net.handshakes || c in net.registered || net.handshakes[h].server !in s.res.servers then None
      else if net.handshakes[h].version != s.res.servers[net.handshakes[h].server].version
      then Some(s.(net := net.(handshakes := net.handshakes - {h})))
      else Some(s.(net := Network(net.handshakes - {h}, net.registered[c := net.handshakes[h]],
                                  net.connections + {c}, net.closedQueues)))
    case Unregister(c) =>
      if c !in net.connections || c !in net.closedQueues then None
      else Some(s.(net := net.(connections := net.connections - {c})))
    case QueueCloses(c) =>
      if c !in net.registered then None
      else Some(s.(net := net.(closedQueues := net.closedQueues + {c})))
  }

  /** Whether Ready can still be queued for client `c`: its queue is open and its server's context is live. */
  predicate Reachable(s: Sys, c: ClientId) {
    && c !in s.net.closedQueues && c in s.net.registered
    && s.net.registered[c].server in s.res.servers && s.res.servers[s.net.registered[c].server].live
  }

  function StepOpen(s: Sys, a: OpenStep): Option<Sys> {
    if s.cut.Some? then None else
    var calls := s.calls;
    match a
    case ClientConnects(c, id, opens) =>
      if c !in s.net.connections || c !in s.net.registered || id in calls.issued then None
      else var (m, ok) := Connect(s.m, c);
           if !ok || !opens then Some(s.(m := m))
           else Some(s.(m := m, calls := calls.(issued := calls.issued + {id},
                                                opens := calls.opens[id := Preparing(c)])))
    case ReserveOpen(id, accepted) =>
      if id !in calls.opens || !calls.opens[id].Preparing? then None
      else var c := calls.opens[id].client;
           var (m, r) := Reserve(s.m, c, id, accepted && Reachable(s, c));
           Some(s.(m := m, calls := calls.(opens := if r == Reserved then calls.opens[id := Holding(c)]
                                                    else calls.opens - {id})))
    case ViewerStartFails(id) =>
      if id !in calls.opens || !calls.opens[id].Holding? then None
      else Some(s.(m := RemoveOpening(s.m, calls.opens[id].client, id),
                   calls := calls.(opens := calls.opens - {id})))
    case AttachOpen(id) =>
      if id !in calls.opens || !calls.opens[id].Started? then None
      else var (c, v) := (calls.opens[id].client, calls.opens[id].viewer);
           var (m, ok) := Attach(s.m, c, id, v);
           if ok then Some(s.(m := m, calls := calls.(opens := calls.opens[id := Attached(c, v)])))
           else Some(s.(m := m, calls := ToClose(calls.(opens := calls.opens - {id}), {v})))
    case ActivateOpen(id) =>
      if id !in calls.opens || !calls.opens[id].Attached? then None
      else var (c, v) := (calls.opens[id].client, calls.opens[id].viewer);
           var (m, ok) := Activate(s.m, c, id, v);
           Some(s.(m := m, calls := ToClose(calls.(opens := calls.opens - {id}), if ok then {} else {v})))
  }

  function StepClient(s: Sys, a: ClientStep): Option<Sys> {
    if s.cut.Some? then None else
    var calls := s.calls;
    match a
    case ClientCloses(c) =>
      var (m, viewers) := CloseViewer(s.m, c);
      Some(s.(m := m, calls := ToClose(calls, viewers)))
    case ClientDisconnects(c) =>
      var (m, viewers) := Disconnect(s.m, c);
      Some(s.(m := m, calls := ToClose(calls, viewers)))
    case ViewerWatched(c, v) =>
      if v !in calls.viewers || calls.viewers[v] != Over then None
      else Some(s.(m := ViewerExit(s.m, c, v).0))
    case InputLookup(c, v) =>
      if InputViewer(s.m, c) != Some(v) then None else Some(s)
    case OutputPushed(c, id) =>
      if !OutputAllowed(s.m, c, id) || c in s.net.closedQueues then None else Some(s)
  }

  function StepViewer(calls: Calls, a: ViewerStep): Option<Calls> {
    match a
    case PrepareFails(id) =>
      if id !in calls.opens || !calls.opens[id].Preparing? then None
      else Some(calls.(opens := calls.opens - {id}))
    case ViewerStarts(id, v) =>
      if id !in calls.opens || !calls.opens[id].Holding? || v in calls.viewers then None
      else Some(calls.(viewers := calls.viewers[v := Running],
                       opens := calls.opens[id := Started(calls.opens[id].client, v)],
                       startedFor := calls.startedFor[v := calls.opens[id].client]))
    case ViewerEnds(v) =>
      if v !in calls.viewers then None else Some(calls.(viewers := calls.viewers[v := Over]))
    case ViewerCloses(v) =>
      if v !in calls.closing || v !in calls.viewers then None
      else Some(calls.(viewers := calls.viewers[v := Over], closing := calls.closing - {v}))
  }

  function Step(s: Sys, a: Action): Option<Sys> {
    match a
    case Start(b) => StepStart(s, b)
    case Stop(e) => StepStop(s, e)
    case Rotate(r) => StepRotate(s, r)
    case Serve(v) => StepServer(s, v)
    case Open(o) => StepOpen(s, o)
    case Visit(c) => StepClient(s, c)
    case View(v) => var calls := StepViewer(s.calls, v); if calls.None? then None else Some(s.(calls := calls.value))
  }

  // ----- the invariant -----

  /** The server the operation in progress is responsible for, if any; likewise the tunnel. */
  function OpServer(op: Operation): Option<ServerId> {
    match op case Launch(_, s, _) => s case Closing(c) => c.server case _ => None
  }

  function OpTunnel(op: Operation): Option<TunnelId> {
    match op case Launch(_, _, t) => t case Closing(c) => c.tunnel case _ => None
  }

  ghost predicate PhaseInv(m: Mgr, op: Operation, cut: Option<set<ClientId>>) {
    && (cut.Some? ==> op.Rotation?)
    && (m.phase == Ready ==> m.server.Some? && m.tunnel.Some? && m.secret.Some? && !m.shutdown)
    && (m.phase != Ready ==> m.server == None && m.tunnel == None && m.secret == None)
    && (m.phase != Ready ==> m.publicURL == "" && m.pairingURL == "" && m.qr == "")
    && (op.Launch? || op == LaunchFailed ==> m.phase == Phase.Starting)
    && (op.Launch? ==> m.startup.Some? && (op.tunnel.Some? ==> op.server.Some?))
    && (op.Rotation? ==> CanRotate(m))
    && (op.Closing? ==> m.phase != Ready)
    && (m.shutdown ==> m.shutdownAsked)
  }

  ghost predicate ResourceInv(server: Option<ServerId>, tunnel: Option<TunnelId>, op: Operation, res: Resources) {
    && (server.Some? ==> server.value in res.servers && OpServer(op) == None)
    && (tunnel.Some? ==> tunnel.value in res.tunnels && OpTunnel(op) == None)
    && (OpServer(op).Some? ==> OpServer(op).value in res.servers)
    && (OpTunnel(op).Some? ==> OpTunnel(op).value in res.tunnels)
    && (forall id :: id in res.servers ==>
          res.servers[id].closes == if server == Some(id) || OpServer(op) == Some(id) then 0 else 1)
    && (forall id :: id in res.tunnels ==>
          res.tunnels[id].closes == if tunnel == Some(id) || OpTunnel(op) == Some(id) then 0 else 1)
    && (forall id :: id in res.servers && res.servers[id].closes > 0 ==> !res.servers[id].live)
  }

  /** A registered client left behind by a version bump has its queue closed, or is next in SetSecret's list. */
  ghost predicate QueueInv(servers: map<ServerId, Server>, net: Network, cut: Option<set<ClientId>>) {
    && net.connections <= net.registered.Keys
    && (forall c :: c in net.registered ==>
          && net.registered[c].server in servers
          && net.registered[c].version <= servers[net.registered[c].server].version
          && (c in net.connections || c in net.closedQueues)
          && (net.registered[c].version < servers[net.registered[c].server].version ==>
                c in net.closedQueues || (cut.Some? && c in cut.value)))
  }

  /** Client `c` was admitted by the manager's own server under its current secret, or the one just cut off. */
  ghost predicate Admitted(server: Option<ServerId>, servers: map<ServerId, Server>,
                           registered: map<ClientId, Credential>, cutting: bool, c: ClientId) {
    && c in registered
    && server == Some(registered[c].server)
    && registered[c].server in servers
    && registered[c].version + (if cutting then 1 else 0) == servers[registered[c].server].version
  }

  ghost predicate AdmittedInv(m: Mgr, servers: map<ServerId, Server>, registered: map<ClientId, Credential>,
                              cutting: bool) {
    forall c :: c in m.opening || c in m.active ==> Admitted(m.server, servers, registered, cutting, c)
  }

  ghost predicate OpensInv(m: Mgr, calls: Calls) {
    && calls.opens.Keys <= calls.issued
    && (forall c :: c in m.active ==> m.active[c].opening in calls.issued && m.active[c].opening !in calls.opens)
    && (forall c :: c in m.opening ==>
          var o := m.opening[c];
          && o.id in calls.opens && calls.opens[o.id].client == c && !calls.opens[o.id].Preparing?
          && (o.viewer.Some? <==> calls.opens[o.id].Attached?)
          && (o.viewer.Some? ==> calls.opens[o.id].viewer == o.viewer.value))
  }

  predicate CallHolds(calls: Calls, id: OpenId, v: ViewerId) {
    id in calls.opens && (calls.opens[id].Started? || calls.opens[id].Attached?) && calls.opens[id].viewer == v
  }

  predicate ActiveHolds(active: map<ClientId, ActiveViewer>, c: ClientId, v: ViewerId) {
    c in active && active[c].viewer == v
  }

  ghost predicate Held(active: map<ClientId, ActiveViewer>, calls: Calls, v: ViewerId) {
    v in calls.closing || (exists id :: CallHolds(calls, id, v)) || (exists c :: ActiveHolds(active, c, v))
  }

  ghost predicate ViewersInv(active: map<ClientId, ActiveViewer>, calls: Calls) {
    forall v :: v in calls.viewers && calls.viewers[v] == Running ==> Held(active, calls, v)
  }

  ghost predicate Inv(s: Sys) {
    && PhaseInv(s.m, s.op, s.cut)
    && ClientsInv(s.m)
    && ResourceInv(s.m.server, s.m.tunnel, s.op, s.res)
    && QueueInv(s.res.servers, s.net, s.cut)
    && AdmittedInv(s.m, s.res.servers, s.net.registered, s.cut.Some?)
    && OpensInv(s.m, s.calls)
    && ViewersInv(s.m.active, s.calls)
  }

  /** Carries ViewersInv across a step: every way of holding a viewer survives, or the viewer is over. */
  lemma ViewersKept(active: map<ClientId, ActiveViewer>, calls: Calls,
                    active': map<ClientId, ActiveViewer>, calls': Calls)
    requires ViewersInv(active, calls)
    requires forall v :: v in calls'.viewers && calls'.viewers[v] == Running && v !in calls.viewers ==>
                           Held(active', calls', v)
    requires forall v :: v in calls.viewers && v in calls'.viewers && calls.viewers[v] == Over ==>
                           calls'.viewers[v] == Over
    requires forall v :: v in calls.closing && v in calls'.viewers ==>
                           v in calls'.closing || calls'.viewers[v] == Over
    requires forall id, v :: CallHolds(calls, id, v) ==>
                               CallHolds(calls', id, v) || v in calls'.closing || (exists c :: ActiveHolds(active', c, v))
    requires forall c, v :: ActiveHolds(active, c, v) && v in calls'.viewers ==>
                              ActiveHolds(active', c, v) || v in calls'.closing || calls'.viewers[v] == Over
    ensures ViewersInv(active', calls')
  {
    forall v | v in calls'.viewers && calls'.viewers[v] == Running ensures Held(active', calls', v) {
      if v in calls.viewers {
        assert Held(active, calls, v);
        if id :| CallHolds(calls, id, v) {
          assert CallHolds(calls', id, v) || v in calls'.closing || (exists c :: ActiveHolds(active', c, v));
        } else if c :| ActiveHolds(active, c, v) {
          assert ActiveHolds(active', c, v) || v in calls'.closing;
        }
      }
    }
  }

  /** `start` leaves clients, viewers and open calls alone. */
  lemma StartLeavesClients(s: Sys, a: StartStep)
    requires StepStart(s, a).Some?
    ensures var t := StepStart(s, a).value;
            t.calls == s.calls && t.net == s.net && t.cut == s.cut
            && t.m.clients == s.m.clients && t.m.active == s.m.active && t.m.opening == s.m.opening
            && (s.m.clients != {} ==> t.res.servers == s.res.servers || s.op.Launch?)
  {
  }

  lemma StartKeepsPhase(s: Sys, a: StartStep)
    requires PhaseInv(s.m, s.op, s.cut)
    requires StepStart(s, a).Some?
    ensures var t := StepStart(s, a).value; PhaseInv(t.m, t.op, t.cut)
  {
  }

  lemma StartKeepsClients(s: Sys, a: StartStep)
    requires PhaseInv(s.m, s.op, s.cut)
    requires ClientsInv(s.m)
    requires StepStart(s, a).Some?
    ensures var t := StepStart(s, a).value; ClientsInv(t.m)
  {
  }

  lemma CommitKeepsResources(s: Sys, pairingURL: string, qr: string, cancelled: bool)
    requires PhaseInv(s.m, s.op, s.cut)
    requires ResourceInv(s.m.server, s.m.tunnel, s.op, s.res)
    requires StepStart(s, StartCommit(pairingURL, qr, cancelled)).Some?
    ensures var t := StepStart(s, StartCommit(pairingURL, qr, cancelled)).value; ResourceInv(t.m.server, t.m.tunnel, t.op, t.res)
  {
  }

  lemma StartKeepsResources(s: Sys, a: StartStep)
    requires PhaseInv(s.m, s.op, s.cut)
    requires ResourceInv(s.m.server, s.m.tunnel, s.op, s.res)
    requires StepStart(s, a).Some?
    ensures var t := StepStart(s, a).value; ResourceInv(t.m.server, t.m.tunnel, t.op, t.res)
  {
    if a.StartCommit? {
      CommitKeepsResources(s, a.pairingURL, a.qr, a.cancelled);
    }
  }

  lemma StartKeepsQueues(s: Sys, a: StartStep)
    requires QueueInv(s.res.servers, s.net, s.cut)
    requires StepStart(s, a).Some?
    ensures var t := StepStart(s, a).value; QueueInv(t.res.servers, t.net, t.cut)
  {
  }

  lemma StartKeepsInv(s: Sys, a: StartStep)
    requires Inv(s) && StepStart(s, a).Some?
    ensures Inv(StepStart(s, a).value)
  {
    StartLeavesClients(s, a);
    StartKeepsPhase(s, a);
    StartKeepsClients(s, a);
    StartKeepsResources(s, a);
    StartKeepsQueues(s, a);
  }

  lemma StopKeepsPhase(s: Sys, a: StopStep)
    requires PhaseInv(s.m, s.op, s.cut)
    requires StepStop(s, a).Some?
    ensures var t := StepStop(s, a).value; PhaseInv(t.m, t.op, t.cut)
  {
  }

  lemma StopKeepsClients(s: Sys, a: StopStep)
    requires ClientsInv(s.m)
    requires StepStop(s, a).Some?
    ensures var t := StepStop(s, a).value; ClientsInv(t.m)
  {
  }

  lemma StopKeepsResources(s: Sys, a: StopStep)
    requires PhaseInv(s.m, s.op, s.cut)
    requires ResourceInv(s.m.server, s.m.tunnel, s.op, s.res)
    requires StepStop(s, a).Some?
    ensures var t := StepStop(s, a).value; ResourceInv(t.m.server, t.m.tunnel, t.op, t.res)
  {
  }

  lemma StopKeepsQueues(s: Sys, a: StopStep)
    requires QueueInv(s.res.servers, s.net, s.cut)
    requires StepStop(s, a).Some?
    ensures var t := StepStop(s, a).value; QueueInv(t.res.servers, t.net, t.cut)
  {
  }

  lemma StopKeepsAdmitted(s: Sys, a: StopStep)
    requires AdmittedInv(s.m, s.res.servers, s.net.registered, s.cut.Some?)
    requires StepStop(s, a).Some?
    ensures var t := StepStop(s, a).value; AdmittedInv(t.m, t.res.servers, t.net.registered, t.cut.Some?)
  {
  }

  lemma StopKeepsOpens(s: Sys, a: StopStep)
    requires OpensInv(s.m, s.calls)
    requires StepStop(s, a).Some?
    ensures var t := StepStop(s, a).value; OpensInv(t.m, t.calls)
  {
  }

  lemma StopKeepsViewers(s: Sys, a: StopStep)
    requires ViewersInv(s.m.active, s.calls)
    requires StepStop(s, a).Some?
    ensures var t := StepStop(s, a).value; ViewersInv(t.m.active, t.calls)
  {
    var t := StepStop(s, a).value;
    ViewersKept(s.m.active, s.calls, t.m.active, t.calls);
  }

  lemma StopKeepsInv(s: Sys, a: StopStep)
    requires Inv(s) && StepStop(s, a).Some?
    ensures Inv(StepStop(s, a).value)
  {
    StopKeepsPhase(s, a);
    StopKeepsClients(s, a);
    StopKeepsResources(s, a);
    StopKeepsQueues(s, a);
    StopKeepsAdmitted(s, a);
    StopKeepsOpens(s, a);
    StopKeepsViewers(s, a);
  }

  lemma RotateKeepsPhase(s: Sys, a: RotateStep)
    requires PhaseInv(s.m, s.op, s.cut)
    requires StepRotate(s, a).Some?
    ensures var t := StepRotate(s, a).value; PhaseInv(t.m, t.op, t.cut)
  {
  }

  lemma RotateKeepsClients(s: Sys, a: RotateStep)
    requires ClientsInv(s.m)
    requires StepRotate(s, a).Some?
    ensures var t := StepRotate(s, a).value; ClientsInv(t.m)
  {
  }

  lemma RotateKeepsResources(s: Sys, a: RotateStep)
    requires PhaseInv(s.m, s.op, s.cut)
    requires ResourceInv(s.m.server, s.m.tunnel, s.op, s.res)
    requires StepRotate(s, a).Some?
    ensures var t := StepRotate(s, a).value; ResourceInv(t.m.server, t.m.tunnel, t.op, t.res)
  {
  }

  lemma RotateKeepsQueues(s: Sys, a: RotateStep)
    requires PhaseInv(s.m, s.op, s.cut)
    requires QueueInv(s.res.servers, s.net, s.cut)
    requires StepRotate(s, a).Some?
    ensures var t := StepRotate(s, a).value; QueueInv(t.res.servers, t.net, t.cut)
  {
  }

  lemma RotateKeepsAdmitted(s: Sys, a: RotateStep)
    requires PhaseInv(s.m, s.op, s.cut)
    requires AdmittedInv(s.m, s.res.servers, s.net.registered, s.cut.Some?)
    requires StepRotate(s, a).Some?
    ensures var t := StepRotate(s, a).value; AdmittedInv(t.m, t.res.servers, t.net.registered, t.cut.Some?)
  {
  }

  lemma RotateKeepsOpens(s: Sys, a: RotateStep)
    requires OpensInv(s.m, s.calls)
    requires StepRotate(s, a).Some?
    ensures var t := StepRotate(s, a).value; OpensInv(t.m, t.calls)
  {
  }

  lemma RotateKeepsViewers(s: Sys, a: RotateStep)
    requires ViewersInv(s.m.active, s.calls)
    requires StepRotate(s, a).Some?
    ensures var t := StepRotate(s, a).value; ViewersInv(t.m.active, t.calls)
  {
    var t := StepRotate(s, a).value;
    ViewersKept(s.m.active, s.calls, t.m.active, t.calls);
  }

  lemma RotateKeepsInv(s: Sys, a: RotateStep)
    requires Inv(s) && StepRotate(s, a).Some?
    ensures Inv(StepRotate(s, a).value)
  {
    RotateKeepsPhase(s, a);
    RotateKeepsClients(s, a);
    RotateKeepsResources(s, a);
    RotateKeepsQueues(s, a);
    RotateKeepsAdmitted(s, a);
    RotateKeepsOpens(s, a);
    RotateKeepsViewers(s, a);
  }

  lemma ServerLeavesManager(s: Sys, a: ServerStep)
    requires StepServer(s, a).Some?
    ensures var t := StepServer(s, a).value; t.m == s.m && t.op == s.op && t.cut == s.cut && t.calls == s.calls
  {
  }

  lemma ServerKeepsResources(s: Sys, a: ServerStep)
    requires ResourceInv(s.m.server, s.m.tunnel, s.op, s.res)
    requires StepServer(s, a).Some?
    ensures var t := StepServer(s, a).value; ResourceInv(t.m.server, t.m.tunnel, t.op, t.res)
  {
  }

  lemma ServerKeepsQueues(s: Sys, a: ServerStep)
    requires QueueInv(s.res.servers, s.net, s.cut)
    requires StepServer(s, a).Some?
    ensures var t := StepServer(s, a).value; QueueInv(t.res.servers, t.net, t.cut)
  {
  }

  lemma ServerKeepsAdmitted(s: Sys, a: ServerStep)
    requires AdmittedInv(s.m, s.res.servers, s.net.registered, s.cut.Some?)
    requires StepServer(s, a).Some?
    ensures var t := StepServer(s, a).value; AdmittedInv(t.m, t.res.servers, t.net.registered, t.cut.Some?)
  {
  }

  lemma ServerKeepsInv(s: Sys, a: ServerStep)
    requires Inv(s) && StepServer(s, a).Some?
    ensures Inv(StepServer(s, a).value)
  {
    ServerLeavesManager(s, a);
    ServerKeepsResources(s, a);
    ServerKeepsQueues(s, a);
    ServerKeepsAdmitted(s, a);
  }

  lemma OpenLeavesServers(s: Sys, a: OpenStep)
    requires StepOpen(s, a).Some?
    ensures var t := StepOpen(s, a).value;
            t.op == s.op && t.cut == s.cut && t.res == s.res && t.net == s.net
            && t.m.server == s.m.server && t.m.tunnel == s.m.tunnel
            && t.m.phase == s.m.phase && t.m.shutdownAsked == s.m.shutdownAsked
  {
  }

  lemma OpenKeepsPhase(s: Sys, a: OpenStep)
    requires PhaseInv(s.m, s.op, s.cut)
    requires StepOpen(s, a).Some?
    ensures var t := StepOpen(s, a).value; PhaseInv(t.m, t.op, t.cut)
  {
  }

  lemma OpenKeepsClients(s: Sys, a: OpenStep)
    requires ClientsInv(s.m)
    requires StepOpen(s, a).Some?
    ensures var t := StepOpen(s, a).value; ClientsInv(t.m)
  {
  }

  /** Only a reservation lets a new client in. */
  lemma OpenAdds(s: Sys, a: OpenStep, c: ClientId)
    requires StepOpen(s, a).Some? && !(c in s.m.opening || c in s.m.active)
    ensures var m := StepOpen(s, a).value.m;
            c in m.opening || c in m.active ==>
              a.ReserveOpen? && c == s.calls.opens[a.id].client && s.m.phase == Ready && c in s.m.clients && Reachable(s, c)
  {
  }

  lemma ReservedIsAdmitted(s: Sys, c: ClientId)
    requires PhaseInv(s.m, s.op, s.cut) && s.cut.None? && s.m.phase == Ready && c in s.m.clients && Reachable(s, c)
    requires ResourceInv(s.m.server, s.m.tunnel, s.op, s.res) && QueueInv(s.res.servers, s.net, s.cut)
    ensures Admitted(s.m.server, s.res.servers, s.net.registered, false, c)
  {
  }

  lemma OpenKeepsAdmitted(s: Sys, a: OpenStep)
    requires PhaseInv(s.m, s.op, s.cut)
    requires ResourceInv(s.m.server, s.m.tunnel, s.op, s.res)
    requires QueueInv(s.res.servers, s.net, s.cut)
    requires AdmittedInv(s.m, s.res.servers, s.net.registered, s.cut.Some?)
    requires StepOpen(s, a).Some?
    ensures var t := StepOpen(s, a).value; AdmittedInv(t.m, t.res.servers, t.net.registered, t.cut.Some?)
  {
    var t := StepOpen(s, a).value;
    OpenLeavesServers(s, a);
    forall c | c in t.m.opening || c in t.m.active ensures Admitted(t.m.server, t.res.servers, t.net.registered, t.cut.Some?, c) {
      if !(c in s.m.opening || c in s.m.active) {
        OpenAdds(s, a, c);
        ReservedIsAdmitted(s, c);
      }
    }
  }

  lemma ReserveKeepsOpens(s: Sys, id: OpenId, accepted: bool)
    requires OpensInv(s.m, s.calls) && StepOpen(s, ReserveOpen(id, accepted)).Some?
    ensures var t := StepOpen(s, ReserveOpen(id, accepted)).value; OpensInv(t.m, t.calls)
  {
  }

  lemma ActivateKeepsOpens(s: Sys, id: OpenId)
    requires OpensInv(s.m, s.calls) && StepOpen(s, ActivateOpen(id)).Some?
    ensures var t := StepOpen(s, ActivateOpen(id)).value; OpensInv(t.m, t.calls)
  {
  }

  lemma AttachKeepsOpens(s: Sys, id: OpenId)
    requires OpensInv(s.m, s.calls) && StepOpen(s, AttachOpen(id)).Some?
    ensures var t := StepOpen(s, AttachOpen(id)).value; OpensInv(t.m, t.calls)
  {
  }

  lemma OpenKeepsOpens(s: Sys, a: OpenStep)
    requires OpensInv(s.m, s.calls)
    requires StepOpen(s, a).Some?
    ensures var t := StepOpen(s, a).value; OpensInv(t.m, t.calls)
  {
    match a
    case ReserveOpen(id, accepted) => ReserveKeepsOpens(s, id, accepted);
    case ActivateOpen(id) => ActivateKeepsOpens(s, id);
    case AttachOpen(id) => AttachKeepsOpens(s, id);
    case _ =>
  }

  lemma OpenKeepsViewers(s: Sys, a: OpenStep)
    requires OpensInv(s.m, s.calls)
    requires ViewersInv(s.m.active, s.calls)
    requires StepOpen(s, a).Some?
    ensures var t := StepOpen(s, a).value; ViewersInv(t.m.active, t.calls)
  {
    var t := StepOpen(s, a).value;
    if a.ActivateOpen? {
      var (c, v) := (s.calls.opens[a.id].client, s.calls.opens[a.id].viewer);
      assert v in t.calls.closing || ActiveHolds(t.m.active, c, v);
    }
    ViewersKept(s.m.active, s.calls, t.m.active, t.calls);
  }

  lemma OpenKeepsInv(s: Sys, a: OpenStep)
    requires Inv(s) && StepOpen(s, a).Some?
    ensures Inv(StepOpen(s, a).value)
  {
    OpenLeavesServers(s, a);
    OpenKeepsPhase(s, a);
    OpenKeepsClients(s, a);
    OpenKeepsAdmitted(s, a);
    OpenKeepsOpens(s, a);
    OpenKeepsViewers(s, a);
  }

  lemma ClientLeavesServers(s: Sys, a: ClientStep)
    requires StepClient(s, a).Some?
    ensures var t := StepClient(s, a).value;
            t.op == s.op && t.cut == s.cut && t.res == s.res && t.net == s.net
            && t.m.server == s.m.server && t.m.tunnel == s.m.tunnel
            && t.m.phase == s.m.phase && t.m.shutdownAsked == s.m.shutdownAsked
  {
  }

  lemma ClientKeepsPhase(s: Sys, a: ClientStep)
    requires PhaseInv(s.m, s.op, s.cut)
    requires StepClient(s, a).Some?
    ensures var t := StepClient(s, a).value; PhaseInv(t.m, t.op, t.cut)
  {
  }

  lemma ClientKeepsClients(s: Sys, a: ClientStep)
    requires ClientsInv(s.m)
    requires StepClient(s, a).Some?
    ensures var t := StepClient(s, a).value; ClientsInv(t.m)
  {
  }

  lemma ClientKeepsAdmitted(s: Sys, a: ClientStep)
    requires AdmittedInv(s.m, s.res.servers, s.net.registered, s.cut.Some?)
    requires StepClient(s, a).Some?
    ensures var t := StepClient(s, a).value; AdmittedInv(t.m, t.res.servers, t.net.registered, t.cut.Some?)
  {
  }

  lemma ClientKeepsOpens(s: Sys, a: ClientStep)
    requires OpensInv(s.m, s.calls)
    requires StepClient(s, a).Some?
    ensures var t := StepClient(s, a).value; OpensInv(t.m, t.calls)
  {
  }

  lemma ClientKeepsViewers(s: Sys, a: ClientStep)
    requires ViewersInv(s.m.active, s.calls)
    requires StepClient(s, a).Some?
    ensures var t := StepClient(s, a).value; ViewersInv(t.m.active, t.calls)
  {
    var t := StepClient(s, a).value;
    ViewersKept(s.m.active, s.calls, t.m.active, t.calls);
  }

  lemma ClientKeepsInv(s: Sys, a: ClientStep)
    requires Inv(s) && StepClient(s, a).Some?
    ensures Inv(StepClient(s, a).value)
  {
    ClientLeavesServers(s, a);
    ClientKeepsPhase(s, a);
    ClientKeepsClients(s, a);
    ClientKeepsAdmitted(s, a);
    ClientKeepsOpens(s, a);
    ClientKeepsViewers(s, a);
  }

  lemma ViewerKeepsOpens(m: Mgr, calls: Calls, a: ViewerStep)
    requires OpensInv(m, calls) && StepViewer(calls, a).Some?
    ensures OpensInv(m, StepViewer(calls, a).value)
  {
  }

  lemma ViewerKeepsViewers(active: map<ClientId, ActiveViewer>, calls: Calls, a: ViewerStep)
    requires ViewersInv(active, calls) && StepViewer(calls, a).Some?
    ensures ViewersInv(active, StepViewer(calls, a).value)
  {
    var t := StepViewer(calls, a).value;
    if a.ViewerStarts? {
      assert CallHolds(t, a.id, a.viewer);
    }
    ViewersKept(active, calls, active, t);
  }

  lemma ViewerKeepsInv(s: Sys, a: ViewerStep)
    requires Inv(s) && StepViewer(s.calls, a).Some?
    ensures Inv(s.(calls := StepViewer(s.calls, a).value))
  {
    ViewerKeepsOpens(s.m, s.calls, a);
    ViewerKeepsViewers(s.m.active, s.calls, a);
  }

  lemma StepKeepsInv(s: Sys, a: Action)
    requires Inv(s) && Step(s, a).Some?
    ensures Inv(Step(s, a).value)
  {
    match a
    case Start(b) => StartKeepsInv(s, b);
    case Stop(e) => StopKeepsInv(s, e);
    case Rotate(r) => RotateKeepsInv(s, r);
    case Serve(v) => ServerKeepsInv(s, v);
    case Open(o) => OpenKeepsInv(s, o);
    case Visit(c) => ClientKeepsInv(s, c);
    case View(v) => ViewerKeepsInv(s, v);
  }

  // ----- whole runs -----

  ghost predicate IsRun(states: seq<Sys>, acts: seq<Action>) {
    && |states| == |acts| + 1
    && states[0] == Init
    && forall i {:trigger acts[i]} :: 0 <= i < |acts| ==> Step(states[i], acts[i]) == Some(states[i + 1])
  }

  lemma RunStep(states: seq<Sys>, acts: seq<Action>, i: nat)
    requires IsRun(states, acts) && i < |acts|
    ensures Step(states[i], acts[i]) == Some(states[i + 1])
  {
  }

  lemma {:induction false} RunKeepsInv(states: seq<Sys>, acts: seq<Action>, i: nat)
    requires IsRun(states, acts) && i < |states|
    ensures Inv(states[i])
  {
    if i > 0 {
      RunKeepsInv(states, acts, i - 1);
      RunStep(states, acts, i - 1);
      StepKeepsInv(states[i - 1], acts[i - 1]);
    }
  }

  /** Client `c` was admitted under a secret version that a completed, or another, rotation has left behind. */
  predicate Stale(s: Sys, c: ClientId) {
    && c in s.net.registered
    && var k := s.net.registered[c];
       && k.server in s.res.servers
       && k.version < s.res.servers[k.server].version
       && (s.cut.Some? && s.m.server == Some(k.server) ==> k.version + 1 < s.res.servers[k.server].version)
  }

  lemma StartLeavesStale(s: Sys, a: StartStep, c: ClientId)
    requires PhaseInv(s.m, s.op, s.cut) && Stale(s, c) && StepStart(s, a).Some?
    ensures Stale(StepStart(s, a).value, c)
  {
  }

  lemma StopLeavesStale(s: Sys, a: StopStep, c: ClientId)
    requires PhaseInv(s.m, s.op, s.cut) && Stale(s, c) && StepStop(s, a).Some?
    ensures Stale(StepStop(s, a).value, c)
  {
  }

  lemma RotateLeavesStale(s: Sys, a: RotateStep, c: ClientId)
    requires Stale(s, c) && StepRotate(s, a).Some?
    ensures Stale(StepRotate(s, a).value, c)
  {
  }

  lemma ServerLeavesStale(s: Sys, a: ServerStep, c: ClientId)
    requires Stale(s, c) && StepServer(s, a).Some?
    ensures Stale(StepServer(s, a).value, c)
  {
  }

  lemma StaleStays(s: Sys, a: Action, c: ClientId)
    requires PhaseInv(s.m, s.op, s.cut) && Stale(s, c) && Step(s, a).Some?
    ensures Stale(Step(s, a).value, c)
  {
    match a
    case Start(b) => StartLeavesStale(s, b, c);
    case Stop(e) => StopLeavesStale(s, e, c);
    case Rotate(r) => RotateLeavesStale(s, r, c);
    case Serve(v) => ServerLeavesStale(s, v, c);
    case Open(o) => OpenLeavesServers(s, o);
    case Visit(v) => ClientLeavesServers(s, v);
    case View(v) =>
  }

  lemma StaleIsOut(s: Sys, c: ClientId)
    requires Inv(s) && Stale(s, c)
    ensures c !in s.m.opening && c !in s.m.active
    ensures forall v :: Step(s, Visit(InputLookup(c, v))) == None
    ensures forall id :: Step(s, Visit(OutputPushed(c, id))) == None
  {
  }

  lemma StaleNext(states: seq<Sys>, acts: seq<Action>, i: nat, c: ClientId)
    requires IsRun(states, acts) && i < |acts| && Stale(states[i], c)
    ensures Stale(states[i + 1], c)
  {
    RunKeepsInv(states, acts, i);
    RunStep(states, acts, i);
    StaleStays(states[i], acts[i], c);
  }

  lemma {:induction false} StaleForever(states: seq<Sys>, acts: seq<Action>, i: nat, j: nat, c: ClientId)
    requires IsRun(states, acts) && i <= j < |states| && Stale(states[i], c)
    ensures Stale(states[j], c)
  {
    if i < j {
      StaleForever(states, acts, i, j - 1, c);
      StaleNext(states, acts, j - 1, c);
    }
  }

  /** From `s` to `t` no server is forgotten, no secret version falls and no admission is rewritten. */
  ghost predicate Grows(s: Sys, t: Sys) {
    && (forall id :: id in s.res.servers ==>
          id in t.res.servers && s.res.servers[id].version <= t.res.servers[id].version)
    && (forall c :: c in s.net.registered ==>
          c in t.net.registered && t.net.registered[c] == s.net.registered[c])
  }

  lemma StartGrows(s: Sys, a: StartStep)
    requires StepStart(s, a).Some?
    ensures Grows(s, StepStart(s, a).value)
  {
  }

  lemma StopGrows(s: Sys, a: StopStep)
    requires StepStop(s, a).Some?
    ensures Grows(s, StepStop(s, a).value)
  {
  }

  lemma StepGrows(s: Sys, a: Action)
    requires Step(s, a).Some?
    ensures Grows(s, Step(s, a).value)
  {
    match a
    case Start(b) => StartGrows(s, b);
    case Stop(e) => StopGrows(s, e);
    case Rotate(r) =>
    case Serve(v) =>
    case Open(o) => OpenLeavesServers(s, o);
    case Visit(v) => ClientLeavesServers(s, v);
    case View(v) =>
  }

  lemma GrowsOn(s: Sys, t: Sys, u: Sys)
    requires Grows(s, t) && Grows(t, u)
    ensures Grows(s, u)
  {
  }

  lemma GrowsNext(states: seq<Sys>, acts: seq<Action>, i: nat)
    requires IsRun(states, acts) && i < |acts|
    ensures Grows(states[i], states[i + 1])
  {
    RunStep(states, acts, i);
    StepGrows(states[i], acts[i]);
  }

  lemma {:induction false} RunGrows(states: seq<Sys>, acts: seq<Action>, i: nat, j: nat)
    requires IsRun(states, acts) && i <= j < |states|
    ensures Grows(states[i], states[j])
  {
    if i < j {
      RunGrows(states, acts, i, j - 1);
      GrowsNext(states, acts, j - 1);
      GrowsOn(states[i], states[j - 1], states[j]);
    }
  }

  /**
   The rotation cut-off. At `cutAt` Rotate advances the secret version; at `left` it has given up
   the manager lock. No client registered with that server before the cut is opening or active
   at any later point of the run, wherever its own Connected and open calls fall; no Input call
   finds a viewer for it and no viewer output is queued for it.
   */
  lemma RotationCutOff(states: seq<Sys>, acts: seq<Action>, cutAt: nat, left: nat, j: nat, c: ClientId)
    requires IsRun(states, acts) && cutAt < left <= j < |states|
    requires acts[cutAt] == Rotate(RotateCut) && states[left].cut == None
    requires c in states[cutAt].net.registered
    requires states[cutAt].m.server == Some(states[cutAt].net.registered[c].server)
    ensures c !in states[j].m.opening && c !in states[j].m.active
    ensures j < |acts| ==> forall v, id :: acts[j] != Visit(InputLookup(c, v)) && acts[j] != Visit(OutputPushed(c, id))
  {
    var id := states[cutAt].net.registered[c].server;
    RunKeepsInv(states, acts, cutAt);
    RunStep(states, acts, cutAt);
    RunGrows(states, acts, cutAt + 1, left);
    assert Stale(states[left], c);
    StaleForever(states, acts, left, j, c);
    RunKeepsInv(states, acts, j);
    StaleIsOut(states[j], c);
    if j < |acts| {
      RunStep(states, acts, j);
    }
  }

  /** In every reachable state the maps are consistent and no running viewer is left without someone to close it. */
  lemma ViewerOwnership(states: seq<Sys>, acts: seq<Action>, i: nat)
    requires IsRun(states, acts) && i < |states|
    ensures var m := states[i].m;
            && m.active.Keys <= m.clients && m.opening.Keys <= m.clients && m.active.Keys !! m.opening.Keys
            && (m.clients != {} ==> m.phase == Ready && !m.shutdown)
    ensures forall v :: v in states[i].calls.viewers && states[i].calls.viewers[v] == Running ==>
                          Held(states[i].m.active, states[i].calls, v)
  {
    RunKeepsInv(states, acts, i);
  }

  /** Everything `start` obtained is owned by a Ready manager or by an operation about to close it, or was closed once. */
  lemma StartConserves(states: seq<Sys>, acts: seq<Action>, i: nat)
    requires IsRun(states, acts) && i < |states|
    ensures var s := states[i];
            && (forall id :: id in s.res.servers ==>
                  s.res.servers[id].closes == (if s.m.server == Some(id) || OpServer(s.op) == Some(id) then 0 else 1))
            && (forall id :: id in s.res.tunnels ==>
                  s.res.tunnels[id].closes == (if s.m.tunnel == Some(id) || OpTunnel(s.op) == Some(id) then 0 else 1))
            && (s.m.phase != Ready ==>
                  s.m.server == None && s.m.tunnel == None && s.m.secret == None
                  && s.m.publicURL == "" && s.m.pairingURL == "" && s.m.qr == "")
  {
    RunKeepsInv(states, acts, i);
  }

  predicate Down(m: Mgr) {
    m.shutdownAsked && m.phase != Ready
  }

  lemma StayDown(s: Sys, a: Action)
    requires Down(s.m) && Step(s, a).Some?
    ensures Down(Step(s, a).value.m)
  {
    match a
    case Start(b) => StartStaysDown(s, b);
    case Stop(e) =>
    case Rotate(r) =>
    case Serve(v) => ServerLeavesManager(s, v);
    case Open(o) => OpenLeavesServers(s, o);
    case Visit(v) => ClientLeavesServers(s, v);
    case View(v) =>
  }

  lemma StartStaysDown(s: Sys, a: StartStep)
    requires Down(s.m) && StepStart(s, a).Some?
    ensures Down(StepStart(s, a).value.m)
  {
  }

  /** Once shutdown was asked, a manager that is not Ready never becomes Ready. */
  lemma {:induction false} ShutdownIsFinal(states: seq<Sys>, acts: seq<Action>, i: nat, j: nat)
    requires IsRun(states, acts) && i <= j < |states|
    requires states[i].m.shutdownAsked && states[i].m.phase != Ready
    ensures states[j].m.shutdownAsked && states[j].m.phase != Ready
  {
    if i < j {
      ShutdownIsFinal(states, acts, i, j - 1);
      RunStep(states, acts, j - 1);
      StayDown(states[j - 1], acts[j - 1]);
    }
  }

  /** Whether opening `id` can still be reserved later. */
  predicate Unreserved(calls: Calls, id: OpenId) {
    id !in calls.issued || (id in calls.opens && calls.opens[id].Preparing?)
  }

  /** The output gate of an opening, once shut after its reservation, never opens again. */
  lemma {:induction false} OutputNeverResumes(states: seq<Sys>, acts: seq<Action>, i: nat, j: nat, c: ClientId, id: OpenId)
    requires IsRun(states, acts) && i <= j < |states|
    requires !Unreserved(states[i].calls, id) && !OutputAllowed(states[i].m, c, id)
    ensures !Unreserved(states[j].calls, id) && !OutputAllowed(states[j].m, c, id)
  {
    if i < j {
      OutputNeverResumes(states, acts, i, j - 1, c, id);
      RunStep(states, acts, j - 1);
      GateStaysShut(states[j - 1], acts[j - 1], c, id);
    }
  }

  lemma OpenLeavesGateShut(s: Sys, a: OpenStep, c: ClientId, id: OpenId)
    requires StepOpen(s, a).Some? && !Unreserved(s.calls, id) && !OutputAllowed(s.m, c, id)
    ensures var t := StepOpen(s, a).value; !Unreserved(t.calls, id) && !OutputAllowed(t.m, c, id)
  {
  }

  lemma ClientLeavesGateShut(s: Sys, a: ClientStep, c: ClientId, id: OpenId)
    requires StepClient(s, a).Some? && !Unreserved(s.calls, id) && !OutputAllowed(s.m, c, id)
    ensures var t := StepClient(s, a).value; !Unreserved(t.calls, id) && !OutputAllowed(t.m, c, id)
  {
  }

  lemma StopLeavesGateShut(s: Sys, a: StopStep, c: ClientId, id: OpenId)
    requires StepStop(s, a).Some? && !Unreserved(s.calls, id) && !OutputAllowed(s.m, c, id)
    ensures var t := StepStop(s, a).value; !Unreserved(t.calls, id) && !OutputAllowed(t.m, c, id)
  {
  }

  lemma GateStaysShut(s: Sys, a: Action, c: ClientId, id: OpenId)
    requires Step(s, a).Some? && !Unreserved(s.calls, id) && !OutputAllowed(s.m, c, id)
    ensures var t := Step(s, a).value; !Unreserved(t.calls, id) && !OutputAllowed(t.m, c, id)
  {
    match a
    case Start(b) => StartLeavesClients(s, b);
    case Stop(e) => StopLeavesGateShut(s, e, c, id);
    case Rotate(r) =>
    case Serve(v) => ServerLeavesManager(s, v);
    case Open(o) => OpenLeavesGateShut(s, o, c, id);
    case Visit(v) => ClientLeavesGateShut(s, v, c, id);
    case View(v) =>
  }
}
