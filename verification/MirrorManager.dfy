/**
 The mirror manager's own state and its critical sections.

 `Mgr` is the value of every field the manager guards with its mutex. Each function on it is
 one locked section of internal/mirror/manager.go; the class `Manager` runs the same section
 on fields, and every method is proved to move the fields exactly as its function says. The
 interleavings of these sections are the subject of module MirrorSystem.
 */
module MirrorManager {
  import opened Options

  type ClientId = nat
  type ServerId = nat
  type TunnelId = nat
  type ViewerId = nat
  type OpenId = nat
  type Secret = nat

  datatype Phase = Stopped | Starting | Ready | Failed

  /** What one `start` obtained: the credential and the strings derived from it. */
  datatype Pairing = Pairing(secret: Secret, publicURL: string, pairingURL: string, qr: string)

  datatype ActiveViewer = ActiveViewer(viewer: ViewerId, opening: OpenId)
  datatype OpeningViewer = OpeningViewer(id: OpenId, viewer: Option<ViewerId>)

  datatype Mgr = Mgr(
    phase: Phase,
    errText: string,
    shutdownAsked: bool,
    shutdown: bool,
    startup: Option<bool>, // the startup in progress, if any, and whether it was cancelled
    server: Option<ServerId>,
    tunnel: Option<TunnelId>,
    secret: Option<Secret>,
    publicURL: string,
    pairingURL: string,
    qr: string,
    clients: set<ClientId>,
    active: map<ClientId, ActiveViewer>,
    opening: map<ClientId, OpeningViewer>)

  const NewMgr := Mgr(Stopped, "", false, false, None, None, None, None, "", "", "", {}, map[], map[])

  /** What `clearLocked` hands to the goroutine that will close it all. */
  datatype Cleanup = Cleanup(server: Option<ServerId>, tunnel: Option<TunnelId>,
                             clients: set<ClientId>, viewers: set<ViewerId>)

  datatype StartVerdict = Refused | AlreadyReady | Proceed
  datatype Reservation = NotConnected | AlreadyOpening | AlreadyOpen | MirrorEnded | QueueRefused | Reserved

  // ----- the critical sections as functions -----

  function BeginStart(m: Mgr): (Mgr, StartVerdict) {
    if m.shutdown || m.shutdownAsked then (m, Refused)
    else if m.phase == Ready then (m, AlreadyReady)
    else (m.(phase := Starting, errText := "", startup := Some(false)), Proceed)
  }

  function CommitStart(m: Mgr, server: ServerId, tunnel: TunnelId, p: Pairing, cancelled: bool): (Mgr, bool) {
    if m.startup == Some(true) || m.shutdownAsked || cancelled then (m.(startup := None), false)
    else (m.(secret := Some(p.secret), server := Some(server), tunnel := Some(tunnel), startup := None,
             publicURL := p.publicURL, pairingURL := p.pairingURL, qr := p.qr, phase := Ready), true)
  }

  function FailStart(m: Mgr, cancelled: bool, message: string): Mgr {
    if cancelled then m.(phase := Stopped, errText := "") else m.(phase := Failed, errText := message)
  }

  function EndStart(m: Mgr): Mgr {
    m.(startup := None)
  }

  function AskShutdown(m: Mgr): Mgr {
    m.(shutdownAsked := true, startup := if m.startup.Some? then Some(true) else None)
  }

  function HeldViewers(active: map<ClientId, ActiveViewer>, opening: map<ClientId, OpeningViewer>): set<ViewerId> {
    (set c | c in active :: active[c].viewer) +
    (set c | c in opening && opening[c].viewer.Some? :: opening[c].viewer.value)
  }

  function Detach(m: Mgr): (Mgr, set<ViewerId>) {
    (m.(active := map[], opening := map[], clients := {}), HeldViewers(m.active, m.opening))
  }

  function Clear(m: Mgr, phase: Phase, errText: string): (Mgr, Cleanup) {
    var (d, viewers) := Detach(m);
    (d.(server := None, tunnel := None, secret := None, publicURL := "", pairingURL := "", qr := "",
        phase := phase, errText := errText),
     Cleanup(m.server, m.tunnel, m.clients, viewers))
  }

  function Shutdown(m: Mgr): (Mgr, Option<Cleanup>) {
    if m.shutdown then (m, None)
    else var (c, cleanup) := Clear(m.(shutdown := true), Stopped, ""); (c, Some(cleanup))
  }

  function TunnelExit(m: Mgr, tunnel: TunnelId, message: string): (Mgr, Option<Cleanup>) {
    if m.tunnel != Some(tunnel) || m.shutdown then (m, None)
    else var (c, cleanup) := Clear(m, Failed, message); (c, Some(cleanup))
  }

  predicate CanRotate(m: Mgr) {
    m.phase == Ready && m.server.Some? && m.tunnel.Some?
  }

  /** The part of Rotate's section after SetSecret has returned. */
  function RotateCommit(m: Mgr, secret: Secret, pairingURL: string, qr: string): (Mgr, set<ViewerId>) {
    Detach(m.(secret := Some(secret), pairingURL := pairingURL, qr := qr))
  }

  function Connect(m: Mgr, c: ClientId): (Mgr, bool) {
    if m.phase != Ready || m.shutdown then (m, false)
    else (m.(clients := m.clients + {c}), true)
  }

  /** `pushed` is the outcome of queueing Ready on the client's own queue, under the lock. */
  function Reserve(m: Mgr, c: ClientId, id: OpenId, pushed: bool): (Mgr, Reservation) {
    if c !in m.clients then (m, NotConnected)
    else if c in m.opening then (m, AlreadyOpening)
    else if c in m.active then (m, AlreadyOpen)
    else if m.phase != Ready || m.shutdown then (m, MirrorEnded)
    else if !pushed then (m, QueueRefused)
    else (m.(opening := m.opening[c := OpeningViewer(id, None)]), Reserved)
  }

  predicate Owns(m: Mgr, c: ClientId, id: OpenId) {
    c in m.opening && m.opening[c].id == id
  }

  function RemoveOpening(m: Mgr, c: ClientId, id: OpenId): Mgr {
    if Owns(m, c, id) then m.(opening := m.opening - {c}) else m
  }

  function Attach(m: Mgr, c: ClientId, id: OpenId, v: ViewerId): (Mgr, bool) {
    if Owns(m, c, id) then (m.(opening := m.opening[c := OpeningViewer(id, Some(v))]), true)
    else (m, false)
  }

  function Activate(m: Mgr, c: ClientId, id: OpenId, v: ViewerId): (Mgr, bool) {
    var r := RemoveOpening(m, c, id);
    if !Owns(m, c, id) || c !in m.clients || c in m.active || m.phase != Ready || m.shutdown then (r, false)
    else (r.(active := r.active[c := ActiveViewer(v, id)]), true)
  }

  function CloseViewer(m: Mgr, c: ClientId): (Mgr, set<ViewerId>) {
    (m.(active := m.active - {c}, opening := m.opening - {c}),
     if c in m.active then {m.active[c].viewer}
     else if c in m.opening && m.opening[c].viewer.Some? then {m.opening[c].viewer.value}
     else {})
  }

  function Disconnect(m: Mgr, c: ClientId): (Mgr, set<ViewerId>) {
    (m.(clients := m.clients - {c}, active := m.active - {c}, opening := m.opening - {c}),
     (if c in m.active then {m.active[c].viewer} else {}) +
     (if c in m.opening && m.opening[c].viewer.Some? then {m.opening[c].viewer.value} else {}))
  }

  function ViewerExit(m: Mgr, c: ClientId, v: ViewerId): (Mgr, bool) {
    if c in m.active && m.active[c].viewer == v then (m.(active := m.active - {c}), true)
    else (m, false)
  }

  function InputViewer(m: Mgr, c: ClientId): Option<ViewerId> {
    if c in m.active then Some(m.active[c].viewer) else None
  }

  /** Whether the output callback of opening `id` may queue bytes for client `c`. */
  predicate OutputAllowed(m: Mgr, c: ClientId, id: OpenId) {
    Owns(m, c, id) || (c in m.active && m.active[c].opening == id)
  }

  // ----- what every section keeps -----

  /** Viewers belong to clients, nobody both opens and has one, and clients exist only while Ready. */
  ghost predicate ClientsInv(m: Mgr) {
    && (m.clients != {} ==> m.phase == Ready)
    && m.active.Keys <= m.clients && m.opening.Keys <= m.clients
    && m.active.Keys !! m.opening.Keys
  }

  /** Ready means complete and not shut down; anything else means cleared. */
  ghost predicate ClearedInv(m: Mgr) {
    && (m.phase == Ready ==> m.server.Some? && m.tunnel.Some? && m.secret.Some? && !m.shutdown)
    && (m.phase != Ready ==> m.server == None && m.tunnel == None && m.secret == None)
    && (m.phase != Ready ==> m.publicURL == "" && m.pairingURL == "" && m.qr == "")
    && (m.shutdown ==> m.shutdownAsked)
  }

  /** The manager holds viewer `v` for client `c`, running or just attached. */
  predicate HasFor(m: Mgr, c: ClientId, v: ViewerId) {
    (c in m.active && m.active[c].viewer == v) || (c in m.opening && m.opening[c].viewer == Some(v))
  }

  ghost predicate Has(m: Mgr, v: ViewerId) {
    exists c :: HasFor(m, c, v)
  }

  /** Everything the manager held is handed to this cleanup. */
  ghost predicate Handed(m: Mgr, cleanup: Cleanup) {
    && cleanup.server == m.server && cleanup.tunnel == m.tunnel && cleanup.clients == m.clients
    && forall v :: v in cleanup.viewers <==> Has(m, v)
  }

  lemma HeldIsHas(m: Mgr)
    ensures forall v :: v in HeldViewers(m.active, m.opening) <==> Has(m, v)
  {
    forall v | Has(m, v) ensures v in HeldViewers(m.active, m.opening) {
      var c :| HasFor(m, c, v);
    }
    forall v | v in HeldViewers(m.active, m.opening) ensures Has(m, v) {
      if c :| c in m.active && m.active[c].viewer == v {
        assert HasFor(m, c, v);
      } else if c :| c in m.opening && m.opening[c].viewer == Some(v) {
        assert HasFor(m, c, v);
      }
    }
  }

  lemma HeldSplit(active: map<ClientId, ActiveViewer>, opening: map<ClientId, OpeningViewer>)
    ensures HeldViewers(active, opening) == HeldViewers(active, map[]) + HeldViewers(map[], opening)
  {
  }

  lemma HeldWithoutActive(active: map<ClientId, ActiveViewer>, c: ClientId)
    requires c in active
    ensures HeldViewers(active, map[]) == HeldViewers(active - {c}, map[]) + {active[c].viewer}
  {
    forall v | v in HeldViewers(active, map[]) && v != active[c].viewer ensures v in HeldViewers(active - {c}, map[]) {
      var d :| d in active && active[d].viewer == v;
      assert d in active - {c};
    }
  }

  lemma Moved<T>(a: set<T>, b: set<T>, c: set<T>)
    ensures a + (b + c) == a + c + b
  {
  }

  lemma HeldWithoutOpening(opening: map<ClientId, OpeningViewer>, c: ClientId)
    requires c in opening
    ensures HeldViewers(map[], opening) ==
            HeldViewers(map[], opening - {c}) +
            (if opening[c].viewer.Some? then {opening[c].viewer.value} else {})
  {
    var rest := opening - {c};
    forall v | v in HeldViewers(map[], opening) && (opening[c].viewer.None? || v != opening[c].viewer.value)
      ensures v in HeldViewers(map[], rest)
    {
      var d :| d in opening && opening[d].viewer.Some? && opening[d].viewer.value == v;
      assert d in rest;
    }
  }

  // ----- the manager object -----

  class Manager {
    var phase: Phase
    var errText: string
    var shutdownAsked: bool
    var shutdown: bool
    var startup: Option<bool>
    var server: Option<ServerId>
    var tunnel: Option<TunnelId>
    var secret: Option<Secret>
    var publicURL: string
    var pairingURL: string
    var qr: string
    var clients: set<ClientId>
    var active: map<ClientId, ActiveViewer>
    var opening: map<ClientId, OpeningViewer>

    ghost function View(): Mgr
      reads this
    {
      Mgr(phase, errText, shutdownAsked, shutdown, startup, server, tunnel, secret, publicURL, pairingURL, qr,
          clients, active, opening)
    }

    ghost predicate Valid()
      reads this
    {
      ClientsInv(View()) && ClearedInv(View())
    }

    constructor ()
      ensures Valid() && View() == NewMgr
    {
      phase, errText, shutdownAsked, shutdown, startup := Stopped, "", false, false, None;
      server, tunnel, secret, publicURL, pairingURL, qr := None, None, None, "", "", "";
      clients, active, opening := {}, map[], map[];
    }

    method Begin() returns (verdict: StartVerdict)
      requires Valid()
      modifies this
      ensures Valid()
      ensures (View(), verdict) == BeginStart(old(View()))
      ensures verdict == Refused <==> old(shutdown || shutdownAsked)
      ensures verdict == AlreadyReady <==> !old(shutdown || shutdownAsked) && old(phase) == Ready
      ensures verdict == Proceed ==> phase == Phase.Starting && errText == "" && startup == Some(false)
      ensures View() == if verdict == Proceed then old(View()).(phase := phase, errText := errText, startup := startup)
                        else old(View())
    {
      if shutdown || shutdownAsked {
        return Refused;
      }
      if phase == Ready {
        return AlreadyReady;
      }
      phase, errText, startup := Starting, "", Some(false);
      verdict := Proceed;
    }

    method Commit(newServer: ServerId, newTunnel: TunnelId, p: Pairing, cancelled: bool) returns (ok: bool)
      requires Valid() && phase == Phase.Starting
      modifies this
      ensures Valid()
      ensures View() == CommitStart(old(View()), newServer, newTunnel, p, cancelled).0
      ensures ok == CommitStart(old(View()), newServer, newTunnel, p, cancelled).1
      ensures ok <==> old(startup) != Some(true) && !shutdownAsked && !cancelled
      ensures ok ==> phase == Ready && server == Some(newServer) && tunnel == Some(newTunnel)
      ensures ok ==> secret == Some(p.secret) && publicURL == p.publicURL && pairingURL == p.pairingURL && qr == p.qr
      ensures !ok ==> phase == Phase.Starting && server.None? && tunnel.None? && secret.None?
      ensures startup.None? && errText == old(errText) && clients == {} && shutdownAsked == old(shutdownAsked)
    {
      if startup == Some(true) || shutdownAsked || cancelled {
        startup := None;
        return false;
      }
      SetPairing(p);
      server, tunnel, startup, phase := Some(newServer), Some(newTunnel), None, Ready;
      ok := true;
    }

    method SetPairing(p: Pairing)
      modifies this`secret, this`publicURL, this`pairingURL, this`qr
      ensures secret == Some(p.secret) && publicURL == p.publicURL && pairingURL == p.pairingURL && qr == p.qr
    {
      secret, publicURL, pairingURL, qr := Some(p.secret), p.publicURL, p.pairingURL, p.qr;
    }

    method Fail(cancelled: bool, message: string)
      requires Valid() && phase == Phase.Starting
      modifies this
      ensures Valid()
      ensures View() == FailStart(old(View()), cancelled, message)
      ensures if cancelled then phase == Stopped && errText == "" else phase == Failed && errText == message
      ensures View() == old(View()).(phase := phase, errText := errText)
    {
      if cancelled {
        phase, errText := Stopped, "";
      } else {
        phase, errText := Failed, message;
      }
    }

    method RequestShutdown()
      requires Valid()
      modifies this
      ensures Valid()
      ensures View() == AskShutdown(old(View()))
      ensures shutdownAsked && (if old(startup).None? then startup.None? else startup == Some(true))
      ensures View() == old(View()).(shutdownAsked := true, startup := startup)
    {
      shutdownAsked := true;
      if startup.Some? {
        startup := Some(true);
      }
    }

    /** Empties both maps and returns every viewer found in them. */
    method DetachClientsLocked() returns (viewers: set<ViewerId>)
      modifies this
      ensures old(Valid()) ==> Valid()
      ensures (View(), viewers) == Detach(old(View()))
      ensures clients == {} && active == map[] && opening == map[]
      ensures forall c :: c in old(active) ==> old(active)[c].viewer in viewers
      ensures forall c :: c in old(opening) && old(opening)[c].viewer.Some? ==> old(opening)[c].viewer.value in viewers
      ensures forall v :: v in viewers ==> Has(old(View()), v)
      ensures View() == old(View()).(clients := {}, active := map[], opening := map[])
    {
      HeldSplit(active, opening);
      HeldIsHas(View());
      var running := DetachActive();
      var starting := DetachOpening();
      viewers := running + starting;
      clients := {};
    }

    method DetachOpening() returns (viewers: set<ViewerId>)
      modifies this`opening
      ensures opening == map[] && viewers == HeldViewers(map[], old(opening))
    {
      viewers := {};
      while opening != map[]
        invariant viewers + HeldViewers(map[], opening) == HeldViewers(map[], old(opening))
        decreases |opening|
      {
        var c :| c in opening;
        HeldWithoutOpening(opening, c);
        var found := if opening[c].viewer.Some? then {opening[c].viewer.value} else {};
        Moved(viewers, HeldViewers(map[], opening - {c}), found);
        viewers := viewers + found;
        opening := opening - {c};
      }
    }

    method DetachActive() returns (viewers: set<ViewerId>)
      modifies this`active
      ensures active == map[] && viewers == HeldViewers(old(active), map[])
    {
      viewers := {};
      while active != map[]
        invariant viewers + HeldViewers(active, map[]) == HeldViewers(old(active), map[])
        decreases |active|
      {
        var c :| c in active;
        HeldWithoutActive(active, c);
        Moved(viewers, HeldViewers(active - {c}, map[]), {active[c].viewer});
        viewers := viewers + {active[c].viewer};
        active := active - {c};
      }
    }

    method ClearLocked(newPhase: Phase, message: string) returns (cleanup: Cleanup)
      requires newPhase != Ready && (shutdown ==> shutdownAsked)
      modifies this
      ensures Valid()
      ensures (View(), cleanup) == Clear(old(View()), newPhase, message)
      ensures phase == newPhase && errText == message && server.None? && tunnel.None? && secret.None?
      ensures cleanup.server == old(server) && cleanup.tunnel == old(tunnel) && cleanup.clients == old(clients)
      ensures forall v :: v in cleanup.viewers <==> Has(old(View()), v)
    {
      var s, t, cs := server, tunnel, clients;
      var viewers := DetachClientsLocked();
      cleanup := Cleanup(s, t, cs, viewers);
      DropResources();
      phase, errText := newPhase, message;
    }

    method DropResources()
      modifies this`server, this`tunnel, this`secret, this`publicURL, this`pairingURL, this`qr
      ensures server == None && tunnel == None && secret == None && publicURL == "" && pairingURL == "" && qr == ""
    {
      server, tunnel, secret, publicURL, pairingURL, qr := None, None, None, "", "", "";
    }

    method ShutdownLocked() returns (cleanup: Option<Cleanup>)
      requires Valid() && shutdownAsked
      modifies this
      ensures Valid()
      ensures (View(), cleanup) == Shutdown(old(View()))
      ensures shutdown && (cleanup.None? <==> old(shutdown)) && (cleanup.None? ==> View() == old(View()))
      ensures cleanup.Some? ==> phase == Stopped && errText == "" && Handed(old(View()), cleanup.value)
    {
      if shutdown {
        return None;
      }
      HeldIsHas(View());
      shutdown := true;
      HeldIsHas(View());
      var c := ClearLocked(Stopped, "");
      cleanup := Some(c);
    }

    method TunnelExited(exited: TunnelId, message: string) returns (cleanup: Option<Cleanup>)
      requires Valid()
      modifies this
      ensures Valid()
      ensures (View(), cleanup) == TunnelExit(old(View()), exited, message)
      ensures cleanup.Some? <==> old(tunnel) == Some(exited) && !old(shutdown)
      ensures cleanup.Some? ==> phase == Failed && errText == message && Handed(old(View()), cleanup.value)
      ensures cleanup.None? ==> View() == old(View())
    {
      if tunnel != Some(exited) || shutdown {
        return None;
      }
      var c := ClearLocked(Failed, message);
      cleanup := Some(c);
    }

    method CommitRotation(newSecret: Secret, newURL: string, newQR: string) returns (viewers: set<ViewerId>)
      requires Valid() && CanRotate(View())
      modifies this
      ensures Valid()
      ensures (View(), viewers) == RotateCommit(old(View()), newSecret, newURL, newQR)
      ensures secret == Some(newSecret) && pairingURL == newURL && qr == newQR
      ensures clients == {} && active == map[] && opening == map[]
      ensures server == old(server) && tunnel == old(tunnel) && publicURL == old(publicURL) && phase == Ready
      ensures forall v :: v in viewers <==> Has(old(View()), v)
    {
      HeldIsHas(View());
      secret, pairingURL, qr := Some(newSecret), newURL, newQR;
      HeldIsHas(View());
      viewers := DetachClientsLocked();
    }

    method Connected(c: ClientId) returns (ok: bool)
      requires Valid()
      modifies this
      ensures Valid()
      ensures (View(), ok) == Connect(old(View()), c)
      ensures ok <==> phase == Ready && !shutdown
      ensures View() == if ok then old(View()).(clients := old(clients) + {c}) else old(View())
    {
      if phase != Ready || shutdown {
        return false;
      }
      clients := clients + {c};
      ok := true;
    }

    /** The first locked section of `open`: reserve, then queue Ready, undoing the reservation if that fails. */
    method ReserveOpening(c: ClientId, id: OpenId, pushed: bool) returns (r: Reservation)
      requires Valid()
      modifies this
      ensures Valid()
      ensures (View(), r) == Reserve(old(View()), c, id, pushed)
      ensures r == NotConnected <==> c !in clients
      ensures c in clients ==> (r == AlreadyOpening <==> old(c in opening)) && (r == AlreadyOpen <==> old(c in active))
      ensures c in clients && old(c !in opening && c !in active) && !shutdown ==> r == if pushed then Reserved else QueueRefused
      ensures View() == if r == Reserved then old(View()).(opening := old(opening)[c := OpeningViewer(id, None)])
                        else old(View())
    {
      if c !in clients || c in active || c in opening {
        return if c !in clients then NotConnected else if c in opening then AlreadyOpening else AlreadyOpen;
      }
      if phase != Ready || shutdown {
        return MirrorEnded;
      }
      opening := opening[c := OpeningViewer(id, None)];
      if !pushed {
        opening := opening - {c};
        assert opening == old(opening);
        return QueueRefused;
      }
      r := Reserved;
    }

    method RemoveOpeningEntry(c: ClientId, id: OpenId)
      requires Valid()
      modifies this
      ensures Valid()
      ensures View() == RemoveOpening(old(View()), c, id)
      ensures c in opening <==> old(c in opening && opening[c].id != id)
      ensures opening - {c} == old(opening) - {c} && View() == old(View()).(opening := opening)
    {
      if c in opening && opening[c].id == id {
        opening := opening - {c};
      }
    }

    method AttachViewer(c: ClientId, id: OpenId, v: ViewerId) returns (ok: bool)
      requires Valid()
      modifies this
      ensures Valid()
      ensures (View(), ok) == Attach(old(View()), c, id, v)
      ensures ok <==> old(c in opening && opening[c].id == id)
      ensures View() == if ok then old(View()).(opening := old(opening)[c := OpeningViewer(id, Some(v))]) else old(View())
    {
      if c !in opening || opening[c].id != id {
        return false;
      }
      opening := opening[c := OpeningViewer(id, Some(v))];
      ok := true;
    }

    method ActivateViewer(c: ClientId, id: OpenId, v: ViewerId) returns (ok: bool)
      requires Valid()
      modifies this
      ensures Valid()
      ensures (View(), ok) == Activate(old(View()), c, id, v)
      ensures ok <==> old(c in opening && opening[c].id == id) && !shutdown
      ensures active == if ok then old(active)[c := ActiveViewer(v, id)] else old(active)
      ensures c in opening <==> old(c in opening && opening[c].id != id)
      ensures opening - {c} == old(opening) - {c} && View() == old(View()).(opening := opening, active := active)
    {
      var reserved := c in opening && opening[c].id == id;
      if reserved {
        opening := opening - {c};
      }
      if !reserved || c !in clients || c in active || phase != Ready || shutdown {
        return false;
      }
      active := active[c := ActiveViewer(v, id)];
      ok := true;
    }

    method CloseClient(c: ClientId) returns (toClose: set<ViewerId>)
      requires Valid()
      modifies this
      ensures Valid()
      ensures (View(), toClose) == CloseViewer(old(View()), c)
      ensures View() == old(View()).(active := old(active) - {c}, opening := old(opening) - {c})
      ensures forall v :: v in toClose <==> HasFor(old(View()), c, v)
    {
      var wasActive := if c in active then Some(active[c].viewer) else None;
      var wasOpening := if c in opening then opening[c].viewer else None;
      active := active - {c};
      opening := opening - {c};
      toClose := if wasActive.Some? then {wasActive.value}
                 else if wasOpening.Some? then {wasOpening.value} else {};
    }

    method Disconnected(c: ClientId) returns (toClose: set<ViewerId>)
      requires Valid()
      modifies this
      ensures Valid()
      ensures (View(), toClose) == Disconnect(old(View()), c)
      ensures View() == old(View()).(clients := old(clients) - {c}, active := old(active) - {c}, opening := old(opening) - {c})
      ensures forall v :: v in toClose <==> HasFor(old(View()), c, v)
    {
      clients := clients - {c};
      var wasActive := if c in active then {active[c].viewer} else {};
      var wasOpening := if c in opening && opening[c].viewer.Some? then {opening[c].viewer.value} else {};
      active := active - {c};
      opening := opening - {c};
      toClose := wasActive + wasOpening;
    }

    method ViewerExited(c: ClientId, v: ViewerId) returns (current: bool)
      requires Valid()
      modifies this
      ensures Valid()
      ensures (View(), current) == ViewerExit(old(View()), c, v)
      ensures current <==> old(c in active && active[c].viewer == v)
      ensures View() == if current then old(View()).(active := old(active) - {c}) else old(View())
    {
      if c !in active || active[c].viewer != v {
        return false;
      }
      active := active - {c};
      current := true;
    }
  }
}
