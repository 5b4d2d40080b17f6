/**
 The page's promise chains, sockets and timer as a machine. Every continuation of a receive or send
 chain, every socket event, the reconnect timer and every user action is a step, in any order; pending
 work of replaced connections keeps running.
 */
module BrowserConnection {
  import opened Options
  import opened BrowserPage

  datatype Chain =
    | Receive // the next message enters receiveMessage
    | Derived(ok: bool)
    | Drained(mounts: bool) // the send chain was empty
    | Decrypted(frame: Option<Frame>)
    | SendNext
    | Encrypted(ok: bool)

  datatype Action =
    | Begin
    | Reconnecting // the user, or a stale page becoming visible or online
    | Timer
    | Type // any input: a frame is queued
    | EndIt
    | Opens(c: Conn)
    | Arrives(c: Conn, m: Message)
    | Closes(c: Conn, rejected: bool)
    | Continue(c: Conn, chain: Chain)

  /** What a continuation does to its connection `x`, and then to the page. */
  datatype Turn =
    | Sets(x: Connection)
    | Throws(x: Connection) // the chain's catch poisons the connection
    | Greets(x: Connection, mounts: bool)
    | Delivers(x: Connection, frame: Frame)

  /** `live`: the connection is the current one and not poisoned, as the continuation sees it. */
  function TurnOf(x: Connection, live: bool, chain: Chain): Option<Turn> {
    match chain
    case Receive =>
      if !x.wait.Nothing? || x.inbox == [] then None
      else
        var (m, y) := (x.inbox[0], x.(inbox := x.inbox[1..]));
        Some(if x.poisoned || m.Text? || (!x.keyed && !m.Nonce?) then Throws(y)
             else Sets(y.(wait := if x.keyed then Decryption else SendKey)))
    case Derived(ok) =>
      if !x.wait.SendKey? && !x.wait.ReceiveKey? then None
      else Some(if !ok then Throws(x.(wait := Nothing))
                else if x.wait.SendKey? then Sets(x.(keyed := true, wait := ReceiveKey))
                else Sets(x.(wait := if live then SendChain else Nothing)))
    case Drained(mounts) =>
      if !x.wait.SendChain? then None
      else Some(if live then Greets(x.(wait := Nothing), mounts) else Sets(x.(wait := Nothing)))
    case Decrypted(f) =>
      if !x.wait.Decryption? then None
      else
        var y := x.(wait := Nothing);
        Some(if f.None? then Throws(y)
             else if !live then Sets(y)
             else Delivers(y.(receiveCounter := y.receiveCounter + 1), f.value))
    case SendNext =>
      if x.queued == 0 || x.sealing.Some? then None
      else Some(Sets(x.(queued := x.queued - 1, sealing := if x.poisoned then None else Some(x.sendCounter))))
    case Encrypted(ok) => // sending on a socket that is closing or closed discards the frame
      if x.sealing.None? || (ok && !x.keyed) then None
      else
        var y := x.(sealing := None);
        Some(if !ok then Throws(y)
             else Sets(y.(sendCounter := x.sendCounter + 1,
                          wire := if x.socket.Open? then x.wire + [x.sealing.value] else x.wire)))
  }

  predicate IsLive(p: Page, c: Conn)
    requires c in p.conns
  {
    p.current == Some(c) && !p.conns[c].poisoned
  }

  function Take(p: Page, c: Conn, t: Turn): Page
    requires c in p.conns && (t.Greets? ==> p.current == Some(c))
  {
    match t
    case Sets(x) => Set(p, c, x)
    case Throws(x) => Poison(Set(p, c, x), c)
    case Greets(x, mounts) => Greet(Set(p, c, x), c, mounts)
    case Delivers(x, f) => Dispatch(Set(p, c, x), c, f)
  }

  function StepChain(p: Page, c: Conn, chain: Chain): Option<Page>
    requires c in p.conns
  {
    var t := TurnOf(p.conns[c], IsLive(p, c), chain);
    if t.None? then None else Some(Take(p, c, t.value))
  }

  function StepSocket(p: Page, a: Action): Option<Page> {
    match a
    case Opens(c) =>
      if c !in p.conns || !p.conns[c].socket.Connecting? then None else Some(Set(p, c, p.conns[c].(socket := Open)))
    case Arrives(c, m) =>
      if c !in p.conns || p.conns[c].socket.Connecting? || p.conns[c].socket.Closed? then None
      else Some(Set(p, c, p.conns[c].(inbox := p.conns[c].inbox + [m])))
    case Closes(c, rejected) =>
      if c !in p.conns || p.conns[c].socket.Closed? then None else Some(SocketCloses(p, c, rejected))
    case _ => None
  }

  predicate Sane(p: Page) {
    p.current.Some? ==> p.current.value in p.conns
  }

  function StepPage(p: Page, a: Action): Option<Page>
    requires Sane(p)
  {
    match a
    case Begin => if p.next != 0 then None else Some(Connect(p))
    case Reconnecting => Some(ReconnectNow(p))
    case Timer => if !p.timer then None else Some(TimerFires(p))
    case Type => Some(QueueFrame(p))
    case EndIt => Some(CloseSession(p))
    case _ => None
  }

  function Step(p: Page, a: Action): Option<Page> {
    if !Sane(p) then None
    else match a
      case Continue(c, chain) => if c !in p.conns then None else StepChain(p, c, chain)
      case Opens(_) => StepSocket(p, a)
      case Arrives(_, _) => StepSocket(p, a)
      case Closes(_, _) => StepSocket(p, a)
      case _ => StepPage(p, a)
  }

  ghost predicate IsRun(ps: seq<Page>, acts: seq<Action>, secret: bool) {
    && |ps| == |acts| + 1 && ps[0] == Loaded(secret)
    && forall i {:trigger acts[i]} :: 0 <= i < |acts| ==> Step(ps[i], acts[i]) == Some(ps[i + 1])
  }

  // ----- invariants -----

  /** The frames on the wire bear 0, 1, 2, ...; on an open healthy connection none was lost. */
  predicate InWireOrder(x: Connection) {
    && |x.wire| <= x.sendCounter && (forall i :: 0 <= i < |x.wire| ==> x.wire[i] == i)
    && (x.sealing.Some? ==> x.sealing.value == x.sendCounter)
    && (x.socket.Open? || x.socket.Connecting? ==> |x.wire| == x.sendCounter)
    && (x.socket.Connecting? ==> x.queued == 0 && x.sealing.None?)
  }

  ghost predicate Inv(p: Page) {
    PageInv(p) && (forall c :: c in p.conns ==> InWireOrder(p.conns[c]))
  }

  lemma SetKeeps(p: Page, c: Conn, x: Connection)
    requires Inv(p) && c in p.conns && InWireOrder(x)
    requires x.authenticated == p.conns[c].authenticated && x.superseded == p.conns[c].superseded
    ensures Inv(Set(p, c, x))
  {
  }

  lemma ConnectKeeps(p: Page)
    requires Inv(p) && !p.timer && p.current.None?
    ensures Inv(Connect(p))
  {
  }

  lemma ReconnectKeeps(p: Page)
    requires Inv(p)
    ensures Inv(ReconnectNow(p))
  {
    var q := p.(timer := false, current := None, viewer := false, closing := false, geometry := false);
    assert Inv(q);
    ConnectKeeps(q);
    if p.current.Some? {
      var x := Hangup(p.conns[p.current.value].(superseded := true));
      assert InWireOrder(x);
      assert Inv(Set(q, p.current.value, x));
      ConnectKeeps(Set(q, p.current.value, x));
    }
  }

  lemma ClosesKeeps(p: Page, c: Conn, rejected: bool)
    requires Inv(p) && c in p.conns
    ensures Inv(SocketCloses(p, c, rejected))
  {
    SetKeeps(p, c, p.conns[c].(socket := Closed));
  }

  lemma PoisonKeeps(p: Page, c: Conn)
    requires Inv(p) && c in p.conns
    ensures Inv(Poison(p, c))
  {
    SetKeeps(p, c, Hangup(p.conns[c].(poisoned := true)));
  }

  lemma FrameKeeps(p: Page)
    requires Inv(p)
    ensures Inv(QueueFrame(p))
  {
    if p.current.Some? && p.conns[p.current.value].socket.Open? {
      var x := p.conns[p.current.value];
      SetKeeps(p, p.current.value, x.(queued := x.queued + 1));
    }
  }

  lemma QueueKeeps(p: Page)
    requires Inv(p)
    ensures Inv(QueueFrame(p)) && Inv(CloseSession(p))
  {
    FrameKeeps(p);
    if p.current.Some? && p.conns[p.current.value].authenticated {
      FrameKeeps(p.(viewer := false, closing := true, geometry := false));
    }
  }

  lemma ProblemKeeps(p: Page, c: Conn, final: bool, readable: bool)
    requires Inv(p) && c in p.conns && p.current == Some(c)
    ensures Inv(Dispatch(p, c, Problem(final, readable)))
  {
    var q := p.(viewer := false, closing := false, geometry := false, stopped := p.stopped || final);
    assert Inv(q);
    PoisonKeeps(q, c);
    SetKeeps(q, c, Hangup(q.conns[c]));
  }

  lemma ReadyKeeps(p: Page, c: Conn, valid: bool)
    requires Inv(p) && c in p.conns && p.current == Some(c)
    ensures Inv(Dispatch(p, c, Ready(valid)))
  {
    PoisonKeeps(p, c);
  }

  lemma DispatchKeeps(p: Page, c: Conn, f: Frame)
    requires Inv(p) && c in p.conns && p.current == Some(c)
    ensures Inv(Dispatch(p, c, f))
  {
    match f
    case Problem(final, readable) => ProblemKeeps(p, c, final, readable);
    case Ready(valid) => ReadyKeeps(p, c, valid);
    case Shutdown(_) => SetKeeps(p, c, Hangup(p.conns[c]));
    case _ => PoisonKeeps(p, c);
  }

  predicate SameFlags(x: Connection, y: Connection) {
    y.authenticated == x.authenticated && y.superseded == x.superseded && y.poisoned == x.poisoned
  }

  /** A chain step that throws. */
  predicate Fails(x: Connection, chain: Chain) {
    match chain
    case Receive => x.inbox != [] && (x.inbox[0].Text? || (!x.keyed && !x.inbox[0].Nonce?))
    case Derived(ok) => !ok
    case Drained(_) => false
    case Decrypted(f) => f.None?
    case SendNext => false
    case Encrypted(ok) => !ok
  }

  lemma TurnFlags(x: Connection, live: bool, chain: Chain)
    requires TurnOf(x, live, chain).Some?
    ensures SameFlags(x, TurnOf(x, live, chain).value.x)
  {
  }

  lemma TurnOrder(x: Connection, live: bool, chain: Chain)
    requires TurnOf(x, live, chain).Some? && InWireOrder(x)
    ensures InWireOrder(TurnOf(x, live, chain).value.x)
  {
  }

  lemma TurnKind(x: Connection, live: bool, chain: Chain)
    requires TurnOf(x, live, chain).Some?
    ensures var t := TurnOf(x, live, chain).value;
            && (t.Greets? || t.Delivers? ==> live)
            && (!x.poisoned ==> (t.Throws? <==> Fails(x, chain)))
  {
  }

  lemma TurnFacts(x: Connection, live: bool, chain: Chain)
    requires TurnOf(x, live, chain).Some?
    ensures var t := TurnOf(x, live, chain).value;
            && SameFlags(x, t.x) && (InWireOrder(x) ==> InWireOrder(t.x))
            && (t.Greets? || t.Delivers? ==> live)
            && (!x.poisoned ==> (t.Throws? <==> Fails(x, chain)))
  {
    TurnFlags(x, live, chain);
    TurnKind(x, live, chain);
    if InWireOrder(x) {
      TurnOrder(x, live, chain);
    }
  }

  lemma TakeKeeps(p: Page, c: Conn, t: Turn)
    requires Inv(p) && c in p.conns && (t.Greets? || t.Delivers? ==> p.current == Some(c))
    requires SameFlags(p.conns[c], t.x) && InWireOrder(t.x)
    ensures Inv(Take(p, c, t))
  {
    SetKeeps(p, c, t.x);
    match t
    case Sets(_) =>
    case Throws(x) => PoisonKeeps(Set(p, c, x), c);
    case Greets(x, _) => QueueKeeps(Set(p, c, x));
    case Delivers(x, f) => DispatchKeeps(Set(p, c, x), c, f);
  }

  lemma ChainKeeps(p: Page, c: Conn, chain: Chain)
    requires Inv(p) && c in p.conns && StepChain(p, c, chain).Some?
    ensures Inv(StepChain(p, c, chain).value)
  {
    TurnFacts(p.conns[c], IsLive(p, c), chain);
    TakeKeeps(p, c, TurnOf(p.conns[c], IsLive(p, c), chain).value);
  }

  lemma StepKeepsInv(p: Page, a: Action)
    requires Inv(p) && Step(p, a).Some?
    ensures Inv(Step(p, a).value)
  {
    match a
    case Begin => ConnectKeeps(p);
    case Reconnecting => ReconnectKeeps(p);
    case Timer => ConnectKeeps(p.(timer := false));
    case Type => QueueKeeps(p);
    case EndIt => QueueKeeps(p);
    case Opens(c) => SetKeeps(p, c, p.conns[c].(socket := Open));
    case Arrives(c, m) => SetKeeps(p, c, p.conns[c].(inbox := p.conns[c].inbox + [m]));
    case Closes(c, rejected) => ClosesKeeps(p, c, rejected);
    case Continue(c, chain) => ChainKeeps(p, c, chain);
  }

  lemma RunStep(ps: seq<Page>, acts: seq<Action>, secret: bool, i: nat)
    requires IsRun(ps, acts, secret) && i < |acts|
    ensures Step(ps[i], acts[i]) == Some(ps[i + 1])
  {
  }

  lemma {:induction false} RunKeepsInv(ps: seq<Page>, acts: seq<Action>, secret: bool, i: nat)
    requires IsRun(ps, acts, secret) && i < |ps|
    ensures Inv(ps[i])
  {
    if i > 0 {
      RunKeepsInv(ps, acts, secret, i - 1);
      RunStep(ps, acts, secret, i - 1);
      StepKeepsInv(ps[i - 1], acts[i - 1]);
    }
  }

  // ----- results -----

  /** While a reconnect is pending there is no connection, no viewer and nothing waiting to close. */
  lemma PendingMeansOffline(ps: seq<Page>, acts: seq<Action>, secret: bool, i: nat)
    requires IsRun(ps, acts, secret) && i < |ps|
    ensures ps[i].timer ==> ps[i].current.None? && !ps[i].viewer && !ps[i].closing
    ensures ps[i].viewer ==> ps[i].current.Some? && ps[i].current.value in ps[i].conns && ps[i].conns[ps[i].current.value].authenticated
  {
    RunKeepsInv(ps, acts, secret, i);
  }

  /** No socket more or fewer, and neither stopping nor forgetting is undone. */
  predicate Settled(p: Page, q: Page) {
    q.conns.Keys == p.conns.Keys && (p.stopped ==> q.stopped) && (q.secret ==> p.secret)
  }

  lemma PoisonSettles(p: Page, c: Conn)
    requires c in p.conns
    ensures Settled(p, Poison(p, c))
  {
  }

  lemma QueueSettles(p: Page)
    requires Sane(p)
    ensures Settled(p, QueueFrame(p))
  {
  }

  lemma SetSettles(p: Page, c: Conn, x: Connection)
    requires c in p.conns
    ensures Settled(p, Set(p, c, x))
  {
  }

  lemma DispatchSettles(p: Page, c: Conn, f: Frame)
    requires c in p.conns
    ensures Settled(p, Dispatch(p, c, f))
  {
    match f
    case Ready(_) =>
      PoisonSettles(p, c);
      SetSettles(p, c, p.conns[c].(authenticated := true));
    case Problem(final, _) =>
      SetSettles(p, c, Hangup(p.conns[c]));
      PoisonSettles(p.(viewer := false, closing := false, geometry := false, stopped := p.stopped || final), c);
    case Shutdown(_) => SetSettles(p, c, Hangup(p.conns[c]));
    case _ => PoisonSettles(p, c);
  }

  lemma TakeSettles(p: Page, c: Conn, t: Turn)
    requires c in p.conns && (t.Greets? ==> p.current == Some(c))
    ensures Settled(p, Take(p, c, t))
  {
    var q := Set(p, c, t.x);
    assert Settled(p, q);
    match t
    case Sets(_) =>
    case Throws(_) => PoisonSettles(q, c);
    case Greets(_, _) => QueueSettles(q);
    case Delivers(_, f) => DispatchSettles(q, c, f);
  }

  lemma StepDialsNoMore(p: Page, a: Action)
    requires Step(p, a).Some? && (p.stopped || !p.secret)
    ensures Settled(p, Step(p, a).value)
  {
    if a.Continue? {
      TurnFacts(p.conns[a.c], IsLive(p, a.c), a.chain);
      TakeSettles(p, a.c, TurnOf(p.conns[a.c], IsLive(p, a.c), a.chain).value);
    } else if a.Type? || a.EndIt? {
      QueueSettles(p);
    }
  }

  /** Once the page has stopped, or forgotten its secret, it opens no socket ever again. */
  lemma {:induction false} StoppedForGood(ps: seq<Page>, acts: seq<Action>, secret: bool, i: nat, j: nat)
    requires IsRun(ps, acts, secret) && i <= j < |ps| && (ps[i].stopped || !ps[i].secret)
    ensures Settled(ps[i], ps[j])
  {
    if i < j {
      StoppedForGood(ps, acts, secret, i, j - 1);
      RunStep(ps, acts, secret, j - 1);
      StepDialsNoMore(ps[j - 1], acts[j - 1]);
    }
  }

  /** What the user sees and what decides about reconnecting. */
  predicate SameView(p: Page, q: Page) {
    && q.current == p.current && q.viewer == p.viewer && q.closing == p.closing && q.geometry == p.geometry
    && q.screen == p.screen && q.timer == p.timer && q.secret == p.secret && q.next == p.next
  }

  predicate Inert(p: Page, q: Page, c: Conn) {
    SameView(p, q) && forall d :: d in p.conns && d != c ==> d in q.conns && q.conns[d] == p.conns[d]
  }

  lemma TakeIsInert(p: Page, c: Conn, t: Turn)
    requires c in p.conns && !t.Greets? && !t.Delivers? && SameFlags(p.conns[c], t.x)
    ensures var q := Take(p, c, t);
            Inert(p, q, c) && (q.stopped <==> p.stopped || (t.Throws? && !p.conns[c].poisoned && !p.conns[c].superseded))
  {
  }

  /**
   A continuation of a connection that is not the current one changes nothing the user sees and no other
   connection. It stops the page exactly when it throws on a connection that was neither poisoned before
   nor replaced by a reconnect: one whose socket closed by itself.
   */
  lemma ReplacedIsInert(p: Page, c: Conn, chain: Chain)
    requires c in p.conns && p.current != Some(c) && Step(p, Continue(c, chain)).Some?
    ensures var q := Step(p, Continue(c, chain)).value;
            && Inert(p, q, c)
            && (q.stopped <==> p.stopped || (Fails(p.conns[c], chain) && !p.conns[c].poisoned && !p.conns[c].superseded))
  {
    TurnFacts(p.conns[c], false, chain);
    TakeIsInert(p, c, TurnOf(p.conns[c], false, chain).value);
  }

  // ----- replaced connections -----

  predicate Replaced(p: Page, c: Conn) {
    c in p.conns && p.conns[c].superseded
  }

  lemma PoisonReplaced(p: Page, d: Conn, c: Conn)
    requires Replaced(p, c) && d in p.conns
    ensures Replaced(Poison(p, d), c)
  {
  }

  lemma SetReplaced(p: Page, d: Conn, x: Connection, c: Conn)
    requires Replaced(p, c) && d in p.conns && x.superseded == p.conns[d].superseded
    ensures Replaced(Set(p, d, x), c)
  {
  }

  lemma DispatchReplaced(p: Page, d: Conn, f: Frame, c: Conn)
    requires Replaced(p, c) && d in p.conns
    ensures Replaced(Dispatch(p, d, f), c)
  {
    match f
    case Ready(_) =>
      PoisonReplaced(p, d, c);
      SetReplaced(p, d, p.conns[d].(authenticated := true), c);
    case Problem(final, _) =>
      SetReplaced(p, d, Hangup(p.conns[d]), c);
      PoisonReplaced(p.(viewer := false, closing := false, geometry := false, stopped := p.stopped || final), d, c);
    case Shutdown(_) => SetReplaced(p, d, Hangup(p.conns[d]), c);
    case _ => PoisonReplaced(p, d, c);
  }

  lemma QueueReplaced(p: Page, c: Conn)
    requires Replaced(p, c) && Sane(p)
    ensures Replaced(QueueFrame(p), c) && Replaced(CloseSession(p), c)
  {
  }

  lemma TakeReplaced(p: Page, d: Conn, t: Turn, c: Conn)
    requires Replaced(p, c) && d in p.conns && (t.Greets? ==> p.current == Some(d)) && SameFlags(p.conns[d], t.x)
    ensures Replaced(Take(p, d, t), c)
  {
    SetReplaced(p, d, t.x, c);
    var q := Set(p, d, t.x);
    match t
    case Sets(_) =>
    case Throws(_) => PoisonReplaced(q, d, c);
    case Greets(_, _) => QueueReplaced(q, c);
    case Delivers(_, f) => DispatchReplaced(q, d, f, c);
  }

  lemma DialReplaced(p: Page, c: Conn)
    requires Replaced(p, c) && c < p.next && Sane(p)
    ensures Replaced(Connect(p), c) && Replaced(TimerFires(p), c) && Replaced(ReconnectNow(p), c)
  {
  }

  lemma ReplacedStays(p: Page, a: Action, q: Page, c: Conn)
    requires Inv(p) && Replaced(p, c) && Step(p, a) == Some(q)
    ensures Replaced(q, c)
  {
    match a
    case Continue(d, chain) =>
      TurnFacts(p.conns[d], IsLive(p, d), chain);
      TakeReplaced(p, d, TurnOf(p.conns[d], IsLive(p, d), chain).value, c);
    case Type => QueueReplaced(p, c);
    case EndIt => QueueReplaced(p, c);
    case Opens(_) =>
    case Arrives(_, _) =>
    case Closes(d, _) => SetReplaced(p, d, p.conns[d].(socket := Closed), c);
    case _ => DialReplaced(p, c);
  }

  lemma ReplacedNext(ps: seq<Page>, acts: seq<Action>, secret: bool, i: nat, c: Conn)
    requires IsRun(ps, acts, secret) && i < |acts| && Replaced(ps[i], c)
    ensures Replaced(ps[i + 1], c)
  {
    RunKeepsInv(ps, acts, secret, i);
    RunStep(ps, acts, secret, i);
    ReplacedStays(ps[i], acts[i], ps[i + 1], c);
  }

  lemma {:induction false} ReplacedForever(ps: seq<Page>, acts: seq<Action>, secret: bool, i: nat, j: nat, c: Conn)
    requires IsRun(ps, acts, secret) && i <= j < |ps| && Replaced(ps[i], c)
    ensures Replaced(ps[j], c)
  {
    if i < j {
      ReplacedForever(ps, acts, secret, i, j - 1, c);
      ReplacedNext(ps, acts, secret, j - 1, c);
    }
  }

  /**
   From the moment a reconnect replaces a connection it is never current again, and none of its pending
   continuations ever changes what the user sees or stops the page.
   */
  lemma SupersededIsOver(ps: seq<Page>, acts: seq<Action>, secret: bool, i: nat, j: nat, c: Conn)
    requires IsRun(ps, acts, secret) && i <= j < |ps| && Replaced(ps[i], c)
    ensures Replaced(ps[j], c) && ps[j].current != Some(c)
    ensures j < |acts| && acts[j].Continue? && acts[j].c == c ==>
              SameView(ps[j], ps[j + 1]) && ps[j + 1].stopped == ps[j].stopped
  {
    ReplacedForever(ps, acts, secret, i, j, c);
    RunKeepsInv(ps, acts, secret, j);
    if j < |acts| && acts[j].Continue? && acts[j].c == c {
      RunStep(ps, acts, secret, j);
      ReplacedIsInert(ps[j], c, acts[j].chain);
    }
  }

  lemma PoisonScreen(p: Page, c: Conn)
    requires c in p.conns
    ensures Poison(p, c).screen == p.screen
  {
  }

  lemma QueueScreen(p: Page)
    requires Sane(p)
    ensures QueueFrame(p).screen == p.screen
  {
  }

  lemma ReadyScreen(p: Page, c: Conn, valid: bool)
    requires c in p.conns
    ensures var q := Dispatch(p, c, Ready(valid)); q.screen == p.screen || q.screen == p.screen + [c]
  {
    PoisonScreen(p, c);
  }

  lemma OutputScreen(p: Page, c: Conn)
    requires c in p.conns
    ensures var q := Dispatch(p, c, Output); q.screen == p.screen || q.screen == p.screen + [c]
  {
    PoisonScreen(p, c);
  }

  lemma AckScreen(p: Page, c: Conn, empty: bool)
    requires c in p.conns
    ensures Dispatch(p, c, CloseAck(empty)).screen == p.screen
  {
    PoisonScreen(p, c);
  }

  lemma DispatchScreen(p: Page, c: Conn, f: Frame)
    requires c in p.conns
    ensures Dispatch(p, c, f).screen == p.screen || Dispatch(p, c, f).screen == p.screen + [c]
  {
    match f
    case CloseAck(empty) => AckScreen(p, c, empty);
    case Ready(valid) => ReadyScreen(p, c, valid);
    case Output => OutputScreen(p, c);
    case Malformed => PoisonScreen(p, c);
    case _ =>
  }

  lemma TakeScreen(p: Page, c: Conn, t: Turn)
    requires c in p.conns && (t.Greets? ==> p.current == Some(c))
    ensures Take(p, c, t).screen == p.screen || (Take(p, c, t).screen == p.screen + [c] && (t.Greets? || t.Delivers?))
  {
    var q := Set(p, c, t.x);
    assert q.screen == p.screen;
    match t
    case Sets(_) =>
    case Throws(_) => PoisonScreen(q, c);
    case Greets(_, _) => QueueScreen(q);
    case Delivers(_, f) => DispatchScreen(q, c, f);
  }

  lemma ReconnectScreen(p: Page)
    requires Sane(p)
    ensures Connect(p).screen == p.screen && TimerFires(p).screen == p.screen && ReconnectNow(p).screen == p.screen
  {
  }

  lemma ClosesScreen(p: Page, c: Conn, rejected: bool)
    requires c in p.conns
    ensures SocketCloses(p, c, rejected).screen == p.screen
  {
  }

  lemma PageKeepsScreen(p: Page, a: Action)
    requires Step(p, a).Some? && !a.Continue?
    ensures Step(p, a).value.screen == p.screen
  {
    match a
    case Closes(c, rejected) => ClosesScreen(p, c, rejected);
    case Opens(_) =>
    case Arrives(_, _) =>
    case Type => QueueScreen(p);
    case EndIt => QueueScreen(p.(viewer := false, closing := true, geometry := false));
    case _ => ReconnectScreen(p);
  }

  /** Only the current, healthy connection ever touches the terminal. */
  lemma ScreenIsCurrent(ps: seq<Page>, acts: seq<Action>, secret: bool, i: nat)
    requires IsRun(ps, acts, secret) && i < |acts| && ps[i + 1].screen != ps[i].screen
    ensures acts[i].Continue? && ps[i].current == Some(acts[i].c)
    ensures acts[i].c in ps[i].conns && !ps[i].conns[acts[i].c].poisoned && ps[i + 1].screen == ps[i].screen + [acts[i].c]
  {
    RunStep(ps, acts, secret, i);
    if !acts[i].Continue? {
      PageKeepsScreen(ps[i], acts[i]);
    } else if ps[i].current != Some(acts[i].c) {
      ReplacedIsInert(ps[i], acts[i].c, acts[i].chain);
    } else {
      var (c, p) := (acts[i].c, ps[i]);
      TurnFacts(p.conns[c], IsLive(p, c), acts[i].chain);
      TakeScreen(p, c, TurnOf(p.conns[c], IsLive(p, c), acts[i].chain).value);
    }
  }

  /** The frames of each connection reach its socket with counters 0, 1, 2, ... */
  lemma CountersInOrder(ps: seq<Page>, acts: seq<Action>, secret: bool, i: nat, c: Conn, k: nat)
    requires IsRun(ps, acts, secret) && i < |ps| && c in ps[i].conns && k < |ps[i].conns[c].wire|
    ensures ps[i].conns[c].wire[k] == k
    ensures ps[i].conns[c].socket.Open? ==> |ps[i].conns[c].wire| == ps[i].conns[c].sendCounter
  {
    RunKeepsInv(ps, acts, secret, i);
  }

  // ----- a late failure -----

  lemma Extend(ps: seq<Page>, acts: seq<Action>, secret: bool, a: Action, q: Page)
    requires IsRun(ps, acts, secret) && Step(ps[|acts|], a) == Some(q)
    ensures IsRun(ps + [q], acts + [a], secret)
  {
    forall i | 0 <= i < |acts + [a]| ensures Step((ps + [q])[i], (acts + [a])[i]) == Some((ps + [q])[i + 1]) {
      if i < |acts| {
        assert Step(ps[i], acts[i]) == Some(ps[i + 1]);
      }
    }
  }

  function Alone(x: Connection, online: bool): Page {
    Page(map[0 := x], 1, if online then Some(0) else None, false, false, false, false, !online, true, [])
  }

  lemma AloneSet(x: Connection, y: Connection, online: bool)
    ensures Set(Alone(x, online), 0, y) == Alone(y, online)
  {
    assert map[0 := x][0 := y] == map[0 := y];
  }

  lemma OnlineSteps(x: Connection)
    ensures Step(Loaded(true), Begin) == Some(Alone(Dialed, true))
    ensures x.socket.Connecting? ==> Step(Alone(x, true), Opens(0)) == Some(Alone(x.(socket := Open), true))
    ensures x.socket.Open? ==> Step(Alone(x, true), Arrives(0, Text)) == Some(Alone(x.(inbox := x.inbox + [Text]), true))
    ensures x.socket.Open? ==> Step(Alone(x, true), Closes(0, false)) == Some(Alone(x.(socket := Closed), false))
  {
    var none: map<Conn, Connection> := map[];
    assert none[0 := Dialed] == map[0 := Dialed];
    AloneSet(x, x.(socket := Open), true);
    AloneSet(x, x.(inbox := x.inbox + [Text]), true);
    AloneSet(x, x.(socket := Closed), true);
  }

  /** A message waits behind the receive chain when its connection closes, and the page schedules a reconnect. */
  lemma LosesConnection() returns (ps: seq<Page>, acts: seq<Action>)
    ensures IsRun(ps, acts, true) && |acts| == 4
    ensures ps[4] == Alone(Dialed.(socket := Closed, inbox := [Text]), false)
  {
    ps, acts := [Loaded(true)], [];
    var x := Dialed.(socket := Open);
    OnlineSteps(Dialed);
    OnlineSteps(x);
    OnlineSteps(x.(inbox := [Text]));
    assert [] + [Text] == [Text];
    Extend(ps, acts, true, Begin, Alone(Dialed, true));
    ps, acts := ps + [Alone(Dialed, true)], acts + [Begin];
    Extend(ps, acts, true, Opens(0), Alone(x, true));
    ps, acts := ps + [Alone(x, true)], acts + [Opens(0)];
    Extend(ps, acts, true, Arrives(0, Text), Alone(x.(inbox := [Text]), true));
    ps, acts := ps + [Alone(x.(inbox := [Text]), true)], acts + [Arrives(0, Text)];
    Extend(ps, acts, true, Closes(0, false), Alone(x.(inbox := [Text], socket := Closed), false));
    ps, acts := ps + [Alone(x.(inbox := [Text], socket := Closed), false)], acts + [Closes(0, false)];
  }

  /** When that message then proves bad, the reconnect comes to nothing: its timer fires and no socket is opened. */
  lemma LateFailureStops() returns (ps: seq<Page>, acts: seq<Action>)
    ensures IsRun(ps, acts, true) && |acts| == 6 && acts[4] == Continue(0, Receive) && acts[5] == Timer
    ensures ps[4].timer && !ps[4].stopped && ps[4].current.None?
    ensures ps[6].stopped && !ps[6].timer && ps[6].current.None? && ps[6].conns.Keys == ps[4].conns.Keys
  {
    ps, acts := LosesConnection();
    var p := ps[4];
    var x := Dialed.(socket := Closed, inbox := [], poisoned := true);
    var q := Alone(x, false).(stopped := true);
    assert [Text][1..] == [];
    AloneSet(p.conns[0], x.(poisoned := false), false);
    AloneSet(x.(poisoned := false), x, false);
    assert Step(p, Continue(0, Receive)) == Some(q);
    Extend(ps, acts, true, Continue(0, Receive), q);
    ps, acts := ps + [q], acts + [Continue(0, Receive)];
    assert Step(q, Timer) == Some(q.(timer := false));
    Extend(ps, acts, true, Timer, q.(timer := false));
    ps, acts := ps + [q.(timer := false)], acts + [Timer];
  }
}
