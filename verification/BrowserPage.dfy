/**
 The page's connection state and its handlers (queueFrame, poison, scheduleReconnect, reconnectNow,
 connect with its close listener, and the frame handlers of internal/mirror/assets/wrap-mirror.js).
 Each handler is a function of the page, and a method of Browser that updates the page's variables.
 */
module BrowserPage {
  import opened Options

  type Conn = nat

  datatype Socket = Connecting | Open | Closing | Closed

  /** What the receive chain of a connection is waiting for. */
  datatype Wait = Nothing | SendKey | ReceiveKey | SendChain | Decryption

  datatype Message = Nonce | Bytes | Text // sixteen bytes, other binary data, anything else

  datatype Connection = Connection(
    socket: Socket,
    authenticated: bool,
    poisoned: bool,
    superseded: bool,
    keyed: bool, // sendKey is set
    inbox: seq<Message>, // arrived, behind the receive chain
    wait: Wait,
    queued: nat, // frames behind the send chain
    sealing: Option<nat>, // the counter the frame being encrypted was given
    sendCounter: nat,
    receiveCounter: nat,
    wire: seq<nat>) // counters of the frames handed to an open socket

  const Dialed := Connection(Connecting, false, false, false, false, [], Nothing, 0, None, 0, 0, [])

  /** `viewer` and `closing` are viewerState; `screen` logs which connection reset, resized or wrote the terminal. */
  datatype Page = Page(
    conns: map<Conn, Connection>,
    next: Conn,
    current: Option<Conn>,
    viewer: bool,
    closing: bool,
    geometry: bool,
    stopped: bool,
    timer: bool,
    secret: bool,
    screen: seq<Conn>)

  function Loaded(secret: bool): Page {
    Page(map[], 0, None, false, false, false, false, false, secret, [])
  }

  // ----- handlers -----

  function Hangup(c: Connection): Connection {
    c.(socket := if c.socket.Closed? then Closed else Closing)
  }

  function Set(p: Page, c: Conn, x: Connection): Page {
    p.(conns := p.conns[c := x])
  }

  function Poison(p: Page, c: Conn): Page
    requires c in p.conns
  {
    var x := p.conns[c];
    if x.poisoned then p
    else Set(p, c, Hangup(x.(poisoned := true))).(stopped := p.stopped || !x.superseded)
  }

  function Connect(p: Page): Page {
    if !p.secret || p.stopped then p
    else p.(conns := p.conns[p.next := Dialed], current := Some(p.next), next := p.next + 1)
  }

  function ScheduleReconnect(p: Page): Page {
    if p.stopped || p.timer then p else p.(timer := true)
  }

  function TimerFires(p: Page): Page {
    Connect(p.(timer := false))
  }

  function ReconnectNow(p: Page): Page
    requires p.current.Some? ==> p.current.value in p.conns
  {
    if !p.secret || p.stopped || p.closing then p
    else
      var q := p.(timer := false, current := None, viewer := false, closing := false, geometry := false);
      Connect(if p.current.None? then q
              else Set(q, p.current.value, Hangup(q.conns[p.current.value].(superseded := true))))
  }

  /** `rejected`: the close code was 1008. */
  function SocketCloses(p: Page, c: Conn, rejected: bool): Page
    requires c in p.conns
  {
    var q := Set(p, c, p.conns[c].(socket := Closed));
    if p.current != Some(c) then q
    else
      var r := q.(current := None, viewer := false, closing := false, geometry := false);
      if rejected then r.(stopped := true, secret := false) else ScheduleReconnect(r)
  }

  function QueueFrame(p: Page): Page
    requires p.current.Some? ==> p.current.value in p.conns
  {
    if p.current.None? then p
    else
      var x := p.conns[p.current.value];
      if x.poisoned || !x.socket.Open? then p else Set(p, p.current.value, x.(queued := x.queued + 1))
  }

  function CloseSession(p: Page): Page
    requires p.current.Some? ==> p.current.value in p.conns
  {
    if p.current.Some? && p.conns[p.current.value].authenticated && p.viewer && !p.closing
    then QueueFrame(p.(viewer := false, closing := true, geometry := false))
    else p
  }

  /** The hello goes out and the terminal is prepared; `mounts`: the display could be set up. */
  function Greet(p: Page, c: Conn, mounts: bool): Page
    requires c in p.conns && p.current == Some(c)
  {
    var q := QueueFrame(p).(geometry := false, screen := p.screen + [c]);
    if mounts then q else q.(viewer := false, closing := false)
  }

  /** An error frame may be unreadable: `null`, or with a message that is no string and cannot become one. */
  datatype Frame =
    | CloseAck(empty: bool)
    | Ready(valid: bool)
    | Output
    | Problem(final: bool, readable: bool)
    | Shutdown(retry: bool)
    | Malformed

  /** A decrypted frame of the current connection, its counter already advanced. */
  function Dispatch(p: Page, c: Conn, f: Frame): Page
    requires c in p.conns
  {
    var x := p.conns[c];
    match f
    case CloseAck(empty) =>
      if !x.authenticated || !empty || !p.closing then Poison(p, c)
      else p.(stopped := true, viewer := false, closing := false, geometry := false)
    case Ready(valid) =>
      if x.authenticated || p.geometry || !valid then Poison(p, c)
      else Set(p, c, x.(authenticated := true)).(viewer := true, geometry := true, screen := p.screen + [c])
    case Output =>
      if !x.authenticated then Poison(p, c)
      else if p.closing then p
      else if !p.viewer || !p.geometry then Poison(p, c)
      else p.(screen := p.screen + [c])
    case Problem(final, readable) =>
      var q := p.(viewer := false, closing := false, geometry := false, stopped := p.stopped || final);
      if readable then Set(q, c, Hangup(x)) else Poison(q, c)
    case Shutdown(retry) =>
      Set(p, c, Hangup(x)).(stopped := p.stopped || !retry, secret := p.secret && retry)
    case Malformed => Poison(p, c)
  }

  // ----- what every handler keeps -----

  /** No current connection while a reconnect is pending, and a viewer only on an authenticated current connection that nobody replaced. */
  predicate PageInv(p: Page) {
    && (p.current.Some? ==> p.current.value in p.conns && !p.timer && !p.conns[p.current.value].superseded)
    && (p.viewer || p.closing ==> p.current.Some? && p.conns[p.current.value].authenticated)
    && (p.timer ==> p.next > 0) && (forall c :: c in p.conns ==> c < p.next)
  }

  // ----- the page itself -----

  class Browser {
    var conns: map<Conn, Connection>
    var next: Conn
    var current: Option<Conn>
    var viewer: bool
    var closing: bool
    var geometry: bool
    var stopped: bool
    var timer: bool
    var secret: bool
    ghost var screen: seq<Conn>

    ghost function View(): Page
      reads this
    {
      Page(conns, next, current, viewer, closing, geometry, stopped, timer, secret, screen)
    }

    ghost predicate Valid()
      reads this
    {
      PageInv(View())
    }

    constructor (secret: bool)
      ensures Valid() && View() == Loaded(secret)
    {
      conns, next, current, viewer, closing := map[], 0, None, false, false;
      geometry, stopped, timer, this.secret, screen := false, false, false, secret, [];
    }

    method CloseSocket(c: Conn)
      requires c in conns
      modifies this`conns
      ensures conns == old(conns)[c := Hangup(old(conns)[c])]
    {
      if !conns[c].socket.Closed? {
        conns := conns[c := conns[c].(socket := Closing)];
      } else {
        assert conns[c := conns[c]] == conns;
      }
    }

    method PoisonTarget(c: Conn)
      requires Valid() && c in conns
      modifies this
      ensures Valid() && View() == Poison(old(View()), c)
    {
      if conns[c].poisoned {
        return;
      }
      conns := conns[c := conns[c].(poisoned := true)];
      if !conns[c].superseded {
        stopped := true;
      }
      CloseSocket(c);
      assert conns == old(conns)[c := Hangup(old(conns)[c].(poisoned := true))];
    }

    method Dial()
      requires Valid() && !timer && current.None?
      modifies this
      ensures Valid() && View() == Connect(old(View()))
    {
      if !secret || stopped {
        return;
      }
      conns := conns[next := Dialed];
      current := Some(next);
      next := next + 1;
    }

    method Schedule()
      requires Valid() && current.None? && next > 0
      modifies this`timer
      ensures Valid() && View() == ScheduleReconnect(old(View()))
    {
      if stopped || timer {
        return;
      }
      timer := true;
    }

    method OnTimer()
      requires Valid() && timer
      modifies this
      ensures Valid() && View() == TimerFires(old(View()))
    {
      timer := false;
      Dial();
    }

    method Reconnect()
      requires Valid()
      modifies this
      ensures Valid() && View() == ReconnectNow(old(View()))
    {
      if !secret || stopped || closing {
        return;
      }
      if timer {
        timer := false;
      }
      var target := current;
      if target.Some? {
        conns := conns[target.value := conns[target.value].(superseded := true)];
      }
      current, viewer, closing, geometry := None, false, false, false;
      if target.Some? {
        CloseSocket(target.value);
        assert conns == old(conns)[target.value := Hangup(old(conns)[target.value].(superseded := true))];
      }
      Dial();
    }

    method OnClose(c: Conn, rejected: bool)
      requires Valid() && c in conns
      modifies this
      ensures Valid() && View() == SocketCloses(old(View()), c, rejected)
      ensures conns == old(conns)[c := old(conns)[c].(socket := Closed)]
      ensures old(current) != Some(c) ==> stopped == old(stopped) && secret == old(secret) && timer == old(timer)
      ensures old(current) == Some(c) && rejected ==> current.None? && stopped && !secret && !timer
      ensures old(current) == Some(c) && !rejected ==> current.None? && stopped == old(stopped) && timer == !stopped
    {
      conns := conns[c := conns[c].(socket := Closed)];
      if current != Some(c) {
        return;
      }
      current, viewer, closing, geometry := None, false, false, false;
      if rejected {
        stopped, secret := true, false;
        return;
      }
      if !stopped {
        Schedule();
      }
    }

    method Queue()
      requires Valid()
      modifies this`conns
      ensures Valid() && View() == QueueFrame(old(View()))
    {
      if current.None? || conns[current.value].poisoned || !conns[current.value].socket.Open? {
        return;
      }
      var target := current.value;
      conns := conns[target := conns[target].(queued := conns[target].queued + 1)];
    }

    method EndSession()
      requires Valid()
      modifies this
      ensures Valid() && View() == CloseSession(old(View()))
    {
      if current.Some? && conns[current.value].authenticated && viewer && !closing {
        viewer, closing, geometry := false, true, false;
        Queue();
      }
    }

    method OnCloseAcknowledgement(c: Conn, empty: bool)
      requires Valid() && c in conns && current == Some(c) && !conns[c].poisoned
      modifies this
      ensures Valid() && View() == Dispatch(old(View()), c, CloseAck(empty))
      ensures old(conns[c].authenticated && closing) && empty <==> !conns[c].poisoned
      ensures stopped && (!conns[c].poisoned ==> !viewer && !closing && !geometry)
    {
      if !conns[c].authenticated || !empty || !closing {
        PoisonTarget(c);
      } else {
        stopped, viewer, closing, geometry := true, false, false, false;
      }
    }

    method OnReady(c: Conn, valid: bool)
      requires Valid() && c in conns && current == Some(c) && !conns[c].poisoned
      modifies this
      ensures Valid() && View() == Dispatch(old(View()), c, Ready(valid))
      ensures old(!conns[c].authenticated && !geometry) && valid <==> !conns[c].poisoned
      ensures !conns[c].poisoned ==> conns[c].authenticated && viewer && geometry && screen == old(screen) + [c]
    {
      if conns[c].authenticated || geometry || !valid {
        PoisonTarget(c);
      } else {
        conns := conns[c := conns[c].(authenticated := true)];
        viewer, geometry, screen := true, true, screen + [c];
      }
    }

    method OnOutput(c: Conn)
      requires Valid() && c in conns && current == Some(c) && !conns[c].poisoned
      modifies this
      ensures Valid() && View() == Dispatch(old(View()), c, Output)
      ensures old(conns[c].authenticated && !closing && viewer && geometry) <==> screen == old(screen) + [c]
      ensures old(conns[c].authenticated && (closing || (viewer && geometry))) <==> !conns[c].poisoned
    {
      if !conns[c].authenticated {
        PoisonTarget(c);
      } else if !closing {
        if !viewer || !geometry {
          PoisonTarget(c);
        } else {
          screen := screen + [c];
        }
      }
    }

    method OnTerminalError(c: Conn, final: bool, readable: bool)
      requires Valid() && c in conns && current == Some(c) && !conns[c].poisoned
      modifies this
      ensures Valid() && View() == Dispatch(old(View()), c, Problem(final, readable))
      ensures !viewer && !closing && !geometry && secret == old(secret)
      ensures stopped == (old(stopped) || final || !readable)
    {
      viewer, closing, geometry := false, false, false;
      if final {
        stopped := true;
      }
      if readable {
        CloseSocket(c);
      } else {
        PoisonTarget(c);
      }
    }

    method OnShutdown(c: Conn, retry: bool)
      requires Valid() && c in conns && current == Some(c) && !conns[c].poisoned
      modifies this
      ensures Valid() && View() == Dispatch(old(View()), c, Shutdown(retry))
      ensures stopped == (old(stopped) || !retry) && secret == (old(secret) && retry)
      ensures conns == old(conns)[c := Hangup(old(conns)[c])] && screen == old(screen)
    {
      if !retry {
        stopped, secret := true, false;
      }
      CloseSocket(c);
    }
  }
}
