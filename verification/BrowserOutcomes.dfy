/**
 What the page does with each frame, event and user action: every branch's outcome, and over runs which of
 them end the page for good and which lead to a new connection.
 */
module BrowserOutcomes {
  import opened Options
  import opened BrowserPage
  import opened BrowserConnection

  /** The current, healthy connection `c` is about to hand a decrypted frame to the page. */
  ghost predicate Delivering(p: Page, c: Conn) {
    Inv(p) && p.current == Some(c) && !p.conns[c].poisoned && p.conns[c].wait.Decryption?
  }

  function Delivered(p: Page, c: Conn, f: Frame): Option<Page> {
    Step(p, Continue(c, Decrypted(Some(f))))
  }

  /** Everything the delivery of a frame leaves alone, whatever the frame. */
  predicate Received(p: Page, q: Page, c: Conn) {
    && c in p.conns && c in q.conns && q.conns.Keys == p.conns.Keys && q.next == p.next
    && q.conns[c].receiveCounter == p.conns[c].receiveCounter + 1 && q.conns[c].wait.Nothing?
    && q.conns[c].superseded == p.conns[c].superseded && q.current == p.current && q.timer == p.timer
    && forall d :: d in p.conns && d != c ==> q.conns[d] == p.conns[d]
  }

  predicate Viewing(p: Page, viewer: bool, closing: bool, geometry: bool) {
    p.viewer == viewer && p.closing == closing && p.geometry == geometry
  }

  predicate Ended(x: Connection) {
    x.socket.Closing? || x.socket.Closed?
  }

  /** A frame that does not belong: the connection is poisoned and closed, and the page stops. */
  predicate Refuses(p: Page, q: Page, c: Conn) {
    && c in q.conns && q.conns[c].poisoned && Ended(q.conns[c]) && q.stopped && q.secret == p.secret
    && q.screen == p.screen && Viewing(q, p.viewer, p.closing, p.geometry)
  }

  /** A frame that does: the connection stays healthy, and only what the frame means has changed. */
  predicate Accepts(p: Page, q: Page, c: Conn, stopped: bool, secret: bool, screen: seq<Conn>) {
    c in q.conns && !q.conns[c].poisoned && q.stopped == stopped && q.secret == secret && q.screen == screen
  }

  lemma OutputShows(p: Page, c: Conn)
    requires Delivering(p, c)
    ensures Delivered(p, c, Output).Some?
    ensures var (x, q) := (p.conns[c], Delivered(p, c, Output).value);
            && Received(p, q, c)
            && (if x.authenticated && (p.closing || (p.viewer && p.geometry))
                then Accepts(p, q, c, p.stopped, p.secret, if p.closing then p.screen else p.screen + [c])
                     && q.conns[c].socket == x.socket && Viewing(q, p.viewer, p.closing, p.geometry)
                else Refuses(p, q, c))
  {
  }

  lemma ReadyOpens(p: Page, c: Conn, valid: bool)
    requires Delivering(p, c)
    ensures Delivered(p, c, Ready(valid)).Some?
    ensures var (x, q) := (p.conns[c], Delivered(p, c, Ready(valid)).value);
            && Received(p, q, c)
            && (if !x.authenticated && !p.geometry && valid
                then Accepts(p, q, c, p.stopped, p.secret, p.screen + [c]) && q.conns[c].authenticated
                     && q.conns[c].socket == x.socket && Viewing(q, true, p.closing, true)
                else Refuses(p, q, c))
  {
  }

  lemma AcknowledgementStops(p: Page, c: Conn, empty: bool)
    requires Delivering(p, c)
    ensures Delivered(p, c, CloseAck(empty)).Some?
    ensures var (x, q) := (p.conns[c], Delivered(p, c, CloseAck(empty)).value);
            && Received(p, q, c)
            && (if x.authenticated && empty && p.closing
                then Accepts(p, q, c, true, p.secret, p.screen) && Viewing(q, false, false, false) && q.conns[c].socket == x.socket
                else Refuses(p, q, c))
  {
  }

  lemma ProblemClears(p: Page, c: Conn, final: bool, readable: bool)
    requires Delivering(p, c)
    ensures Delivered(p, c, Problem(final, readable)).Some?
    ensures var q := Delivered(p, c, Problem(final, readable)).value;
            && Received(p, q, c) && Viewing(q, false, false, false) && Ended(q.conns[c])
            && q.secret == p.secret && q.screen == p.screen
            && q.conns[c].poisoned == !readable && q.stopped == (p.stopped || final || !readable)
  {
  }

  lemma ShutdownDecides(p: Page, c: Conn, retry: bool)
    requires Delivering(p, c)
    ensures Delivered(p, c, Shutdown(retry)).Some?
    ensures var q := Delivered(p, c, Shutdown(retry)).value;
            && Received(p, q, c) && Viewing(q, p.viewer, p.closing, p.geometry) && Ended(q.conns[c])
            && (if retry then Accepts(p, q, c, p.stopped, p.secret, p.screen) else Accepts(p, q, c, true, false, p.screen))
  {
  }

  lemma MalformedRefuses(p: Page, c: Conn)
    requires Delivering(p, c)
    ensures Delivered(p, c, Malformed).Some? && Received(p, Delivered(p, c, Malformed).value, c)
    ensures Refuses(p, Delivered(p, c, Malformed).value, c)
  {
  }

  /** A frame that fails to decrypt poisons whatever connection it came on; it stops the page unless that one was replaced. */
  lemma BadFrameRefuses(p: Page, c: Conn)
    requires Inv(p) && c in p.conns && !p.conns[c].poisoned && p.conns[c].wait.Decryption?
    ensures var q := Step(p, Continue(c, Decrypted(None)));
            q.Some? && c in q.value.conns && q.value.conns[c].poisoned && Ended(q.value.conns[c])
            && q.value.stopped == (p.stopped || !p.conns[c].superseded) && SameView(p, q.value)
  {
  }

  // ----- events and user actions -----

  /** What a dial opens: a fresh connection, current, beside all the others. */
  predicate Dials(p: Page, q: Page) {
    && p.next in q.conns && q.conns[p.next] == Dialed && q.current == Some(p.next) && q.next == p.next + 1
    && q.stopped == p.stopped && q.secret == p.secret && q.screen == p.screen
  }

  /** The end of the current connection's socket either forgets the pairing or schedules a reconnect; any other's changes nothing. */
  lemma CloseDecides(p: Page, c: Conn, rejected: bool)
    requires Inv(p) && c in p.conns && !p.conns[c].socket.Closed?
    ensures Step(p, Closes(c, rejected)).Some?
    ensures var q := Step(p, Closes(c, rejected)).value;
            && q.conns == p.conns[c := p.conns[c].(socket := Closed)] && q.screen == p.screen && q.next == p.next
            && (if p.current != Some(c) then q == p.(conns := q.conns)
                else
                  && q.current.None? && Viewing(q, false, false, false)
                  && (if rejected then q.stopped && !q.secret && !q.timer
                      else q.stopped == p.stopped && q.secret == p.secret && q.timer == !p.stopped))
  {
  }

  /** The reconnect's timer opens a socket exactly with a secret and not when stopped. */
  lemma TimerDials(p: Page)
    requires Inv(p) && p.timer
    ensures Step(p, Timer).Some?
    ensures var q := Step(p, Timer).value;
            !q.timer && if p.secret && !p.stopped then Dials(p, q) && q.conns - {p.next} == p.conns else q == p.(timer := false)
  {
    assert forall c :: c in p.conns ==> c != p.next;
    assert p.conns[p.next := Dialed] - {p.next} == p.conns;
  }

  lemma BeginDials(p: Page)
    requires Inv(p) && p.next == 0
    ensures Step(p, Begin).Some? && if p.secret && !p.stopped then Dials(p, Step(p, Begin).value) else Step(p, Begin).value == p
  {
  }

  /** A reconnect replaces the current connection, if any, by a new one, and resets the view. */
  lemma ReconnectReplaces(p: Page)
    requires Inv(p)
    ensures Step(p, Reconnecting).Some?
    ensures var q := Step(p, Reconnecting).value;
            if !p.secret || p.stopped || p.closing then q == p
            else
              && Dials(p, q) && !q.timer && Viewing(q, false, false, false)
              && (p.current.Some? ==>
                    var c := p.current.value;
                    c in q.conns && q.conns[c].superseded && Ended(q.conns[c]) && q.conns[c].poisoned == p.conns[c].poisoned)
              && forall d :: d in p.conns && Some(d) != p.current ==> d in q.conns && q.conns[d] == p.conns[d]
  {
  }

  predicate CanSend(p: Page) {
    p.current.Some? && p.current.value in p.conns && !p.conns[p.current.value].poisoned && p.conns[p.current.value].socket.Open?
  }

  /** Input is queued exactly on an open, healthy current connection. */
  lemma TypeQueues(p: Page)
    requires Inv(p)
    ensures Step(p, Type).Some?
    ensures var q := Step(p, Type).value;
            if !CanSend(p) then q == p
            else var (c, x) := (p.current.value, p.conns[p.current.value]);
                 q == p.(conns := p.conns[c := x.(queued := x.queued + 1)])
  {
  }

  /** Ending the session hides the terminal and queues one close frame, once. */
  lemma EndAsksOnce(p: Page)
    requires Inv(p)
    ensures Step(p, EndIt).Some?
    ensures var q := Step(p, EndIt).value;
            if !p.viewer || p.closing then q == p
            else
              var r := p.(viewer := false, closing := true, geometry := false);
              if !CanSend(p) then q == r
              else var (c, x) := (p.current.value, p.conns[p.current.value]);
                   q == r.(conns := p.conns[c := x.(queued := x.queued + 1)])
  {
  }

  /** A socket opens once, and what arrives on it waits behind what came before. */
  lemma SocketEvents(p: Page, c: Conn, m: Message)
    requires Sane(p) && c in p.conns
    ensures p.conns[c].socket.Connecting? ==> Step(p, Opens(c)) == Some(Set(p, c, p.conns[c].(socket := Open)))
    ensures p.conns[c].socket.Open? || p.conns[c].socket.Closing? ==>
              Step(p, Arrives(c, m)) == Some(Set(p, c, p.conns[c].(inbox := p.conns[c].inbox + [m])))
  {
  }

  /** Messages are taken in the order they came, one at a time. */
  lemma TakesFirst(x: Connection, live: bool)
    ensures TurnOf(x, live, Receive).Some? <==> x.wait.Nothing? && x.inbox != []
    ensures TurnOf(x, live, Receive).Some? ==> TurnOf(x, live, Receive).value.x.inbox == x.inbox[1..]
  {
  }

  // ----- chains that run undisturbed -----

  lemma OneTurn(p: Page, c: Conn, chain: Chain, t: Turn)
    requires Sane(p) && c in p.conns && TurnOf(p.conns[c], IsLive(p, c), chain) == Some(t)
    requires t.Greets? ==> p.current == Some(c)
    ensures Step(p, Continue(c, chain)) == Some(Take(p, c, t))
  {
  }

  /** A queued frame on a healthy open connection goes out under the next counter. */
  lemma QueuedGoesOut(p: Page, c: Conn) returns (q: Page, r: Page)
    requires Inv(p) && c in p.conns && !p.conns[c].poisoned && p.conns[c].socket.Open? && p.conns[c].keyed
    requires p.conns[c].queued > 0 && p.conns[c].sealing.None?
    ensures Step(p, Continue(c, SendNext)) == Some(q) && Step(q, Continue(c, Encrypted(true))) == Some(r)
    ensures var x := p.conns[c];
            c in r.conns && r.conns[c] ==
              x.(queued := x.queued - 1, wire := x.wire + [|x.wire|], sendCounter := x.sendCounter + 1)
    ensures SameView(p, r) && r.stopped == p.stopped
  {
    var x := p.conns[c];
    var y := x.(queued := x.queued - 1, sealing := Some(x.sendCounter));
    OneTurn(p, c, SendNext, Sets(y));
    q := Set(p, c, y);
    assert InWireOrder(x);
    var z := y.(sealing := None, sendCounter := x.sendCounter + 1, wire := x.wire + [x.sendCounter]);
    OneTurn(q, c, Encrypted(true), Sets(z));
    r := Set(q, c, z);
  }

  lemma NonceTurns(x: Connection)
    requires !x.poisoned && !x.keyed && x.wait.Nothing? && x.inbox == [Nonce]
    ensures var (y, z) := (x.(inbox := [], wait := SendKey), x.(inbox := [], keyed := true, wait := ReceiveKey));
            && TurnOf(x, true, Receive) == Some(Sets(y)) && TurnOf(y, true, Derived(true)) == Some(Sets(z))
            && TurnOf(z, true, Derived(true)) == Some(Sets(z.(wait := SendChain)))
  {
    assert [Nonce][1..] == [];
  }

  lemma LiveTurn(p: Page, c: Conn, chain: Chain, y: Connection)
    requires c in p.conns && p.current == Some(c) && !p.conns[c].poisoned && !y.poisoned
    requires TurnOf(p.conns[c], true, chain) == Some(Sets(y))
    ensures Step(p, Continue(c, chain)) == Some(Set(p, c, y)) && IsLive(Set(p, c, y), c)
  {
    OneTurn(p, c, chain, Sets(y));
  }

  /** The server's nonce on a fresh current connection starts the derivation of both keys. */
  lemma NonceDerives(p: Page, c: Conn) returns (p1: Page, p2: Page, p3: Page)
    requires c in p.conns && p.current == Some(c) && !p.conns[c].poisoned && !p.conns[c].keyed
    requires p.conns[c].wait.Nothing? && p.conns[c].inbox == [Nonce]
    ensures Step(p, Continue(c, Receive)) == Some(p1) && Step(p1, Continue(c, Derived(true))) == Some(p2)
    ensures Step(p2, Continue(c, Derived(true))) == Some(p3)
    ensures p3 == Set(p, c, p.conns[c].(inbox := [], keyed := true, wait := SendChain))
  {
    var x := p.conns[c];
    var (y, z) := (x.(inbox := [], wait := SendKey), x.(inbox := [], keyed := true, wait := ReceiveKey));
    NonceTurns(x);
    LiveTurn(p, c, Receive, y);
    p1, p2, p3 := Set(p, c, y), Set(p, c, z), Set(p, c, z.(wait := SendChain));
    SetTwice(p, c, y, z);
    LiveTurn(p1, c, Derived(true), z);
    SetTwice(p, c, z, z.(wait := SendChain));
    LiveTurn(p2, c, Derived(true), z.(wait := SendChain));
  }

  lemma SetTwice(p: Page, c: Conn, x: Connection, y: Connection)
    ensures Set(Set(p, c, x), c, y) == Set(p, c, y)
  {
    assert p.conns[c := x][c := y] == p.conns[c := y];
  }

  lemma GreetQueues(p: Page, c: Conn, x: Connection, mounts: bool)
    requires p.current == Some(c) && !x.poisoned && x.socket.Open?
    ensures var (q, r) := (Greet(Set(p, c, x), c, mounts), Set(p, c, x.(queued := x.queued + 1)));
            q == r.(geometry := false, screen := p.screen + [c], viewer := p.viewer && mounts, closing := p.closing && mounts)
  {
    SetTwice(p, c, x, x.(queued := x.queued + 1));
  }

  /** And then, with the send chain drained, the hello is queued and the terminal prepared. */
  lemma DrainedGreets(p: Page, c: Conn, mounts: bool, x: Connection)
    requires CanSend(p) && p.current == Some(c) && p.conns[c].wait.SendChain? && x == p.conns[c].(wait := Nothing)
    ensures Step(p, Continue(c, Drained(mounts))) ==
              Some(Set(p, c, x.(queued := x.queued + 1))
                   .(geometry := false, screen := p.screen + [c], viewer := p.viewer && mounts, closing := p.closing && mounts))
  {
    OneTurn(p, c, Drained(mounts), Greets(x, mounts));
    GreetQueues(p, c, x, mounts);
  }

  // ----- over runs -----

  /** Frames after which the page never connects again: a final shutdown or error, a close acknowledged, a frame that does not belong. */
  predicate Ends(p: Page, c: Conn, f: Frame)
    requires c in p.conns
  {
    match f
    case Shutdown(retry) => !retry
    case Problem(final, readable) => final || !readable
    case CloseAck(_) => true
    case Ready(valid) => p.conns[c].authenticated || p.geometry || !valid
    case Output => !p.conns[c].authenticated || (!p.closing && (!p.viewer || !p.geometry))
    case Malformed => true
  }

  /** Exactly these frames stop a running page, and only a final shutdown takes its secret. */
  lemma FramesThatEnd(p: Page, c: Conn, f: Frame)
    requires Delivering(p, c) && !p.stopped && p.secret
    ensures Delivered(p, c, f).Some?
    ensures var q := Delivered(p, c, f).value; (q.stopped <==> Ends(p, c, f)) && (q.secret <==> f != Shutdown(false))
  {
    match f
    case Output => OutputShows(p, c);
    case Ready(valid) => ReadyOpens(p, c, valid);
    case CloseAck(empty) => AcknowledgementStops(p, c, empty);
    case Problem(final, readable) => ProblemClears(p, c, final, readable);
    case Shutdown(retry) => ShutdownDecides(p, c, retry);
    case Malformed => MalformedRefuses(p, c);
  }

  /** Once such a frame has been delivered the page stays stopped and opens no socket, and after a final shutdown it has no secret. */
  lemma EndedForGood(ps: seq<Page>, acts: seq<Action>, secret: bool, i: nat, j: nat, c: Conn, f: Frame)
    requires IsRun(ps, acts, secret) && i < j < |ps| && acts[i] == Continue(c, Decrypted(Some(f)))
    requires Delivering(ps[i], c) && !ps[i].stopped && ps[i].secret && Ends(ps[i], c, f)
    ensures ps[j].stopped && Settled(ps[i + 1], ps[j]) && (f == Shutdown(false) ==> !ps[j].secret)
  {
    RunStep(ps, acts, secret, i);
    FramesThatEnd(ps[i], c, f);
    StoppedForGood(ps, acts, secret, i + 1, j);
  }

  /** So does a close that rejects the current connection's pairing. */
  lemma RejectedForGood(ps: seq<Page>, acts: seq<Action>, secret: bool, i: nat, j: nat, c: Conn)
    requires IsRun(ps, acts, secret) && i < j < |ps| && acts[i] == Closes(c, true) && ps[i].current == Some(c)
    ensures ps[j].stopped && !ps[j].secret && Settled(ps[i + 1], ps[j])
  {
    RunKeepsInv(ps, acts, secret, i);
    RunStep(ps, acts, secret, i);
    CloseDecides(ps[i], c, true);
    StoppedForGood(ps, acts, secret, i + 1, j);
  }

  /** A shutdown that allows a retry, or an error that is not final, closes the socket; its close schedules a reconnect, which opens a new one. */
  lemma RetryReconnects(p: Page, c: Conn, f: Frame) returns (p1: Page, p2: Page, p3: Page)
    requires Delivering(p, c) && !p.stopped && p.secret && !p.conns[c].socket.Closed?
    requires f == Shutdown(true) || f == Problem(false, true)
    ensures Delivered(p, c, f) == Some(p1) && Step(p1, Closes(c, false)) == Some(p2) && Step(p2, Timer) == Some(p3)
    ensures p2.timer && p2.current.None? && !p2.stopped && p2.secret
    ensures p.next in p3.conns && p3.conns[p.next] == Dialed && p3.current == Some(p.next) && !p3.stopped && p3.secret
  {
    if f.Shutdown? {
      ShutdownDecides(p, c, true);
    } else {
      ProblemClears(p, c, false, true);
    }
    p1 := Delivered(p, c, f).value;
    StepKeepsInv(p, Continue(c, Decrypted(Some(f))));
    p2 := RetryAfterClose(p, p1, c, f);
    StepKeepsInv(p1, Closes(c, false));
    TimerDials(p2);
    p3 := Step(p2, Timer).value;
  }

  lemma RetryAfterClose(p: Page, p1: Page, c: Conn, f: Frame) returns (p2: Page)
    requires Inv(p1) && p1.current == Some(c) && !p1.stopped && p1.secret && p1.next == p.next
    requires !p1.conns[c].socket.Closed?
    ensures Step(p1, Closes(c, false)) == Some(p2)
    ensures p2.timer && p2.current.None? && !p2.stopped && p2.secret && p2.next == p.next
  {
    CloseDecides(p1, c, false);
    p2 := Step(p1, Closes(c, false)).value;
  }
}
