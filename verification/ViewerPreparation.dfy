/**
 A prepared viewer and the viewer it starts (ptyViewerPreparation.Start, Close and ptyViewer.run in
 internal/mirror/viewer.go): whichever path is taken, the window pin is released once, and not before the
 viewer's terminal is gone.
 */
module ViewerPreparation {
  /**
   `running`: the started viewer's goroutine has not reached its end; `terminal`: a tmux client of this
   viewer may still be attached; `releases`: calls of releasePin so far.
   */
  datatype Prepared = Prepared(started: bool, closed: bool, running: bool, terminal: bool, releases: nat)

  const Fresh := Prepared(false, false, false, false, 0)

  /** How far a start got: without a terminal, with one that could not be verified, or all the way. */
  datatype Launch = NoTerminal | Unverified | Launched

  datatype Call = StartCall(launch: Launch) | CloseCall | ViewerEnds

  function After(p: Prepared, c: Call): Prepared {
    match c
    case StartCall(launch) =>
      if p.closed || p.started then p
      else if launch.Launched? then p.(started := true, running := true, terminal := true)
      else p.(closed := true, releases := p.releases + 1)
    case CloseCall => if p.started || p.closed then p else p.(closed := true, releases := p.releases + 1)
    case ViewerEnds => if p.running then p.(running := false, terminal := false, releases := p.releases + 1) else p
  }

  function AfterAll(calls: seq<Call>): Prepared {
    if calls == [] then Fresh else After(AfterAll(calls[..|calls| - 1]), calls[|calls| - 1])
  }

  predicate Over(p: Prepared) {
    p.closed || (p.started && !p.running)
  }

  /** Released exactly when over, and while a terminal stands nothing is released. */
  predicate Sound(p: Prepared) {
    && p.releases == (if Over(p) then 1 else 0) && (p.terminal <==> p.running)
    && !(p.closed && p.started) && (p.running ==> p.started)
  }

  lemma CallKeepsSound(p: Prepared, c: Call)
    requires Sound(p)
    ensures Sound(After(p, c)) && (Over(p) ==> After(p, c) == p)
    ensures After(p, c).releases != p.releases ==> Over(After(p, c)) && !Over(p)
  {
  }

  /** Over every sequence of calls the pin is released at most once, and exactly when the preparation or its viewer is over. */
  lemma {:induction false} ReleasesOnce(calls: seq<Call>)
    ensures Sound(AfterAll(calls))
  {
    if calls != [] {
      ReleasesOnce(calls[..|calls| - 1]);
    }
  }

  /** What is over stays as it is, so an owner that closes what it prepared, or lets its viewer end, has released for good. */
  lemma {:induction false} OverStays(calls: seq<Call>, more: seq<Call>)
    requires Over(AfterAll(calls))
    ensures AfterAll(calls + more) == AfterAll(calls) && AfterAll(calls).releases == 1
  {
    ReleasesOnce(calls);
    if more == [] {
      assert calls + more == calls;
    } else {
      var shorter := more[..|more| - 1];
      OverStays(calls, shorter);
      CallKeepsSound(AfterAll(calls), more[|more| - 1]);
      assert (calls + more)[..|calls + more| - 1] == calls + shorter;
    }
  }

  class Preparation {
    var started: bool
    var closed: bool
    var running: bool
    var terminal: bool
    var releases: nat

    function View(): Prepared
      reads this
    {
      Prepared(started, closed, running, terminal, releases)
    }

    constructor ()
      ensures View() == Fresh
    {
      started, closed, running, terminal, releases := false, false, false, false, 0;
    }

    /** Only a viewer whose tmux client is gone may let go of the window's size. */
    method ReleasePin()
      requires !terminal
      modifies this`releases
      ensures releases == old(releases) + 1
    {
      releases := releases + 1;
    }

    method StopUnverifiedViewer()
      modifies this`terminal
      ensures !terminal
    {
      terminal := false;
    }

    method Start(launch: Launch) returns (ok: bool)
      requires Sound(View())
      modifies this
      ensures Sound(View()) && View() == After(old(View()), StartCall(launch))
      ensures ok <==> launch.Launched? && !old(started) && !old(closed)
      ensures ok ==> started && running && terminal && !closed && releases == old(releases)
      ensures old(started || closed) ==> View() == old(View())
      ensures !ok && !old(started || closed) ==> closed && !started && !terminal && releases == old(releases) + 1
    {
      if closed || started {
        return false;
      }
      if launch.NoTerminal? {
        closed := true;
        ReleasePin();
        return false;
      }
      terminal := true;
      if launch.Unverified? {
        closed := true;
        StopUnverifiedViewer();
        ReleasePin();
        return false;
      }
      running := true;
      started := true;
      return true;
    }

    method Close()
      requires Sound(View())
      modifies this
      ensures Sound(View()) && View() == After(old(View()), CloseCall)
      ensures if old(started || closed) then View() == old(View()) else closed && !started && releases == old(releases) + 1
    {
      if started || closed {
        return;
      }
      closed := true;
      ReleasePin();
    }

    /** The end of the viewer's goroutine: its process was waited for and its terminal closed. */
    method RunEnds()
      requires Sound(View())
      modifies this
      ensures Sound(View()) && View() == After(old(View()), ViewerEnds)
      ensures !running && !terminal && started == old(started) && closed == old(closed)
      ensures releases == old(releases) + if old(running) then 1 else 0
    {
      if running {
        terminal := false;
        ReleasePin();
        running := false;
      }
    }
  }
}
