/**
 What pinning achieves, beside what it keeps safe: how each answer to a claim, each release and each
 clean-up goes on, and that an undisturbed pin and its release leave the window as it was.
 */
module WindowOutcomes {
  import opened Options
  import opened Decimals
  import opened TmuxWindow
  import opened TmuxPinArgs
  import opened WindowEffects
  import opened WindowPins

  // ----- the host -----

  /** The host may size any window at any time, and what it sets is then there. */
  lemma HostSizes(world: World, issued: map<string, nat>, id: string, h: HostSizing)
    requires id in world.windows
    ensures StepHost(world, issued, Size(id, h)).Some?
    ensures var (x, v) := (world.windows[id], StepHost(world, issued, Size(id, h)).value);
            && v.windows.Keys == world.windows.Keys && v.generation == world.generation && v.windows[id].touched
            && v.windows[id].claims == x.claims && v.windows[id].w.hooks == x.w.hooks
            && (match h
                case SetSize(mode) => v.windows[id].w.size == Some(Setting(mode, Host))
                case UnsetSize => v.windows[id].w.size.None?
                case ResizeTo(columns, rows) =>
                  v.windows[id].w.size == Some(Setting("manual", Host))
                  && v.windows[id].w.columns == columns && v.windows[id].w.rows == rows)
            && forall other :: other in world.windows && other != id ==> v.windows[other] == world.windows[other]
  {
  }

  /** It may kill any window and restart the server, and new windows come up without a trace of Wrap. */
  lemma HostRules(world: World, issued: map<string, nat>, id: string, generation: string, w: Window)
    ensures StepHost(world, issued, HostStep.Kill(id)) == Some(world.(windows := world.windows - {id}))
    ensures StepHost(world, issued, Restart(generation)) == Some(World(generation, map[]))
    ensures w.id !in world.windows && w.generation == world.generation && w.owner == "" && w.size.None? && w.hooks == map[] ==>
              StepHost(world, issued, Create(w)) == Some(world.(windows := world.windows[w.id := Win(w, false, {})]))
  {
    if w.hooks == map[] {
      assert WrapKeys(w.hooks) == {};
    }
  }

  // ----- claims -----

  /** A capture of a window that has a pin joins it. */
  lemma JoinsPin(s: Sys, c: Capture, owner: string, hookIndex: nat)
    requires s.task.Capturing? && s.task.tries > 0 && s.task.generation == c.generation && Captured(s.world, c)
    requires Key(c.generation, c.win) in s.pins
    ensures var (key, t) := (Key(c.generation, c.win), StepClaim(s, CaptureWindow(c, owner, hookIndex)));
            && t.Some? && t.value.task == Idle && t.value.world == s.world && t.value.handles == s.handles + [Handle(key, false)]
            && t.value.pins.Keys == s.pins.Keys && t.value.pins[key] == s.pins[key].(references := s.pins[key].references + 1)
            && forall other :: other in s.pins && other != key ==> t.value.pins[other] == s.pins[other]
  {
  }

  /** With no attempt left there is nothing but to give up. */
  lemma GivesUp(s: Sys, c: Capture, owner: string, hookIndex: nat)
    requires s.task.Capturing?
    ensures s.task.tries == 0 ==> StepClaim(s, CaptureWindow(c, owner, hookIndex)).None?
    ensures StepClaim(s, CaptureFails) == Some(s.(task := Idle))
  {
  }

  predicate FreshClaim(s: Sys, c: Claimant) {
    && KeyOf(c) !in s.pins && Pinnable(c.capture, c.owner, c.hookIndex)
    && (c.capture.inherited ==> c.owner !in s.issued && c.hookIndex !in s.issued.Values && Unused(s.world, c.hookIndex))
  }

  /** Any other capture leads to a claim, one attempt fewer left. */
  lemma CaptureClaims(s: Sys, c: Claimant)
    requires s.task.Capturing? && s.task.tries > 0 && s.task.generation == c.capture.generation && Captured(s.world, c.capture)
    requires FreshClaim(s, c)
    ensures StepClaim(s, CaptureWindow(c.capture, c.owner, c.hookIndex)) ==
            Some(s.(task := Claiming(c, s.task.tries - 1),
                    issued := if c.capture.inherited then s.issued[c.owner := c.hookIndex] else s.issued))
  {
  }

  /**
   How a claim goes on: accepted, the pin is recorded with one reference and a release function handed out;
   a mismatch is captured again; a conflict or a lost answer is rolled back, the conflict to be captured again.
   */
  lemma ClaimGoesOn(s: Sys, current: string, replied: bool)
    requires s.task.Claiming? && current in s.world.windows
    ensures StepClaim(s, ClaimRuns(current, replied)).Some?
    ensures var (c, w, t) := (s.task.claim, s.world.windows[current].w, StepClaim(s, ClaimRuns(current, replied)).value);
            var matched := Matches(w, c.capture);
            var taken := matched && (!c.capture.inherited || w.size.None?);
            && (if replied && taken
                then t.task == Idle && t.handles == s.handles + [Handle(KeyOf(c), false)]
                     && t.pins == s.pins[KeyOf(c) := Pin(1, c.capture.mode, c.capture.inherited, c.owner, c.hookIndex)]
                else t.pins == s.pins && t.handles == s.handles)
            && (replied && !matched ==> t.task == Capturing(c.capture.generation, s.task.tries))
            && (replied && matched && !taken ==> t.task == RollingBack(c, s.task.tries, true))
            && (!replied ==> t.task == if c.capture.inherited then RollingBack(c, s.task.tries, false) else Idle)
            && (!(taken && c.capture.inherited) ==> t.world.windows == s.world.windows)
  {
    var x := s.world.windows[current];
    assert s.world.windows[current := x] == s.world.windows;
  }

  /** A claim that never reached tmux is rolled back too, if it had something to undo. */
  lemma LostClaimGoesOn(s: Sys)
    requires s.task.Claiming?
    ensures var c := s.task.claim;
            StepClaim(s, ClaimLost) ==
              Some(s.(task := if c.capture.inherited then RollingBack(c, s.task.tries, false) else Idle))
  {
  }

  /** A rollback that worked goes on to the next attempt, if one was due; anything else ends the claim. */
  lemma RollbackGoesOn(s: Sys, delivered: bool, ok: bool)
    requires s.task.RollingBack? && (ok ==> delivered)
    ensures var (c, t) := (s.task.claim, StepClaim(s, RollbackRuns(delivered, ok)));
            && t.Some? && t.value.pins == s.pins && t.value.handles == s.handles
            && t.value.task == (if ok && s.task.again then Capturing(c.capture.generation, s.task.tries) else Idle)
            && t.value.world == (if delivered then RestoreOn(s.world, KeyOf(c), c.owner, c.hookIndex) else s.world)
  {
  }

  // ----- releases -----

  /** A first call takes one reference; the last one asks for a restore where one is owed and forgets the pin otherwise. */
  lemma CallGoesOn(s: Sys, i: nat)
    requires Inv(s) && s.task == Idle && i < |s.handles| && !s.handles[i].called
    ensures s.handles[i].key in s.pins && StepRelease(s, Call(i)).Some?
    ensures var (key, t) := (s.handles[i].key, StepRelease(s, Call(i)).value);
            var left := s.pins[key].references - 1;
            && t.world == s.world && t.handles == s.handles[i := Handle(key, true)] && left >= 0
            && (if left > 0 then t.task == Idle && t.pins == s.pins[key := s.pins[key].(references := left)]
                else if s.pins[key].restore then t.task == Releasing(key) && t.pins == s.pins[key := s.pins[key].(references := 0)]
                else t.task == Idle && t.pins == s.pins - {key})
  {
    UncalledHere(s.handles, i);
    assert Uncalled(s.handles, s.handles[i].key) > 0;
  }

  lemma {:induction false} UncalledHere(handles: seq<Handle>, i: nat)
    requires i < |handles| && !handles[i].called
    ensures Uncalled(handles, handles[i].key) > 0
  {
    var n := |handles| - 1;
    if i < n {
      UncalledHere(handles[..n], i);
    } else {
      assert handles[n] == Handle(handles[i].key, false);
    }
  }

  /** A restore that worked forgets the pin, a failed one keeps it to be retried; delivered, it acts on its window. */
  lemma RestoreGoesOn(s: Sys, delivered: bool, ok: bool)
    requires s.task.Releasing? && s.task.key in s.pins && (ok ==> delivered)
    ensures var (key, t) := (s.task.key, StepRelease(s, ReleaseRuns(delivered, ok)));
            && t.Some? && t.value.task == Idle && t.value.handles == s.handles
            && t.value.pins == (if ok then s.pins - {key} else s.pins)
            && t.value.world == (if delivered then RestoreOn(s.world, key, s.pins[key].owner, s.pins[key].hookIndex) else s.world)
  {
  }

  /** A clean-up visits every pin once, restores those that are owed it and forgets the others nobody references. */
  lemma CleanupGoesOn(s: Sys, key: Key, delivered: bool, ok: bool)
    requires (ok ==> delivered)
    ensures s.task == Idle ==> StepRelease(s, BeginCleanup) == Some(s.(task := Cleaning(s.pins.Keys)))
    ensures s.task == Cleaning({}) ==> StepRelease(s, EndCleanup) == Some(s.(task := Idle))
    ensures s.task.Cleaning? && key in s.task.left && key in s.pins ==>
              var (pin, t) := (s.pins[key], StepRelease(s, CleanNext(key, delivered, ok)));
              && t.Some? && t.value.task == Cleaning(s.task.left - {key}) && t.value.handles == s.handles
              && (if pin.references > 0 then t.value.pins == s.pins && t.value.world == s.world
                  else if !pin.restore then t.value.pins == s.pins - {key} && t.value.world == s.world
                  else t.value.pins == (if ok then s.pins - {key} else s.pins)
                       && t.value.world == (if delivered then RestoreOn(s.world, key, pin.owner, pin.hookIndex) else s.world))
  {
  }

  // ----- a pin and its release, undisturbed -----

  predicate CanPin(s: Sys, c: Claimant) {
    && s.task == Idle && c.capture.inherited && Captured(s.world, c.capture) && FreshClaim(s, c)
    && c.capture.win in s.world.windows && Clean(s.world.windows[c.capture.win].w)
  }

  function Recorded(s: Sys, c: Claimant, x: Win, issued: map<string, nat>): Sys {
    s.(world := Place(s.world, c.capture.win, PinWin(x, c)), handles := s.handles + [Handle(KeyOf(c), false)],
       pins := s.pins[KeyOf(c) := Pin(1, c.capture.mode, true, c.owner, c.hookIndex)], task := Idle, issued := issued)
  }

  lemma AfterAccepted(s: Sys, c: Claimant, tries: nat, world: World)
    requires c.capture.inherited
    ensures AfterClaim(s.(world := world), c, tries, Accepted, true) ==
            s.(world := world, handles := s.handles + [Handle(KeyOf(c), false)],
               pins := s.pins[KeyOf(c) := Pin(1, c.capture.mode, true, c.owner, c.hookIndex)], task := Idle)
  {
  }

  lemma AcceptedRecords(s: Sys, c: Claimant, tries: nat)
    requires s.task == Claiming(c, tries) && c.capture.inherited && c.capture.win in s.world.windows
    requires TakesHold(s.world.windows[c.capture.win].w, c.capture)
    ensures StepClaim(s, ClaimRuns(c.capture.win, true)) == Some(Recorded(s, c, s.world.windows[c.capture.win], s.issued))
  {
    var x := s.world.windows[c.capture.win];
    ClaimRunsIs(s, c.capture.win, true);
    AfterAccepted(s, c, tries, Place(s.world, c.capture.win, PinWin(x, c)));
  }

  lemma CapturedTakesHold(s: Sys, c: Claimant)
    requires CanPin(s, c)
    ensures TakesHold(s.world.windows[c.capture.win].w, c.capture)
  {
  }

  /** A window free of Wrap is pinned: manual, marked and watched, recorded with one reference. */
  lemma PinSucceeds(s: Sys, c: Claimant) returns (s1: Sys, s2: Sys, t: Sys)
    requires CanPin(s, c)
    ensures StepClaim(s, Begin(c.capture.generation)) == Some(s1)
    ensures StepClaim(s1, CaptureWindow(c.capture, c.owner, c.hookIndex)) == Some(s2)
    ensures StepClaim(s2, ClaimRuns(c.capture.win, true)) == Some(t)
    ensures t == Recorded(s, c, s.world.windows[c.capture.win], s.issued[c.owner := c.hookIndex])
  {
    s1 := s.(task := Capturing(c.capture.generation, Attempts));
    CaptureClaims(s1, c);
    s2 := s1.(task := Claiming(c, Attempts - 1), issued := s.issued[c.owner := c.hookIndex]);
    CapturedTakesHold(s, c);
    AcceptedRecords(s2, c, Attempts - 1);
    t := Recorded(s2, c, s.world.windows[c.capture.win], s2.issued);
  }

  lemma PinWinIs(x: Win, c: Claimant)
    requires TakesHold(x.w, c.capture)
    ensures PinWin(x, c) ==
            Win(PinEffect(x.w, c.owner, Decimal(c.hookIndex), x.w.columns, x.w.rows), false, x.claims + {c.hookIndex})
    ensures x.w.size.None?
  {
  }

  lemma ReleaseUndoes(x: Win, c: Claimant)
    requires TakesHold(x.w, c.capture) && Clean(x.w) && c.owner != "" && Pair(c.hookIndex) !! x.w.hooks.Keys
    requires c.hookIndex !in x.claims
    ensures RestoreWin(PinWin(x, c), c.owner, c.hookIndex) == x.(touched := false)
  {
    PinWinIs(x, c);
    ClaimThenRestore(x.w, c.owner, c.hookIndex);
    OneMoreOneLess(x.claims, c.hookIndex);
  }

  lemma OneMoreOneLess(claims: set<nat>, n: nat)
    requires n !in claims
    ensures claims + {n} - {n} == claims
  {
  }

  lemma CallAfterPin(t: Sys, key: Key, n: nat)
    requires t.task == Idle && n < |t.handles| && t.handles[n] == Handle(key, false)
    requires key in t.pins && t.pins[key].references == 1 && t.pins[key].restore
    ensures StepRelease(t, Call(n)) ==
            Some(t.(handles := t.handles[n := Handle(key, true)], pins := t.pins[key := t.pins[key].(references := 0)],
                    task := Releasing(key)))
  {
  }

  lemma RestoreAfterCall(u: Sys, key: Key)
    requires u.task == Releasing(key) && key in u.pins
    ensures StepRelease(u, ReleaseRuns(true, true)) ==
            Some(u.(world := RestoreOn(u.world, key, u.pins[key].owner, u.pins[key].hookIndex), pins := u.pins - {key}, task := Idle))
  {
  }

  lemma WorldAgain(world: World, id: string, y: Win, x: Win)
    ensures Place(Place(world, id, y), id, x) == Place(world, id, x)
  {
    assert world.windows[id := y][id := x] == world.windows[id := x];
  }

  lemma PinsAgain(pins: Pins, key: Key, p: Pin, q: Pin)
    requires key !in pins
    ensures pins[key := p][key := q] - {key} == pins
  {
  }

  lemma UndoneThere(world: World, c: Claimant, x: Win)
    requires world.generation == c.capture.generation && TakesHold(x.w, c.capture) && Clean(x.w) && c.owner != ""
    requires Pair(c.hookIndex) !! x.w.hooks.Keys && c.hookIndex !in x.claims
    ensures RestoreOn(Place(world, c.capture.win, PinWin(x, c)), KeyOf(c), c.owner, c.hookIndex) ==
            Place(world, c.capture.win, x.(touched := false))
  {
    ReleaseUndoes(x, c);
    WorldAgain(world, c.capture.win, PinWin(x, c), x.(touched := false));
  }

  lemma FreshHere(s: Sys, c: Claimant)
    requires Inv(s) && CanPin(s, c)
    ensures var x := s.world.windows[c.capture.win];
            Pair(c.hookIndex) !! x.w.hooks.Keys && c.hookIndex !in x.claims && s.world.generation == c.capture.generation
            && c.owner != ""
  {
    assert WinInv(s.world.windows[c.capture.win], c.capture.win, s.world.generation, s.issued);
  }

  function Asked(t: Sys, key: Key, n: nat, pin: Pin): Sys
    requires n < |t.handles|
  {
    t.(handles := t.handles[n := Handle(key, true)], pins := t.pins[key := pin.(references := 0)], task := Releasing(key))
  }

  lemma ReleaseRunsBack(t: Sys, key: Key, n: nat, pin: Pin)
    requires t.task == Idle && n < |t.handles| && t.handles[n] == Handle(key, false)
    requires key in t.pins && t.pins[key] == pin && pin.references == 1 && pin.restore
    ensures StepRelease(t, Call(n)) == Some(Asked(t, key, n, pin))
    ensures StepRelease(Asked(t, key, n, pin), ReleaseRuns(true, true)) ==
            Some(Sys(RestoreOn(t.world, key, pin.owner, pin.hookIndex), t.pins[key := pin.(references := 0)] - {key}, Idle,
                     t.handles[n := Handle(key, true)], t.issued))
  {
    CallAfterPin(t, key, n);
    RestoreAfterCall(Asked(t, key, n, pin), key);
  }

  /** Pinned and released without anyone in between, the window and the factory's pins are what they were. */
  lemma PinAndRelease(s: Sys, c: Claimant, t: Sys) returns (u: Sys, v: Sys)
    requires Inv(s) && CanPin(s, c)
    requires t == Recorded(s, c, s.world.windows[c.capture.win], s.issued[c.owner := c.hookIndex])
    ensures StepRelease(t, Call(|s.handles|)) == Some(u) && StepRelease(u, ReleaseRuns(true, true)) == Some(v)
    ensures v == Sys(Place(s.world, c.capture.win, s.world.windows[c.capture.win].(touched := false)), s.pins, Idle,
                     s.handles + [Handle(KeyOf(c), true)], s.issued[c.owner := c.hookIndex])
  {
    var (key, pin) := (KeyOf(c), Pin(1, c.capture.mode, true, c.owner, c.hookIndex));
    ReleaseRunsBack(t, key, |s.handles|, pin);
    u := Asked(t, key, |s.handles|, pin);
    FreshHere(s, c);
    CapturedTakesHold(s, c);
    UndoneThere(s.world, c, s.world.windows[c.capture.win]);
    PinsAgain(s.pins, key, pin, pin.(references := 0));
    LastCalled(s.handles, key);
    v := StepRelease(u, ReleaseRuns(true, true)).value;
  }

  lemma LastCalled(handles: seq<Handle>, key: Key)
    ensures (handles + [Handle(key, false)])[|handles| := Handle(key, true)] == handles + [Handle(key, true)]
  {
  }
}
