/**
 What a failed rollback leaves behind. pinWindow forgets the owner and hook index of a claim whose
 rollback failed, so nothing ever undoes a claim that had taken hold; and the hooks it left erase the
 mark of every later claim on that window.
 */
module WindowLeftovers {
  import opened Options
  import opened Decimals
  import opened TmuxWindow
  import opened TmuxPinArgs
  import opened WindowEffects
  import opened WindowPins

  /** The claims standing on a window that no pin and no rollback answers for. */
  function Stray(x: Win, holder: Option<(string, nat)>): set<nat> {
    if holder.Some? then x.claims - {holder.value.1} else x.claims
  }

  function StrayOn(s: Sys, id: string): set<nat>
    requires id in s.world.windows
  {
    Stray(s.world.windows[id], Holder(s.pins, s.task, Key(s.world.generation, id)))
  }

  /** The hook index a step abandons on a window: that of a claim that took hold and whose rollback was lost. */
  function Abandoned(s: Sys, a: Action, id: string): set<nat>
    requires id in s.world.windows
  {
    if a == OnClaim(RollbackRuns(false, false)) && s.task.RollingBack? && KeyOf(s.task.claim) == Key(s.world.generation, id)
    then {s.task.claim.hookIndex} * s.world.windows[id].claims
    else {}
  }

  // ----- one step -----

  lemma HostStray(s: Sys, a: HostStep, id: string)
    requires StepHost(s.world, s.issued, a).Some? && id in s.world.windows && id in StepHost(s.world, s.issued, a).value.windows
    ensures StrayOn(s.(world := StepHost(s.world, s.issued, a).value), id) == StrayOn(s, id)
  {
  }

  lemma CaptureStray(s: Sys, c: Claimant, tries: nat, id: string)
    requires id in s.world.windows && s.task.Capturing? && AfterCapture(s, c, tries).Some?
    ensures id in AfterCapture(s, c, tries).value.world.windows
    ensures StrayOn(AfterCapture(s, c, tries).value, id) == StrayOn(s, id)
  {
  }

  /** A claim's outcome, on one window; `y` is what the claim made of it. */
  lemma OutcomeStray(s: Sys, c: Claimant, tries: nat, reply: Reply, replied: bool, key: Key, x: Win, y: Win)
    requires KeyOf(c) !in s.pins && s.task.Claiming? && (reply.Conflict? ==> c.capture.inherited)
    requires c.capture.inherited ==> c.hookIndex !in x.claims
    requires if c.capture.inherited && reply.Accepted? && key == KeyOf(c) then y == x || y.claims == x.claims + {c.hookIndex}
             else y == x
    ensures var t := AfterClaim(s, c, tries, reply, replied);
            Stray(y, Holder(t.pins, t.task, key)) == Stray(x, Holder(s.pins, s.task, key))
  {
    AfterClaimHolds(s, c, tries, reply, replied, key);
  }

  lemma PlacedStray(s: Sys, c: Claimant, tries: nat, y: Win, reply: Reply, replied: bool, current: string, id: string)
    requires KeyOf(c) !in s.pins && s.task.Claiming? && (reply.Conflict? ==> c.capture.inherited)
    requires current in s.world.windows && id in s.world.windows
    requires c.capture.inherited ==> c.hookIndex !in s.world.windows[id].claims
    requires var x := s.world.windows[current];
             if c.capture.inherited && reply.Accepted? && Key(s.world.generation, current) == KeyOf(c)
             then y == x || y.claims == x.claims + {c.hookIndex}
             else y == x
    ensures var t := AfterClaim(s.(world := Place(s.world, current, y)), c, tries, reply, replied);
            id in t.world.windows && StrayOn(t, id) == StrayOn(s, id)
  {
    var u := s.(world := Place(s.world, current, y));
    var x := s.world.windows[id];
    OutcomeStray(u, c, tries, reply, replied, Key(s.world.generation, id), x, if current == id then y else x);
  }

  lemma ClaimRunsStray(s: Sys, current: string, replied: bool, id: string)
    requires TaskInv(s.task, s.pins, s.issued) && FreshInv(s.world, s.task)
    requires StepClaim(s, ClaimRuns(current, replied)).Some? && id in s.world.windows
    requires s.world.windows[current].w.id == current && s.world.windows[current].w.generation == s.world.generation
    ensures var t := StepClaim(s, ClaimRuns(current, replied)).value;
            id in t.world.windows && StrayOn(t, id) == StrayOn(s, id)
  {
    var (c, x) := (s.task.claim, s.world.windows[current]);
    ClaimRunsIs(s, current, replied);
    PinShape(x, c);
    PlacedStray(s, c, s.task.tries, PinWin(x, c), PinReply(x.w, c.capture), replied, current, id);
  }

  lemma PinShape(x: Win, c: Claimant)
    ensures var y := PinWin(x, c);
            if c.capture.inherited && PinReply(x.w, c.capture).Accepted? && Key(x.w.generation, x.w.id) == KeyOf(c)
            then y.claims == x.claims + {c.hookIndex}
            else y == x
    ensures PinReply(x.w, c.capture).Conflict? ==> c.capture.inherited
  {
  }

  lemma ClaimLostStray(s: Sys, id: string)
    requires TaskInv(s.task, s.pins, s.issued) && FreshInv(s.world, s.task)
    requires StepClaim(s, ClaimLost).Some? && id in s.world.windows
    ensures var t := StepClaim(s, ClaimLost).value; id in t.world.windows && StrayOn(t, id) == StrayOn(s, id)
  {
    var x := s.world.windows[id];
    OutcomeStray(s, s.task.claim, s.task.tries, Rejected, false, Key(s.world.generation, id), x, x);
  }

  /** A restore of the holder's own claim leaves the strays as they were, whether the holder stays or goes. */
  lemma RestoreStray(world: World, key: Key, owner: string, hookIndex: nat, id: string,
                     before: Option<(string, nat)>, after: Option<(string, nat)>)
    requires id in world.windows
    requires if key == Key(world.generation, id) then before == Some((owner, hookIndex)) && (after.Some? ==> after == before)
             else after == before
    ensures var v := RestoreOn(world, key, owner, hookIndex);
            id in v.windows && Stray(v.windows[id], after) == Stray(world.windows[id], before)
  {
    RestoreAt(world, key, owner, hookIndex, id);
    assert id in RestoreOn(world, key, owner, hookIndex).windows.Keys;
  }

  /** A rollback that never reached tmux: its claim, if it stands, is nobody's from now on. */
  lemma LostRollbackStray(s: Sys, task: Task, id: string)
    requires TaskInv(s.task, s.pins, s.issued) && s.task.RollingBack? && !task.RollingBack? && id in s.world.windows
    ensures StrayOn(s.(task := task), id) == StrayOn(s, id) + Abandoned(s, OnClaim(RollbackRuns(false, false)), id)
  {
  }

  lemma RunRollbackStray(s: Sys, task: Task, id: string)
    requires TaskInv(s.task, s.pins, s.issued) && s.task.RollingBack? && !task.RollingBack? && id in s.world.windows
    ensures var (c, world) := (s.task.claim, RestoreOn(s.world, KeyOf(s.task.claim), s.task.claim.owner, s.task.claim.hookIndex));
            id in world.windows && StrayOn(s.(world := world, task := task), id) == StrayOn(s, id)
  {
    var (c, key) := (s.task.claim, Key(s.world.generation, id));
    RestoreStray(s.world, KeyOf(c), c.owner, c.hookIndex, id, Holder(s.pins, s.task, key), Holder(s.pins, task, key));
    RestoreAt(s.world, KeyOf(c), c.owner, c.hookIndex, id);
  }

  lemma RollbackStray(s: Sys, delivered: bool, ok: bool, id: string)
    requires TaskInv(s.task, s.pins, s.issued) && StepClaim(s, RollbackRuns(delivered, ok)).Some? && id in s.world.windows
    ensures var t := StepClaim(s, RollbackRuns(delivered, ok)).value;
            id in t.world.windows && StrayOn(t, id) == StrayOn(s, id) + Abandoned(s, OnClaim(RollbackRuns(delivered, ok)), id)
  {
    var task := if ok && s.task.again then Capturing(s.task.claim.capture.generation, s.task.tries) else Idle;
    if delivered {
      RunRollbackStray(s, task, id);
    } else {
      LostRollbackStray(s, task, id);
    }
  }

  lemma IdleStray(s: Sys, task: Task, id: string)
    requires id in s.world.windows && !s.task.RollingBack? && !task.RollingBack?
    ensures StrayOn(s.(task := task), id) == StrayOn(s, id)
  {
  }

  lemma OtherStray(s: Sys, a: ClaimStep, id: string)
    requires Inv(s) && StepClaim(s, a).Some? && id in s.world.windows && !a.RollbackRuns?
    ensures var t := StepClaim(s, a).value; id in t.world.windows && StrayOn(t, id) == StrayOn(s, id)
  {
    match a
    case Begin(generation) => IdleStray(s, Capturing(generation, Attempts), id);
    case CaptureFails => IdleStray(s, Idle, id);
    case CaptureWindow(c, owner, hookIndex) => CaptureStray(s, Claimant(c, owner, hookIndex), s.task.tries - 1, id);
    case ClaimLost => ClaimLostStray(s, id);
    case ClaimRuns(current, replied) =>
      WindowsKnowThemselves(s.world, s.issued, current);
      ClaimRunsStray(s, current, replied, id);
  }

  lemma ClaimStray(s: Sys, a: ClaimStep, id: string)
    requires Inv(s) && StepClaim(s, a).Some? && id in s.world.windows
    ensures var t := StepClaim(s, a).value;
            id in t.world.windows && StrayOn(t, id) == StrayOn(s, id) + Abandoned(s, OnClaim(a), id)
  {
    if a.RollbackRuns? {
      RollbackStray(s, a.delivered, a.ok, id);
    } else {
      OtherStray(s, a, id);
    }
  }

  lemma RestoredStray(s: Sys, key: Key, delivered: bool, ok: bool, id: string)
    requires key in s.pins && s.pins[key].restore && (ok ==> delivered) && id in s.world.windows && !s.task.RollingBack?
    ensures var t := Restored(s, key, delivered, ok); id in t.world.windows && StrayOn(t, id) == StrayOn(s, id)
  {
    var (t, here) := (Restored(s, key, delivered, ok), Key(s.world.generation, id));
    if delivered {
      RestoreStray(s.world, key, s.pins[key].owner, s.pins[key].hookIndex, id,
                   Holder(s.pins, s.task, here), Holder(t.pins, t.task, here));
      RestoreAt(s.world, key, s.pins[key].owner, s.pins[key].hookIndex, id);
    }
  }

  lemma SameHolderStray(s: Sys, t: Sys, id: string)
    requires id in s.world.windows && t.world == s.world
    requires forall key :: Holder(t.pins, t.task, key) == Holder(s.pins, s.task, key)
    ensures StrayOn(t, id) == StrayOn(s, id)
  {
  }

  lemma CallHolders(s: Sys, i: nat)
    requires StepRelease(s, Call(i)).Some?
    ensures var t := StepRelease(s, Call(i)).value;
            t.world == s.world && forall key :: Holder(t.pins, t.task, key) == Holder(s.pins, s.task, key)
  {
  }

  lemma CleanStray(s: Sys, key: Key, delivered: bool, ok: bool, id: string)
    requires StepRelease(s, CleanNext(key, delivered, ok)).Some? && id in s.world.windows
    ensures var t := StepRelease(s, CleanNext(key, delivered, ok)).value; id in t.world.windows && StrayOn(t, id) == StrayOn(s, id)
  {
    var u := s.(task := Cleaning(s.task.left - {key}));
    SameHolderStray(s, u, id);
    if NeedsRestore(s.pins, key) {
      RestoredStray(u, key, delivered, ok, id);
    } else {
      SameHolderStray(u, u.(pins := Forget(s.pins, key)), id);
    }
  }

  lemma ReleaseStray(s: Sys, a: ReleaseStep, id: string)
    requires Inv(s) && StepRelease(s, a).Some? && id in s.world.windows
    ensures var t := StepRelease(s, a).value; id in t.world.windows && StrayOn(t, id) == StrayOn(s, id)
  {
    match a
    case Call(i) =>
      CallHolders(s, i);
      SameHolderStray(s, StepRelease(s, a).value, id);
    case ReleaseRuns(delivered, ok) =>
      RestoredStray(s, s.task.key, delivered, ok, id);
      SameHolderStray(Restored(s, s.task.key, delivered, ok), StepRelease(s, a).value, id);
    case BeginCleanup => SameHolderStray(s, StepRelease(s, a).value, id);
    case CleanNext(key, delivered, ok) => CleanStray(s, key, delivered, ok, id);
    case EndCleanup => SameHolderStray(s, StepRelease(s, a).value, id);
  }

  // ----- runs -----

  /**
   The claims left behind on a window grow at exactly one kind of step, the lost rollback of a claim that
   had taken hold, and never shrink while the window lives.
   */
  lemma LeftBehindExactly(ss: seq<Sys>, acts: seq<Action>, generation: string, i: nat, id: string)
    requires IsRun(ss, acts, generation) && i < |acts| && id in ss[i].world.windows && id in ss[i + 1].world.windows
    ensures StrayOn(ss[i + 1], id) == StrayOn(ss[i], id) + Abandoned(ss[i], acts[i], id)
  {
    RunKeepsInv(ss, acts, generation, i);
    RunStep(ss, acts, generation, i);
    match acts[i]
    case OnHost(a) => HostStray(ss[i], a, id);
    case OnClaim(a) => ClaimStray(ss[i], a, id);
    case OnRelease(a) => ReleaseStray(ss[i], a, id);
  }

  /** So a window nobody holds bears a trace of Wrap exactly when some claim on it was left behind. */
  lemma TraceMeansLeftBehind(ss: seq<Sys>, acts: seq<Action>, generation: string, i: nat, id: string)
    requires IsRun(ss, acts, generation) && i < |ss| && id in ss[i].world.windows
    requires Holder(ss[i].pins, ss[i].task, Key(ss[i].world.generation, id)).None?
    ensures Clean(ss[i].world.windows[id].w) <==> StrayOn(ss[i], id) == {}
  {
    NoTraceWithoutPin(ss, acts, generation, i, id);
  }

  // ----- two runs -----

  lemma Extend(ss: seq<Sys>, acts: seq<Action>, generation: string, a: Action, t: Sys)
    requires IsRun(ss, acts, generation) && Step(ss[|acts|], a) == Some(t)
    ensures IsRun(ss + [t], acts + [a], generation)
  {
    forall i | 0 <= i < |acts + [a]| ensures Step((ss + [t])[i], (acts + [a])[i]) == Some((ss + [t])[i + 1]) {
      if i < |acts| {
        RunStep(ss, acts, generation, i);
      }
    }
  }

  /** The captured window as it was before any claim. */
  function Plain(c: Capture): Window {
    Window(c.generation, c.win, None, c.mode, "", map[], Decimal(c.columns), Decimal(c.rows), c.status)
  }

  /** A server with that one window, and a factory without pins. */
  function Alone(c: Capture, x: Win, task: Task, handles: seq<Handle>, issued: map<string, nat>): Sys {
    Sys(World(c.generation, map[c.win := x]), map[], task, handles, issued)
  }

  lemma PlainIsUntouched(c: Capture)
    ensures Untouched(Plain(c), map[]) && WrapKeys(Plain(c).hooks) == {}
  {
  }

  lemma OneWindow(c: Capture, x: Win, y: Win)
    ensures Place(World(c.generation, map[c.win := x]), c.win, y) == World(c.generation, map[c.win := y])
    ensures Place(World(c.generation, map[]), c.win, y) == World(c.generation, map[c.win := y])
  {
    assert map[c.win := x][c.win := y] == map[c.win := y];
    var none: map<string, Win> := map[];
    assert none[c.win := y] == map[c.win := y];
  }

  lemma Push(ss: seq<Sys>, acts: seq<Action>, generation: string, a: Action, t: Sys) returns (ss': seq<Sys>, acts': seq<Action>)
    requires IsRun(ss, acts, generation) && Step(ss[|acts|], a) == Some(t)
    ensures ss' == ss + [t] && acts' == acts + [a] && IsRun(ss', acts', generation)
  {
    Extend(ss, acts, generation, a, t);
    ss', acts' := ss + [t], acts + [a];
  }

  lemma CreateStep(c: Capture)
    ensures Step(Start(c.generation), OnHost(Create(Plain(c)))) == Some(Alone(c, Win(Plain(c), false, {}), Idle, [], map[]))
  {
    PlainIsUntouched(c);
    OneWindow(c, Win(Plain(c), false, {}), Win(Plain(c), false, {}));
  }

  lemma CaptureSteps(c: Capture, x: Win, handles: seq<Handle>, issued: map<string, nat>, owner: string, n: nat)
    requires c.inherited && Pinnable(c, owner, n) && Matches(x.w, c) && x.w.size.None?
    requires owner !in issued && n !in issued.Values && Pair(n) !! x.w.hooks.Keys
    ensures var u := Alone(c, x, Capturing(c.generation, Attempts), handles, issued);
            && Step(Alone(c, x, Idle, handles, issued), OnClaim(Begin(c.generation))) == Some(u)
            && Step(u, OnClaim(CaptureWindow(c, owner, n))) ==
               Some(Alone(c, x, Claiming(Claimant(c, owner, n), 2), handles, issued[owner := n]))
  {
  }

  /** What a claim that took hold makes of a window. */
  predicate Pinned(x: Win, y: Win, n: nat) {
    && !y.touched && y.claims == x.claims + {n} && ByWrap(y.w) && WrapKeys(y.w.hooks) == WrapKeys(x.w.hooks) + Pair(n)
    && y.w == x.w.(size := y.w.size, owner := y.w.owner, hooks := y.w.hooks)
    && y.w.hooks - Pair(n) == x.w.hooks - Pair(n)
  }

  lemma PinnedByClaim(c: Capture, x: Win, owner: string, n: nat)
    requires c.inherited && Matches(x.w, c) && x.w.size.None? && owner != ""
    ensures var y := PinWin(x, Claimant(c, owner, n));
            Pinned(x, y, n) && (Armed(x.w, AfterResizeWindow) ==> ByWrap(RestoreWin(y, owner, n).w))
  {
    PinEffectShape(x.w, owner, n);
    ClaimThenRestore(x.w, owner, n);
  }

  lemma ClaimLostStep(c: Capture, x: Win, y: Win, claim: Claimant, handles: seq<Handle>, issued: map<string, nat>)
    requires claim.capture == c && c.inherited && PinWin(x, claim) == y
    ensures Step(Alone(c, x, Claiming(claim, 2), handles, issued), OnClaim(ClaimRuns(c.win, false))) ==
            Some(Alone(c, y, RollingBack(claim, 2, false), handles, issued))
  {
    OneWindow(c, x, y);
  }

  lemma Recorded(c: Capture, y: Win, claim: Claimant, issued: map<string, nat>)
    requires claim.capture == c && c.inherited
    ensures AfterClaim(Alone(c, y, Claiming(claim, 2), [], issued), claim, 2, Accepted, true) ==
            WithPin(c, y, 1, Idle, false, claim.owner, claim.hookIndex, issued)
  {
    var none: Pins := map[];
    var (key, pin) := (Key(c.generation, c.win), Pin(1, c.mode, true, claim.owner, claim.hookIndex));
    assert none[key := pin] == map[key := pin];
    assert [] + [Handle(key, false)] == [Handle(key, false)];
  }

  lemma AnsweredIs(s: Sys, current: string, x: Win, y: Win)
    requires s.task.Claiming? && current in s.world.windows && s.world.windows[current] == x
    requires PinWin(x, s.task.claim) == y && PinReply(x.w, s.task.claim.capture) == Accepted
    ensures StepClaim(s, ClaimRuns(current, true)) ==
            Some(AfterClaim(s.(world := Place(s.world, current, y)), s.task.claim, s.task.tries, Accepted, true))
  {
    ClaimRunsIs(s, current, true);
  }

  lemma ClaimAnsweredStep(c: Capture, x: Win, y: Win, claim: Claimant, issued: map<string, nat>)
    requires claim.capture == c && PinWin(x, claim) == y && PinReply(x.w, c) == Accepted
    ensures StepClaim(Alone(c, x, Claiming(claim, 2), [], issued), ClaimRuns(c.win, true)) ==
            Some(AfterClaim(Alone(c, y, Claiming(claim, 2), [], issued), claim, 2, Accepted, true))
  {
    var s := Alone(c, x, Claiming(claim, 2), [], issued);
    AnsweredIs(s, c.win, x, y);
    OneWindow(c, x, y);
    assert s.(world := Place(s.world, c.win, y)) == Alone(c, y, Claiming(claim, 2), [], issued);
  }

  lemma RollbackLost(c: Capture, x: Win, claim: Claimant, handles: seq<Handle>, issued: map<string, nat>)
    ensures Step(Alone(c, x, RollingBack(claim, 2, false), handles, issued), OnClaim(RollbackRuns(false, false))) ==
            Some(Alone(c, x, Idle, handles, issued))
  {
  }

  /** From any idle state to a claim whose reply is lost. */
  lemma ClaimAndLose(c: Capture, x: Win, owner: string, n: nat, ss0: seq<Sys>, acts0: seq<Action>, issued: map<string, nat>)
    returns (ss: seq<Sys>, acts: seq<Action>, y: Win)
    requires c.inherited && Pinnable(c, owner, n) && Matches(x.w, c) && x.w.size.None? && owner != ""
    requires owner !in issued && n !in issued.Values && Pair(n) !! x.w.hooks.Keys
    requires IsRun(ss0, acts0, c.generation) && ss0[|acts0|] == Alone(c, x, Idle, [], issued)
    ensures IsRun(ss, acts, c.generation) && |acts| == |acts0| + 3 && Pinned(x, y, n)
    ensures ss[|acts|] == Alone(c, y, RollingBack(Claimant(c, owner, n), 2, false), [], issued[owner := n])
  {
    CaptureSteps(c, x, [], issued, owner, n);
    y := PinWin(x, Claimant(c, owner, n));
    PinnedByClaim(c, x, owner, n);
    ClaimLostStep(c, x, y, Claimant(c, owner, n), [], issued[owner := n]);
    ss, acts := PushThree(ss0, acts0, c.generation,
                          OnClaim(Begin(c.generation)), Alone(c, x, Capturing(c.generation, Attempts), [], issued),
                          OnClaim(CaptureWindow(c, owner, n)), Alone(c, x, Claiming(Claimant(c, owner, n), 2), [], issued[owner := n]),
                          OnClaim(ClaimRuns(c.win, false)), Alone(c, y, RollingBack(Claimant(c, owner, n), 2, false), [], issued[owner := n]));
  }

  /** From any idle state to a claim that is answered. */
  lemma ClaimAndKeep(c: Capture, x: Win, owner: string, n: nat, ss0: seq<Sys>, acts0: seq<Action>, issued: map<string, nat>)
    returns (ss: seq<Sys>, acts: seq<Action>, y: Win)
    requires c.inherited && Pinnable(c, owner, n) && Matches(x.w, c) && x.w.size.None? && owner != ""
    requires owner !in issued && n !in issued.Values && Pair(n) !! x.w.hooks.Keys
    requires IsRun(ss0, acts0, c.generation) && ss0[|acts0|] == Alone(c, x, Idle, [], issued)
    ensures IsRun(ss, acts, c.generation) && |ss| == |ss0| + 3 && ss[..|ss0|] == ss0
    ensures acts == acts0 + [OnClaim(Begin(c.generation)), OnClaim(CaptureWindow(c, owner, n)), OnClaim(ClaimRuns(c.win, true))]
    ensures ss[|acts|] == WithPin(c, y, 1, Idle, false, owner, n, issued[owner := n])
    ensures Armed(x.w, AfterResizeWindow) ==> ByWrap(RestoreWin(y, owner, n).w)
  {
    CaptureSteps(c, x, [], issued, owner, n);
    y := PinWin(x, Claimant(c, owner, n));
    PinnedByClaim(c, x, owner, n);
    ClaimAnsweredStep(c, x, y, Claimant(c, owner, n), issued[owner := n]);
    Recorded(c, y, Claimant(c, owner, n), issued[owner := n]);
    ss, acts := PushThree(ss0, acts0, c.generation,
                          OnClaim(Begin(c.generation)), Alone(c, x, Capturing(c.generation, Attempts), [], issued),
                          OnClaim(CaptureWindow(c, owner, n)), Alone(c, x, Claiming(Claimant(c, owner, n), 2), [], issued[owner := n]),
                          OnClaim(ClaimRuns(c.win, true)), WithPin(c, y, 1, Idle, false, owner, n, issued[owner := n]));
  }

  lemma PushThree(ss0: seq<Sys>, acts0: seq<Action>, generation: string, a: Action, s: Sys, b: Action, t: Sys, d: Action, u: Sys)
    returns (ss: seq<Sys>, acts: seq<Action>)
    requires IsRun(ss0, acts0, generation)
    requires Step(ss0[|acts0|], a) == Some(s) && Step(s, b) == Some(t) && Step(t, d) == Some(u)
    ensures IsRun(ss, acts, generation) && acts == acts0 + [a, b, d] && ss == ss0 + [s, t, u]
  {
    ss, acts := Push(ss0, acts0, generation, a, s);
    ss, acts := Push(ss, acts, generation, b, t);
    ss, acts := Push(ss, acts, generation, d, u);
  }

  /**
   When the rollback of a claim whose reply was lost is lost too, nothing holds the window, nothing will
   undo the claim, and the window still bears it, though the host never touched it. This happens to every
   window that can be pinned.
   */
  lemma LostRollbackLeaves(c: Capture, owner: string, n: nat) returns (ss: seq<Sys>, acts: seq<Action>, y: Win)
    requires c.inherited && Pinnable(c, owner, n)
    ensures IsRun(ss, acts, c.generation) && |acts| == 5
    ensures ss[5] == Alone(c, y, Idle, [], map[owner := n]) && Pinned(Win(Plain(c), false, {}), y, n)
    ensures ByWrap(y.w) && !Clean(y.w) && !y.touched && StrayOn(ss[5], c.win) == {n}
  {
    var x := Win(Plain(c), false, {});
    var none: map<string, nat> := map[];
    assert none[owner := n] == map[owner := n];
    CreateStep(c);
    ss, acts := Push([Start(c.generation)], [], c.generation, OnHost(Create(Plain(c))), Alone(c, x, Idle, [], none));
    ss, acts, y := ClaimAndLose(c, x, owner, n, ss, acts, none);
    RollbackLost(c, y, Claimant(c, owner, n), [], map[owner := n]);
    ss, acts := Push(ss, acts, c.generation, OnClaim(RollbackRuns(false, false)), Alone(c, y, Idle, [], map[owner := n]));
    assert {} + {n} == {n};
  }

  // ----- the next claim on such a window -----

  function WithPin(c: Capture, x: Win, references: int, task: Task, called: bool, owner: string, n: nat, issued: map<string, nat>): Sys {
    var key := Key(c.generation, c.win);
    Sys(World(c.generation, map[c.win := x]), map[key := Pin(references, c.mode, true, owner, n)], task, [Handle(key, called)], issued)
  }

  /** The host unsets the size that was left behind: that takes the mark along, and leaves the hooks. */
  function Reset(y: Win): Win {
    Win(HostEffect(y.w, UnsetSize), true, y.claims)
  }

  lemma ResetIsArmed(c: Capture, y: Win, n: nat)
    requires Pinned(Win(Plain(c), false, {}), y, n)
    ensures var w := Reset(y).w; w.size.None? && Armed(w, AfterResizeWindow) && Matches(w, c) && w.hooks.Keys <= Pair(n)
  {
    assert Watching(Reset(y).w, n);
    assert y.w.hooks - Pair(n) == map[];
    WatchingIsArmed(Reset(y).w, n);
    NothingElse(y.w.hooks, Pair(n));
  }

  lemma NothingElse<K, V>(m: map<K, V>, keys: set<K>)
    ensures m - keys == map[] ==> m.Keys <= keys
  {
    assert forall k :: k in m && k !in keys ==> k in m - keys;
  }

  lemma ResetStep(c: Capture, y: Win, issued: map<string, nat>)
    ensures Step(Alone(c, y, Idle, [], issued), OnHost(Size(c.win, UnsetSize))) == Some(Alone(c, Reset(y), Idle, [], issued))
  {
    OneWindow(c, y, Reset(y));
  }

  lemma LastRelease(c: Capture, x: Win, issued: map<string, nat>, owner: string, n: nat)
    ensures Step(WithPin(c, x, 1, Idle, false, owner, n, issued), OnRelease(Call(0))) ==
            Some(WithPin(c, x, 0, Releasing(Key(c.generation, c.win)), true, owner, n, issued))
  {
    var (key, pin) := (Key(c.generation, c.win), Pin(1, c.mode, true, owner, n));
    assert map[key := pin][key := pin.(references := 0)] == map[key := pin.(references := 0)];
    assert [Handle(key, false)][0 := Handle(key, true)] == [Handle(key, true)];
  }

  lemma RestoreAnswered(c: Capture, x: Win, issued: map<string, nat>, owner: string, n: nat)
    ensures Step(WithPin(c, x, 0, Releasing(Key(c.generation, c.win)), true, owner, n, issued), OnRelease(ReleaseRuns(true, true))) ==
            Some(Alone(c, RestoreWin(x, owner, n), Idle, [Handle(Key(c.generation, c.win), true)], issued))
  {
    OneWindow(c, x, RestoreWin(x, owner, n));
    var (key, pin) := (Key(c.generation, c.win), Pin(0, c.mode, true, owner, n));
    assert map[key := pin] - {key} == map[];
  }

  /** The end of a viewer's pin, with nothing going wrong. */
  lemma ReleaseAndRestore(c: Capture, x: Win, issued: map<string, nat>, owner: string, n: nat, ss0: seq<Sys>, acts0: seq<Action>)
    returns (ss: seq<Sys>, acts: seq<Action>)
    requires IsRun(ss0, acts0, c.generation) && ss0[|acts0|] == WithPin(c, x, 1, Idle, false, owner, n, issued)
    ensures IsRun(ss, acts, c.generation) && acts == acts0 + [OnRelease(Call(0)), OnRelease(ReleaseRuns(true, true))]
    ensures |ss| == |ss0| + 2 && ss[..|ss0|] == ss0
    ensures ss[|acts|] == Alone(c, RestoreWin(x, owner, n), Idle, [Handle(Key(c.generation, c.win), true)], issued)
  {
    LastRelease(c, x, issued, owner, n);
    RestoreAnswered(c, x, issued, owner, n);
    ss, acts := Push(ss0, acts0, c.generation, OnRelease(Call(0)),
                     WithPin(c, x, 0, Releasing(Key(c.generation, c.win)), true, owner, n, issued));
    ss, acts := Push(ss, acts, c.generation, OnRelease(ReleaseRuns(true, true)),
                     Alone(c, RestoreWin(x, owner, n), Idle, [Handle(Key(c.generation, c.win), true)], issued));
  }

  /**
   On such a window a later viewer's pin and its successful restore, with no failure at all, leave Wrap's
   size in place once more: the hook left behind erased the mark the restore looks for.
   */
  lemma LaterRestoreIsVoid(c: Capture, owner: string, n: nat, later: string, m: nat)
    returns (ss: seq<Sys>, acts: seq<Action>, before: Win, after: Win)
    requires c.inherited && Pinnable(c, owner, n) && Pinnable(c, later, m) && owner != later && n != m
    ensures IsRun(ss, acts, c.generation) && |acts| == 11
    ensures acts[6..] == [OnClaim(Begin(c.generation)), OnClaim(CaptureWindow(c, later, m)), OnClaim(ClaimRuns(c.win, true)),
                          OnRelease(Call(0)), OnRelease(ReleaseRuns(true, true))]
    ensures ss[6] == Alone(c, before, Idle, [], map[owner := n]) && before.w.size.None?
    ensures ss[11] == Alone(c, after, Idle, [Handle(Key(c.generation, c.win), true)], map[owner := n][later := m]) && ByWrap(after.w)
  {
    var y: Win, z: Win;
    ss, acts, y := LostRollbackLeaves(c, owner, n);
    before := Reset(y);
    ResetStep(c, y, map[owner := n]);
    ResetIsArmed(c, y, n);
    PairsAreApart(n, m);
    ss, acts := Push(ss, acts, c.generation, OnHost(Size(c.win, UnsetSize)), Alone(c, before, Idle, [], map[owner := n]));
    ss, acts, z := ClaimAndKeep(c, before, later, m, ss, acts, map[owner := n]);
    ss, acts := ReleaseAndRestore(c, z, map[owner := n][later := m], later, m, ss, acts);
    after := RestoreWin(z, later, m);
  }
}
