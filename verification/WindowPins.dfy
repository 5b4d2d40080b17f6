/**
 Reference-counted pinning of window sizes (pinWindow, releaseWindow, Cleanup and restoreWindowPin in
 internal/mirror/viewer.go) against a tmux server on which the host sizes, creates and kills windows
 and restarts the server at any moment, and on which every command may be lost, or take effect and
 lose its reply.

 One task at a time holds the factory's lock; each tmux command inside it is a step of its own, and
 the host moves between them.
 */
module WindowPins {
  import opened Options
  import opened Decimals
  import opened TmuxWindow
  import opened TmuxPinArgs
  import opened WindowEffects

  datatype Key = Key(generation: string, id: string)
  datatype Pin = Pin(references: int, mode: string, restore: bool, owner: string, hookIndex: nat)
  type Pins = map<Key, Pin>

  // ----- what the factory does to its pins -----

  const Attempts := 3 // viewerWindowPinAttempts

  function Reuse(pins: Pins, key: Key): Pins
    requires key in pins
  {
    pins[key := pins[key].(references := pins[key].references + 1)]
  }

  /** A release: the pins it leaves, and whether the window must now be restored. */
  function Release(pins: Pins, key: Key, decrement: bool): (Pins, bool) {
    if key !in pins then (pins, false)
    else
      var pin := pins[key].(references := pins[key].references - if decrement then 1 else 0);
      if pin.references > 0 then (pins[key := pin], false)
      else if !pin.restore then (pins - {key}, false)
      else (pins[key := pin], true)
  }

  /** Cleanup's decision for one key. */
  predicate NeedsRestore(pins: Pins, key: Key) {
    key in pins && pins[key].references <= 0 && pins[key].restore
  }

  function Forget(pins: Pins, key: Key): Pins {
    if key in pins && pins[key].references <= 0 && !pins[key].restore then pins - {key} else pins
  }

  /** The pins a whole cleanup leaves, when the restores of `failing` fail. */
  function Cleaned(pins: Pins, failing: set<Key>): Pins {
    map key | key in pins && (pins[key].references > 0 || (pins[key].restore && key in failing)) :: pins[key]
  }

  /** The factory's pins, with the outcome of each restore as a parameter. */
  class PinFactory {
    var pins: Pins

    constructor ()
      ensures pins == map[]
    {
      pins := map[];
    }

    /** Joins an existing pin, if the captured window has one. */
    method Join(key: Key) returns (joined: bool)
      modifies this
      ensures joined == (key in old(pins))
      ensures pins == if joined then Reuse(old(pins), key) else old(pins)
    {
      joined := key in pins;
      if joined {
        var pin := pins[key];
        pins := pins[key := pin.(references := pin.references + 1)];
      }
    }

    method Record(key: Key, mode: string, inherited: bool, owner: string, hookIndex: nat)
      modifies this
      ensures pins == old(pins)[key := Pin(1, mode, inherited, owner, hookIndex)]
    {
      pins := pins[key := Pin(1, mode, inherited, owner, hookIndex)];
    }

    method ReleaseWindow(key: Key, decrement: bool, restoreFails: bool) returns (asked: bool, ok: bool)
      modifies this
      ensures asked == Release(old(pins), key, decrement).1
      ensures ok == !(asked && restoreFails)
      ensures pins == var after := Release(old(pins), key, decrement).0; if asked && ok then after - {key} else after
    {
      asked, ok := false, true;
      if key !in pins {
        return;
      }
      if decrement {
        pins := pins[key := pins[key].(references := pins[key].references - 1)];
      } else {
        assert pins[key := pins[key]] == pins;
      }
      if pins[key].references > 0 {
        return;
      }
      if !pins[key].restore {
        assert Release(old(pins), key, decrement).0 == pins - {key};
        pins := pins - {key};
        return;
      }
      asked := true;
      if restoreFails {
        ok := false;
        return;
      }
      pins := pins - {key};
    }

    /** Retries every restore that is still owed, in any order, deleting entries as it goes. */
    method Cleanup(failing: set<Key>) returns (asked: set<Key>)
      modifies this
      ensures pins == Cleaned(old(pins), failing)
      ensures asked == set key | key in old(pins) && NeedsRestore(old(pins), key)
    {
      asked := {};
      var left := pins.Keys;
      while left != {}
        invariant left <= pins.Keys <= old(pins).Keys
        invariant forall key :: key in pins ==> pins[key] == old(pins)[key]
        invariant forall key :: key in old(pins) ==> (key in pins <==> key in left || key in Cleaned(old(pins), failing))
        invariant asked == set key | key in old(pins) && key !in left && NeedsRestore(old(pins), key)
        decreases left
      {
        var key :| key in left;
        left := left - {key};
        var pin := pins[key];
        if pin.references > 0 {
          continue;
        }
        if !pin.restore {
          pins := pins - {key};
          continue;
        }
        asked := asked + {key};
        if key in failing {
          continue;
        }
        pins := pins - {key};
      }
    }
  }

  // ----- the system -----

  /** `touched`: the host sized it since the last claim took hold; `claims`: hook indices of the claims that took hold and were never undone. */
  datatype Win = Win(w: Window, touched: bool, claims: set<nat>)
  datatype World = World(generation: string, windows: map<string, Win>)

  datatype Claimant = Claimant(capture: Capture, owner: string, hookIndex: nat)

  datatype Task =
    | Idle
    | Capturing(generation: string, tries: nat)
    | Claiming(claim: Claimant, tries: nat)
    | RollingBack(claim: Claimant, tries: nat, again: bool)
    | Releasing(key: Key)
    | Cleaning(left: set<Key>)

  /** A release function handed to a viewer, and whether it has been called. */
  datatype Handle = Handle(key: Key, called: bool)

  datatype Sys = Sys(world: World, pins: Pins, task: Task, handles: seq<Handle>, issued: map<string, nat>)

  function Start(generation: string): Sys {
    Sys(World(generation, map[]), map[], Idle, [], map[])
  }

  datatype HostStep =
    | Size(id: string, h: HostSizing)
    | Ambient(id: string, inherited: string, columns: string, rows: string, status: string)
    | SetHook(id: string, key: HookKey, text: string)
    | UnsetHook(id: string, key: HookKey)
    | Create(w: Window)
    | Kill(id: string)
    | Restart(generation: string)

  datatype ClaimStep =
    | Begin(generation: string)
    | CaptureFails
    | CaptureWindow(capture: Capture, owner: string, hookIndex: nat)
    | ClaimLost
    | ClaimRuns(current: string, replied: bool) // `current`: the window the session shows now
    | RollbackRuns(delivered: bool, ok: bool)

  datatype ReleaseStep =
    | Call(handle: nat)
    | ReleaseRuns(delivered: bool, ok: bool)
    | BeginCleanup
    | CleanNext(key: Key, delivered: bool, ok: bool)
    | EndCleanup

  datatype Action = OnHost(host: HostStep) | OnClaim(claim: ClaimStep) | OnRelease(release: ReleaseStep)

  /** A host's hook, on an index no claim was given, that leaves the window alone. */
  ghost predicate HostHook(key: HookKey, text: string, id: string, issued: map<string, nat>) {
    Harmless(text, id) && forall owner :: owner in issued ==> key !in Pair(issued[owner])
  }

  ghost predicate Untouched(w: Window, issued: map<string, nat>) {
    && WrapKeys(w.hooks) == {} && w.owner == "" && !ByWrap(w)
    && forall key :: key in w.hooks ==> HostHook(key, w.hooks[key].text, w.id, issued)
  }

  ghost function StepHost(world: World, issued: map<string, nat>, a: HostStep): Option<World> {
    match a
    case Size(id, h) =>
      if id !in world.windows then None
      else var x := world.windows[id]; Some(Place(world, id, Win(HostEffect(x.w, h), true, x.claims)))
    case Ambient(id, inherited, columns, rows, status) =>
      if id !in world.windows then None
      else var x := world.windows[id]; Some(Place(world, id, x.(w := Ambience(x.w, inherited, columns, rows, status))))
    case SetHook(id, key, text) =>
      if id !in world.windows || !HostHook(key, text, id, issued) then None
      else var x := world.windows[id]; Some(Place(world, id, x.(w := x.w.(hooks := x.w.hooks[key := Hook(text, Host)]))))
    case UnsetHook(id, key) =>
      if id !in world.windows || key in WrapKeys(world.windows[id].w.hooks) then None
      else var x := world.windows[id]; Some(Place(world, id, x.(w := x.w.(hooks := x.w.hooks - {key}))))
    case Create(w) =>
      if w.id in world.windows || w.generation != world.generation || !Untouched(w, issued) then None
      else Some(Place(world, w.id, Win(w, w.size.Some?, {})))
    case Kill(id) => Some(world.(windows := world.windows - {id}))
    case Restart(generation) => Some(World(generation, map[]))
  }

  function Place(world: World, id: string, x: Win): World {
    world.(windows := world.windows[id := x])
  }

  /** What changes on a window without anybody sizing it. */
  function Ambience(w: Window, inherited: string, columns: string, rows: string, status: string): Window {
    w.(inherited := inherited, columns := columns, rows := rows, status := status)
  }

  function KeyOf(c: Claimant): Key {
    Key(c.capture.generation, c.capture.win)
  }

  function RestoreWin(x: Win, owner: string, hookIndex: nat): Win {
    x.(w := RestoreEffect(x.w, owner, Decimal(hookIndex)), claims := x.claims - {hookIndex})
  }

  /** A delivered restore acts only on the window and server generation it names. */
  function RestoreOn(world: World, key: Key, owner: string, hookIndex: nat): World {
    if key.generation == world.generation && key.id in world.windows
    then Place(world, key.id, RestoreWin(world.windows[key.id], owner, hookIndex))
    else world
  }

  predicate TakesHold(w: Window, c: Capture) {
    PinReply(w, c).Accepted? && c.inherited
  }

  function PinWin(x: Win, c: Claimant): Win {
    if TakesHold(x.w, c.capture)
    then Win(PinWindow(x.w, c.capture, c.owner, c.hookIndex), false, x.claims + {c.hookIndex})
    else x
  }

  /** What pinWindow does next once its claim has been answered, or not. */
  function AfterClaim(s: Sys, c: Claimant, tries: nat, reply: Reply, replied: bool): Sys {
    if !replied then s.(task := if c.capture.inherited then RollingBack(c, tries, false) else Idle)
    else match reply
      case Rejected => s.(task := Capturing(c.capture.generation, tries))
      case Conflict => s.(task := RollingBack(c, tries, true))
      case Accepted =>
        s.(task := Idle, handles := s.handles + [Handle(KeyOf(c), false)],
           pins := s.pins[KeyOf(c) := Pin(1, c.capture.mode, c.capture.inherited, c.owner, c.hookIndex)])
  }

  function AfterCapture(s: Sys, c: Claimant, tries: nat): Option<Sys> {
    if KeyOf(c) in s.pins then
      Some(s.(pins := Reuse(s.pins, KeyOf(c)), handles := s.handles + [Handle(KeyOf(c), false)], task := Idle))
    else if !Pinnable(c.capture, c.owner, c.hookIndex) then None
    else if !c.capture.inherited then Some(s.(task := Claiming(c, tries)))
    else if c.owner in s.issued || c.hookIndex in s.issued.Values || !Unused(s.world, c.hookIndex) then None
    else Some(s.(task := Claiming(c, tries), issued := s.issued[c.owner := c.hookIndex]))
  }

  /** The random hook index of a claim names no hook on any window. */
  predicate Unused(world: World, hookIndex: nat) {
    forall id :: id in world.windows ==> Pair(hookIndex) !! world.windows[id].w.hooks.Keys
  }

  predicate Captured(world: World, c: Capture) {
    && c.generation == world.generation && c.win in world.windows && Matches(world.windows[c.win].w, c)
    && (c.inherited <==> world.windows[c.win].w.size.None?)
  }

  function StepClaim(s: Sys, a: ClaimStep): Option<Sys> {
    match a
    case Begin(generation) => if s.task != Idle then None else Some(s.(task := Capturing(generation, Attempts)))
    case CaptureFails => if !s.task.Capturing? then None else Some(s.(task := Idle))
    case CaptureWindow(c, owner, hookIndex) =>
      if !s.task.Capturing? || s.task.tries == 0 || s.task.generation != c.generation || !Captured(s.world, c) then None
      else AfterCapture(s, Claimant(c, owner, hookIndex), s.task.tries - 1)
    case ClaimLost =>
      if !s.task.Claiming? then None
      else Some(AfterClaim(s, s.task.claim, s.task.tries, Rejected, false))
    case ClaimRuns(current, replied) =>
      if !s.task.Claiming? || current !in s.world.windows then None
      else
        var (c, x) := (s.task.claim, s.world.windows[current]);
        var t := s.(world := Place(s.world, current, PinWin(x, c)));
        Some(AfterClaim(t, c, s.task.tries, PinReply(x.w, c.capture), replied))
    case RollbackRuns(delivered, ok) =>
      if !s.task.RollingBack? || (ok && !delivered) then None
      else
        var c := s.task.claim;
        var world := if delivered then RestoreOn(s.world, KeyOf(c), c.owner, c.hookIndex) else s.world;
        Some(s.(world := world,
                task := if ok && s.task.again then Capturing(c.capture.generation, s.task.tries) else Idle))
  }

  /** A restore that reports success was delivered; one that fails may have been. */
  function Restored(s: Sys, key: Key, delivered: bool, ok: bool): Sys
    requires key in s.pins
  {
    s.(world := if delivered then RestoreOn(s.world, key, s.pins[key].owner, s.pins[key].hookIndex) else s.world,
       pins := if ok then s.pins - {key} else s.pins)
  }

  function StepRelease(s: Sys, a: ReleaseStep): Option<Sys> {
    match a
    case Call(i) =>
      if s.task != Idle || i >= |s.handles| then None
      else
        var (h, key) := (s.handles[i], s.handles[i].key);
        var (pins, restore) := Release(s.pins, key, !h.called);
        Some(s.(handles := s.handles[i := h.(called := true)], pins := pins,
                task := if restore then Releasing(key) else Idle))
    case ReleaseRuns(delivered, ok) =>
      if !s.task.Releasing? || s.task.key !in s.pins || (ok && !delivered) then None
      else Some(Restored(s, s.task.key, delivered, ok).(task := Idle))
    case BeginCleanup => if s.task != Idle then None else Some(s.(task := Cleaning(s.pins.Keys)))
    case CleanNext(key, delivered, ok) =>
      if !s.task.Cleaning? || key !in s.task.left || (ok && !delivered) then None
      else
        var t := s.(task := Cleaning(s.task.left - {key}));
        Some(if NeedsRestore(s.pins, key) then Restored(t, key, delivered, ok) else t.(pins := Forget(s.pins, key)))
    case EndCleanup => if s.task != Cleaning({}) then None else Some(s.(task := Idle))
  }

  ghost function Step(s: Sys, a: Action): Option<Sys> {
    match a
    case OnHost(host) =>
      var world := StepHost(s.world, s.issued, host);
      if world.None? then None else Some(s.(world := world.value))
    case OnClaim(claim) => StepClaim(s, claim)
    case OnRelease(release) => StepRelease(s, release)
  }

  ghost predicate IsRun(ss: seq<Sys>, acts: seq<Action>, generation: string) {
    && |ss| == |acts| + 1 && ss[0] == Start(generation)
    && forall i {:trigger acts[i]} :: 0 <= i < |acts| ==> Step(ss[i], acts[i]) == Some(ss[i + 1])
  }

  // ----- counting handles -----

  /** Release functions for a key that were handed out and not yet called. */
  function Uncalled(handles: seq<Handle>, key: Key): (n: nat) {
    if handles == [] then 0
    else Uncalled(handles[..|handles| - 1], key) + if handles[|handles| - 1] == Handle(key, false) then 1 else 0
  }

  lemma UncalledAppend(handles: seq<Handle>, h: Handle)
    ensures forall key :: Uncalled(handles + [h], key) == Uncalled(handles, key) + if h == Handle(key, false) then 1 else 0
  {
    assert (handles + [h])[..|handles|] == handles;
  }

  lemma {:induction false} UncalledCall(handles: seq<Handle>, i: nat, key: Key)
    requires i < |handles|
    ensures Uncalled(handles[i := handles[i].(called := true)], key) ==
            Uncalled(handles, key) - if handles[i] == Handle(key, false) then 1 else 0
  {
    var n := |handles| - 1;
    var after := handles[i := handles[i].(called := true)];
    if i < n {
      assert after[..n] == handles[..n][i := handles[i].(called := true)];
      UncalledCall(handles[..n], i, key);
    } else {
      assert after[..n] == handles[..n];
    }
  }

  // ----- invariants -----

  ghost predicate References(pins: Pins, handles: seq<Handle>) {
    forall key :: Uncalled(handles, key) == if key in pins then pins[key].references else 0
  }

  predicate HasOwner(issued: map<string, nat>, owner: string, hookIndex: nat) {
    owner != "" && owner in issued && issued[owner] == hookIndex
  }

  ghost predicate PinsOwned(pins: Pins, issued: map<string, nat>) {
    Injective(issued) && forall key :: key in pins && pins[key].restore ==> HasOwner(issued, pins[key].owner, pins[key].hookIndex)
  }

  predicate TaskInv(task: Task, pins: Pins, issued: map<string, nat>) {
    match task
    case Claiming(c, _) => KeyOf(c) !in pins && (c.capture.inherited ==> HasOwner(issued, c.owner, c.hookIndex))
    case RollingBack(c, _, _) => KeyOf(c) !in pins && c.capture.inherited && HasOwner(issued, c.owner, c.hookIndex)
    case Releasing(key) => key in pins && pins[key].references == 0 && pins[key].restore
    case Cleaning(left) => left <= pins.Keys
    case _ => true
  }

  predicate WinFacts(x: Win, id: string, generation: string, issued: map<string, nat>) {
    x.w.id == id && x.w.generation == generation && Marked(x.w, issued) && (ByHost(x.w) ==> x.touched)
  }

  /** Wrap's hooks are those of the claims still standing. */
  ghost predicate ClaimHooks(hooks: map<HookKey, Hook>, claims: set<nat>) {
    forall key :: key in WrapKeys(hooks) <==> exists n :: n in claims && key in Pair(n)
  }

  /** The host's hooks keep clear of every index a claim was given. */
  ghost predicate HostApart(hooks: map<HookKey, Hook>, issued: map<string, nat>) {
    forall key, owner :: key in hooks && hooks[key].actor == Host && owner in issued ==> key !in Pair(issued[owner])
  }

  ghost predicate WinInv(x: Win, id: string, generation: string, issued: map<string, nat>) {
    && WinFacts(x, id, generation, issued) && ClaimHooks(x.w.hooks, x.claims) && HostApart(x.w.hooks, issued)
    && x.claims <= issued.Values
  }

  ghost predicate WorldInv(world: World, issued: map<string, nat>) {
    forall id :: id in world.windows ==> WinInv(world.windows[id], id, world.generation, issued)
  }

  /** Whoever may have a claim standing on a window. */
  function Holder(pins: Pins, task: Task, key: Key): Option<(string, nat)> {
    if key in pins && pins[key].restore then Some((pins[key].owner, pins[key].hookIndex))
    else if task.RollingBack? && KeyOf(task.claim) == key then Some((task.claim.owner, task.claim.hookIndex))
    else None
  }

  /** Without standing claims a window is clean; with its holder's alone it is held. */
  predicate Bears(x: Win, holder: Option<(string, nat)>) {
    && (x.claims == {} ==> Clean(x.w))
    && (holder.Some? && x.claims == {holder.value.1} ==> Held(x.w, holder.value.0, holder.value.1))
  }

  /** A claim that has not run yet stands nowhere. */
  ghost predicate Fresh(world: World, hookIndex: nat) {
    forall id :: id in world.windows ==> hookIndex !in world.windows[id].claims
  }

  ghost predicate FreshInv(world: World, task: Task) {
    task.Claiming? && task.claim.capture.inherited ==> Fresh(world, task.claim.hookIndex)
  }

  ghost predicate BearInv(world: World, pins: Pins, task: Task) {
    forall id :: id in world.windows ==> Bears(world.windows[id], Holder(pins, task, Key(world.generation, id)))
  }

  ghost predicate Inv(s: Sys) {
    && References(s.pins, s.handles) && PinsOwned(s.pins, s.issued) && TaskInv(s.task, s.pins, s.issued)
    && WorldInv(s.world, s.issued) && BearInv(s.world, s.pins, s.task) && FreshInv(s.world, s.task)
  }

  // ----- references -----

  lemma ReleaseCounts(pins: Pins, handles: seq<Handle>, i: nat)
    requires References(pins, handles) && i < |handles|
    ensures References(Release(pins, handles[i].key, !handles[i].called).0, handles[i := handles[i].(called := true)])
  {
    var h := handles[i];
    var after := handles[i := h.(called := true)];
    forall key ensures Uncalled(after, key) == Uncalled(handles, key) - if h == Handle(key, false) then 1 else 0 {
      UncalledCall(handles, i, key);
    }
    assert Uncalled(handles, h.key) >= 0 && Uncalled(after, h.key) >= 0;
  }

  lemma ReuseCounts(pins: Pins, handles: seq<Handle>, key: Key)
    requires References(pins, handles) && key in pins
    ensures References(Reuse(pins, key), handles + [Handle(key, false)])
  {
    UncalledAppend(handles, Handle(key, false));
  }

  lemma CaptureCounts(s: Sys, c: Claimant, tries: nat)
    requires References(s.pins, s.handles) && AfterCapture(s, c, tries).Some?
    ensures References(AfterCapture(s, c, tries).value.pins, AfterCapture(s, c, tries).value.handles)
  {
    if KeyOf(c) in s.pins {
      ReuseCounts(s.pins, s.handles, KeyOf(c));
    }
  }

  lemma ClaimCounts(s: Sys, c: Claimant, tries: nat, reply: Reply, replied: bool)
    requires References(s.pins, s.handles) && KeyOf(c) !in s.pins
    ensures References(AfterClaim(s, c, tries, reply, replied).pins, AfterClaim(s, c, tries, reply, replied).handles)
  {
    UncalledAppend(s.handles, Handle(KeyOf(c), false));
    assert Uncalled(s.handles, KeyOf(c)) == 0;
  }

  lemma ClaimStepCounts(s: Sys, a: ClaimStep)
    requires References(s.pins, s.handles) && TaskInv(s.task, s.pins, s.issued) && StepClaim(s, a).Some?
    ensures References(StepClaim(s, a).value.pins, StepClaim(s, a).value.handles)
  {
    match a
    case CaptureWindow(c, owner, hookIndex) => CaptureCounts(s, Claimant(c, owner, hookIndex), s.task.tries - 1);
    case ClaimLost => ClaimCounts(s, s.task.claim, s.task.tries, Rejected, false);
    case ClaimRuns(current, replied) =>
      var (c, x) := (s.task.claim, s.world.windows[current]);
      var t := s.(world := Place(s.world, current, PinWin(x, c)));
      ClaimCounts(t, c, s.task.tries, PinReply(x.w, c.capture), replied);
    case _ =>
  }

  lemma ReleaseStepCounts(s: Sys, a: ReleaseStep)
    requires References(s.pins, s.handles) && TaskInv(s.task, s.pins, s.issued) && StepRelease(s, a).Some?
    ensures References(StepRelease(s, a).value.pins, StepRelease(s, a).value.handles)
  {
    match a
    case Call(i) => ReleaseCounts(s.pins, s.handles, i);
    case CleanNext(key, _, _) => assert Uncalled(s.handles, key) >= 0;
    case _ =>
  }

  // ----- owners and tasks -----

  lemma CaptureOwns(s: Sys, c: Claimant, tries: nat)
    requires PinsOwned(s.pins, s.issued) && AfterCapture(s, c, tries).Some?
    ensures var t := AfterCapture(s, c, tries).value; PinsOwned(t.pins, t.issued) && TaskInv(t.task, t.pins, t.issued)
  {
  }

  lemma AfterClaimOwns(s: Sys, c: Claimant, tries: nat, reply: Reply, replied: bool)
    requires PinsOwned(s.pins, s.issued) && KeyOf(c) !in s.pins
    requires (c.capture.inherited ==> HasOwner(s.issued, c.owner, c.hookIndex)) && (reply.Conflict? ==> c.capture.inherited)
    ensures var t := AfterClaim(s, c, tries, reply, replied); PinsOwned(t.pins, t.issued) && TaskInv(t.task, t.pins, t.issued)
  {
  }

  lemma ClaimStepOwns(s: Sys, a: ClaimStep)
    requires PinsOwned(s.pins, s.issued) && TaskInv(s.task, s.pins, s.issued) && StepClaim(s, a).Some?
    ensures var t := StepClaim(s, a).value; PinsOwned(t.pins, t.issued) && TaskInv(t.task, t.pins, t.issued)
  {
    match a
    case CaptureWindow(c, owner, hookIndex) => CaptureOwns(s, Claimant(c, owner, hookIndex), s.task.tries - 1);
    case ClaimLost => AfterClaimOwns(s, s.task.claim, s.task.tries, Rejected, false);
    case ClaimRuns(current, replied) =>
      var (c, x) := (s.task.claim, s.world.windows[current]);
      var t := s.(world := Place(s.world, current, PinWin(x, c)));
      AfterClaimOwns(t, c, s.task.tries, PinReply(x.w, c.capture), replied);
    case _ =>
  }

  lemma ReleaseStepOwns(s: Sys, a: ReleaseStep)
    requires PinsOwned(s.pins, s.issued) && TaskInv(s.task, s.pins, s.issued) && References(s.pins, s.handles)
    requires StepRelease(s, a).Some?
    ensures var t := StepRelease(s, a).value; PinsOwned(t.pins, t.issued) && TaskInv(t.task, t.pins, t.issued)
  {
    if a.Call? {
      UncalledCall(s.handles, a.handle, s.handles[a.handle].key);
      ReleaseCounts(s.pins, s.handles, a.handle);
    }
  }

  // ----- windows one at a time -----

  /** Sizing and ambience leave hooks and claims alone. */
  lemma SameHooksKeep(x: Win, y: Win, id: string, generation: string, issued: map<string, nat>)
    requires WinInv(x, id, generation, issued) && WinFacts(y, id, generation, issued)
    requires y.w.hooks == x.w.hooks && y.claims == x.claims
    ensures WinInv(y, id, generation, issued)
  {
  }

  lemma HostWinKeeps(x: Win, h: HostSizing, id: string, generation: string, issued: map<string, nat>)
    requires WinInv(x, id, generation, issued)
    ensures WinInv(Win(HostEffect(x.w, h), true, x.claims), id, generation, issued)
  {
    HostKeeps(x.w, h, "o", 0, issued);
    SameHooksKeep(x, Win(HostEffect(x.w, h), true, x.claims), id, generation, issued);
  }

  lemma HostBears(x: Win, h: HostSizing, holder: Option<(string, nat)>)
    requires Bears(x, holder) && (holder.Some? ==> holder.value.0 != "")
    ensures Bears(Win(HostEffect(x.w, h), true, x.claims), holder)
  {
    if holder.Some? {
      HostKeeps(x.w, h, holder.value.0, holder.value.1, map[]);
    } else {
      HostKeeps(x.w, h, "o", 0, map[]);
    }
  }

  lemma AmbientWinKeeps(x: Win, inherited: string, columns: string, rows: string, status: string,
                        id: string, generation: string, issued: map<string, nat>, holder: Option<(string, nat)>)
    requires WinInv(x, id, generation, issued)
    ensures WinInv(x.(w := Ambience(x.w, inherited, columns, rows, status)), id, generation, issued)
    ensures Bears(x, holder) ==> Bears(x.(w := Ambience(x.w, inherited, columns, rows, status)), holder)
  {
    SameHooksKeep(x, x.(w := Ambience(x.w, inherited, columns, rows, status)), id, generation, issued);
  }

  /** A host hook more or less changes none of Wrap's. */
  lemma HostHookWinKeeps(x: Win, hooks: map<HookKey, Hook>, id: string, generation: string, issued: map<string, nat>,
                         holder: Option<(string, nat)>)
    requires WinInv(x, id, generation, issued) && WrapKeys(hooks) == WrapKeys(x.w.hooks) && HostApart(hooks, issued)
    ensures WinInv(x.(w := x.w.(hooks := hooks)), id, generation, issued)
    ensures Bears(x, holder) ==> Bears(x.(w := x.w.(hooks := hooks)), holder)
  {
  }

  lemma WrapKeyIsIssued(hooks: map<HookKey, Hook>, key: HookKey, issued: map<string, nat>, claims: set<nat>)
    requires ClaimHooks(hooks, claims) && claims <= issued.Values
    ensures key in WrapKeys(hooks) ==> exists owner :: owner in issued && key in Pair(issued[owner])
  {
    if key in WrapKeys(hooks) {
      var n :| n in claims && key in Pair(n);
      assert n in issued.Values;
      var owner :| owner in issued && issued[owner] == n;
    }
  }

  lemma SetHookKeys(hooks: map<HookKey, Hook>, key: HookKey, text: string, id: string, issued: map<string, nat>, claims: set<nat>)
    requires ClaimHooks(hooks, claims) && HostApart(hooks, issued) && HostHook(key, text, id, issued) && claims <= issued.Values
    ensures WrapKeys(hooks[key := Hook(text, Host)]) == WrapKeys(hooks) && HostApart(hooks[key := Hook(text, Host)], issued)
  {
    WrapKeyIsIssued(hooks, key, issued, claims);
  }

  lemma UnsetHookKeys(hooks: map<HookKey, Hook>, key: HookKey, issued: map<string, nat>)
    requires HostApart(hooks, issued) && key !in WrapKeys(hooks)
    ensures WrapKeys(hooks - {key}) == WrapKeys(hooks) && HostApart(hooks - {key}, issued)
  {
  }

  lemma ClaimMore(hooks: map<HookKey, Hook>, more: map<HookKey, Hook>, claims: set<nat>, n: nat)
    requires ClaimHooks(hooks, claims) && WrapKeys(more) == WrapKeys(hooks) + Pair(n)
    ensures ClaimHooks(more, claims + {n})
  {
  }

  lemma ClaimLess(hooks: map<HookKey, Hook>, less: map<HookKey, Hook>, claims: set<nat>, n: nat)
    requires ClaimHooks(hooks, claims) && WrapKeys(less) == WrapKeys(hooks) - Pair(n)
    ensures ClaimHooks(less, claims - {n})
  {
    forall key ensures key in WrapKeys(less) <==> exists m :: m in claims - {n} && key in Pair(m) {
      if key in WrapKeys(less) {
        var m :| m in claims && key in Pair(m);
        assert m in claims - {n};
      }
      if m :| m in claims - {n} && key in Pair(m) {
        PairsAreApart(m, n);
      }
    }
  }

  lemma ApartOutside(hooks: map<HookKey, Hook>, after: map<HookKey, Hook>, keys: set<HookKey>, issued: map<string, nat>)
    requires HostApart(hooks, issued) && after - keys == hooks - keys
    requires forall key :: key in keys && key in after ==> after[key].actor == Wrap
    ensures HostApart(after, issued)
  {
    forall key | key in after && after[key].actor == Host ensures key in hooks && hooks[key] == after[key] {
      assert key in (after - keys).Keys;
    }
  }

  lemma PinWinKeeps(x: Win, c: Claimant, id: string, generation: string, issued: map<string, nat>)
    requires WinInv(x, id, generation, issued) && (c.capture.inherited ==> HasOwner(issued, c.owner, c.hookIndex))
    ensures WinInv(PinWin(x, c), id, generation, issued)
  {
    PinKeeps(x.w, c.capture, c.owner, c.hookIndex, issued);
    if TakesHold(x.w, c.capture) {
      var v := PinWin(x, c).w;
      ClaimMore(x.w.hooks, v.hooks, x.claims, c.hookIndex);
      PairIsWraps(v.hooks, c.hookIndex);
      ApartOutside(x.w.hooks, v.hooks, Pair(c.hookIndex), issued);
    }
  }

  lemma PairIsWraps(hooks: map<HookKey, Hook>, n: nat)
    requires Pair(n) <= WrapKeys(hooks)
    ensures forall key :: key in Pair(n) && key in hooks ==> hooks[key].actor == Wrap
  {
    forall key | key in Pair(n) && key in hooks ensures hooks[key].actor == Wrap {
      assert key in WrapKeys(hooks);
    }
  }

  lemma PinBears(x: Win, c: Claimant, issued: map<string, nat>)
    requires Bears(x, None) && (c.capture.inherited ==> HasOwner(issued, c.owner, c.hookIndex) && c.hookIndex !in x.claims)
    ensures c.capture.inherited ==> Bears(PinWin(x, c), Some((c.owner, c.hookIndex)))
    ensures !TakesHold(x.w, c.capture) ==> PinWin(x, c) == x
  {
    PinKeeps(x.w, c.capture, c.owner, c.hookIndex, issued);
    if TakesHold(x.w, c.capture) && x.claims + {c.hookIndex} == {c.hookIndex} {
      assert x.claims == {};
    }
  }

  lemma RestoreWinKeeps(x: Win, owner: string, hookIndex: nat, id: string, generation: string, issued: map<string, nat>)
    requires WinInv(x, id, generation, issued) && Injective(issued) && HasOwner(issued, owner, hookIndex)
    ensures WinInv(RestoreWin(x, owner, hookIndex), id, generation, issued)
    ensures ByHost(x.w) ==> RestoreWin(x, owner, hookIndex).w.size == x.w.size
  {
    RestoreKeepsMark(x.w, owner, hookIndex, issued);
    RestoreShape(x.w, owner, hookIndex);
    var v := RestoreWin(x, owner, hookIndex).w;
    ClaimLess(x.w.hooks, v.hooks, x.claims, hookIndex);
    if ByHost(x.w) {
      RestoreSparesHost(x.w, owner, hookIndex, issued);
    }
  }

  lemma RestoreBears(x: Win, owner: string, hookIndex: nat, holder: Option<(string, nat)>)
    requires Bears(x, Some((owner, hookIndex))) && owner != "" && (holder.Some? ==> holder.value == (owner, hookIndex))
    ensures Bears(RestoreWin(x, owner, hookIndex), holder)
  {
    if x.claims - {hookIndex} == {} {
      assert x.claims == {} || x.claims == {hookIndex};
      RestoreUndoesClaim(x.w, owner, hookIndex);
    }
    assert hookIndex !in x.claims - {hookIndex};
  }

  // ----- worlds -----

  lemma WorldSet(world: World, id: string, x: Win, issued: map<string, nat>)
    requires WorldInv(world, issued) && WinInv(x, id, world.generation, issued)
    ensures WorldInv(Place(world, id, x), issued)
  {
  }

  lemma IssueKeepsWin(x: Win, id: string, generation: string, issued: map<string, nat>, owner: string, hookIndex: nat)
    requires WinInv(x, id, generation, issued) && owner !in issued && Pair(hookIndex) !! x.w.hooks.Keys
    ensures WinInv(x, id, generation, issued[owner := hookIndex])
  {
    var more := issued[owner := hookIndex];
    forall key, o | key in x.w.hooks && x.w.hooks[key].actor == Host && o in more ensures key !in Pair(more[o]) {
      assert key in x.w.hooks.Keys;
      if o != owner {
        assert o in issued;
      }
    }
    forall n | n in x.claims ensures n in more.Values {
      assert n in issued.Values;
      var o :| o in issued && issued[o] == n;
      assert more[o] == n;
    }
  }

  lemma IssueKeeps(world: World, issued: map<string, nat>, owner: string, hookIndex: nat)
    requires WorldInv(world, issued) && owner !in issued && Unused(world, hookIndex)
    ensures WorldInv(world, issued[owner := hookIndex])
  {
    forall id | id in world.windows ensures WinInv(world.windows[id], id, world.generation, issued[owner := hookIndex]) {
      IssueKeepsWin(world.windows[id], id, world.generation, issued, owner, hookIndex);
    }
  }

  lemma CreatedIsGood(w: Window, generation: string, issued: map<string, nat>)
    requires w.generation == generation && Untouched(w, issued)
    ensures WinInv(Win(w, w.size.Some?, {}), w.id, generation, issued) && Bears(Win(w, w.size.Some?, {}), None)
  {
  }

  lemma HostKeepsWorld(world: World, a: HostStep, issued: map<string, nat>)
    requires WorldInv(world, issued) && StepHost(world, issued, a).Some?
    ensures WorldInv(StepHost(world, issued, a).value, issued)
  {
    match a
    case Size(id, h) =>
      HostWinKeeps(world.windows[id], h, id, world.generation, issued);
      WorldSet(world, id, Win(HostEffect(world.windows[id].w, h), true, world.windows[id].claims), issued);
    case Ambient(id, inherited, columns, rows, status) =>
      var x := world.windows[id];
      AmbientWinKeeps(x, inherited, columns, rows, status, id, world.generation, issued, None);
      WorldSet(world, id, x.(w := Ambience(x.w, inherited, columns, rows, status)), issued);
    case SetHook(id, key, text) =>
      var x := world.windows[id];
      SetHookKeys(x.w.hooks, key, text, id, issued, x.claims);
      HostHookWinKeeps(x, x.w.hooks[key := Hook(text, Host)], id, world.generation, issued, None);
      WorldSet(world, id, x.(w := x.w.(hooks := x.w.hooks[key := Hook(text, Host)])), issued);
    case UnsetHook(id, key) =>
      var x := world.windows[id];
      UnsetHookKeys(x.w.hooks, key, issued);
      HostHookWinKeeps(x, x.w.hooks - {key}, id, world.generation, issued, None);
      WorldSet(world, id, x.(w := x.w.(hooks := x.w.hooks - {key})), issued);
    case Create(w) =>
      CreatedIsGood(w, world.generation, issued);
      WorldSet(world, w.id, Win(w, w.size.Some?, {}), issued);
    case Kill(id) =>
    case Restart(_) =>
  }

  lemma RestoreKeepsWorld(world: World, key: Key, owner: string, hookIndex: nat, issued: map<string, nat>)
    requires WorldInv(world, issued) && Injective(issued) && HasOwner(issued, owner, hookIndex)
    ensures WorldInv(RestoreOn(world, key, owner, hookIndex), issued)
  {
    if key.generation == world.generation && key.id in world.windows {
      RestoreWinKeeps(world.windows[key.id], owner, hookIndex, key.id, world.generation, issued);
      WorldSet(world, key.id, RestoreWin(world.windows[key.id], owner, hookIndex), issued);
    }
  }

  lemma ClaimStepKeepsWorld(s: Sys, a: ClaimStep)
    requires WorldInv(s.world, s.issued) && PinsOwned(s.pins, s.issued) && TaskInv(s.task, s.pins, s.issued)
    requires StepClaim(s, a).Some?
    ensures WorldInv(StepClaim(s, a).value.world, StepClaim(s, a).value.issued)
  {
    match a
    case CaptureWindow(c, owner, hookIndex) =>
      if Key(c.generation, c.win) !in s.pins && c.inherited {
        IssueKeeps(s.world, s.issued, owner, hookIndex);
      }
    case ClaimRuns(current, _) =>
      PinWinKeeps(s.world.windows[current], s.task.claim, current, s.world.generation, s.issued);
      WorldSet(s.world, current, PinWin(s.world.windows[current], s.task.claim), s.issued);
    case RollbackRuns(delivered, ok) =>
      var c := s.task.claim;
      RestoreKeepsWorld(s.world, KeyOf(c), c.owner, c.hookIndex, s.issued);
    case _ =>
  }

  lemma ReleaseStepKeepsWorld(s: Sys, a: ReleaseStep)
    requires WorldInv(s.world, s.issued) && PinsOwned(s.pins, s.issued) && TaskInv(s.task, s.pins, s.issued)
    requires StepRelease(s, a).Some?
    ensures WorldInv(StepRelease(s, a).value.world, StepRelease(s, a).value.issued)
  {
    match a
    case ReleaseRuns(_, _) =>
      RestoreKeepsWorld(s.world, s.task.key, s.pins[s.task.key].owner, s.pins[s.task.key].hookIndex, s.issued);
    case CleanNext(key, _, _) =>
      if NeedsRestore(s.pins, key) {
        RestoreKeepsWorld(s.world, key, s.pins[key].owner, s.pins[key].hookIndex, s.issued);
      }
    case _ =>
  }

  // ----- who bears what -----

  lemma HolderOwned(pins: Pins, task: Task, issued: map<string, nat>, key: Key)
    requires PinsOwned(pins, issued) && TaskInv(task, pins, issued) && Holder(pins, task, key).Some?
    ensures HasOwner(issued, Holder(pins, task, key).value.0, Holder(pins, task, key).value.1)
  {
  }

  lemma HostKeepsBear(s: Sys, a: HostStep)
    requires Inv(s) && StepHost(s.world, s.issued, a).Some?
    ensures BearInv(StepHost(s.world, s.issued, a).value, s.pins, s.task)
  {
    match a
    case Size(id, h) =>
      var holder := Holder(s.pins, s.task, Key(s.world.generation, id));
      if holder.Some? {
        HolderOwned(s.pins, s.task, s.issued, Key(s.world.generation, id));
      }
      HostBears(s.world.windows[id], h, holder);
    case Ambient(id, inherited, columns, rows, status) =>
      AmbientWinKeeps(s.world.windows[id], inherited, columns, rows, status, id, s.world.generation, s.issued,
                      Holder(s.pins, s.task, Key(s.world.generation, id)));
    case SetHook(id, key, text) =>
      var x := s.world.windows[id];
      assert WinInv(x, id, s.world.generation, s.issued);
      SetHookKeys(x.w.hooks, key, text, id, s.issued, x.claims);
      HostHookWinKeeps(x, x.w.hooks[key := Hook(text, Host)], id, s.world.generation, s.issued,
                       Holder(s.pins, s.task, Key(s.world.generation, id)));
    case UnsetHook(id, key) =>
      var x := s.world.windows[id];
      assert WinInv(x, id, s.world.generation, s.issued);
      UnsetHookKeys(x.w.hooks, key, s.issued);
      HostHookWinKeeps(x, x.w.hooks - {key}, id, s.world.generation, s.issued,
                       Holder(s.pins, s.task, Key(s.world.generation, id)));
    case Create(w) =>
      CreatedIsGood(w, s.world.generation, s.issued);
      BearsMore(Win(w, w.size.Some?, {}), Holder(s.pins, s.task, Key(s.world.generation, w.id)));
    case Kill(id) =>
    case Restart(_) =>
  }

  lemma HostKeepsFresh(s: Sys, a: HostStep)
    requires FreshInv(s.world, s.task) && StepHost(s.world, s.issued, a).Some?
    ensures FreshInv(StepHost(s.world, s.issued, a).value, s.task)
  {
  }

  /** A claim's index is fresh when it is issued: the claims standing anywhere were issued before. */
  lemma IssueIsFresh(world: World, issued: map<string, nat>, hookIndex: nat)
    requires WorldInv(world, issued) && hookIndex !in issued.Values
    ensures Fresh(world, hookIndex)
  {
    forall id | id in world.windows ensures hookIndex !in world.windows[id].claims {
      assert WinInv(world.windows[id], id, world.generation, issued);
    }
  }

  lemma ClaimStepKeepsFresh(s: Sys, a: ClaimStep)
    requires WorldInv(s.world, s.issued) && StepClaim(s, a).Some?
    ensures FreshInv(StepClaim(s, a).value.world, StepClaim(s, a).value.task)
  {
    if a.CaptureWindow? && StepClaim(s, a).value.task.Claiming? && a.capture.inherited {
      IssueIsFresh(s.world, s.issued, a.hookIndex);
    }
  }

  lemma BearsMore(x: Win, holder: Option<(string, nat)>)
    requires Bears(x, None) && (holder.Some? ==> holder.value.1 !in x.claims)
    ensures Bears(x, holder)
  {
  }

  /** A claim's outcome leaves every other window's holder alone, and its own window with the claimant. */
  lemma AfterClaimHolds(s: Sys, c: Claimant, tries: nat, reply: Reply, replied: bool, key: Key)
    requires KeyOf(c) !in s.pins && s.task.Claiming? && (reply.Conflict? ==> c.capture.inherited)
    ensures var t := AfterClaim(s, c, tries, reply, replied);
            && (key != KeyOf(c) ==> Holder(t.pins, t.task, key) == Holder(s.pins, s.task, key))
            && (key == KeyOf(c) ==> Holder(s.pins, s.task, key).None?)
            && (key == KeyOf(c) && c.capture.inherited && (!replied || reply.Accepted?) ==>
                  Holder(t.pins, t.task, key) == Some((c.owner, c.hookIndex)))
            && (key == KeyOf(c) && Holder(t.pins, t.task, key).Some? ==>
                  c.capture.inherited && Holder(t.pins, t.task, key) == Some((c.owner, c.hookIndex)))
  {
  }

  lemma ClaimBears(s: Sys, c: Claimant, tries: nat, reply: Reply, replied: bool, key: Key, x: Win)
    requires KeyOf(c) !in s.pins && s.task.Claiming? && Bears(x, Holder(s.pins, s.task, key))
    requires c.capture.inherited ==> HasOwner(s.issued, c.owner, c.hookIndex) && c.hookIndex !in x.claims
    requires reply.Conflict? ==> c.capture.inherited
    ensures var t := AfterClaim(s, c, tries, reply, replied);
            && Bears(x, Holder(t.pins, t.task, key))
            && (key == KeyOf(c) && reply == PinReply(x.w, c.capture) ==> Bears(PinWin(x, c), Holder(t.pins, t.task, key)))
  {
    var t := AfterClaim(s, c, tries, reply, replied);
    AfterClaimHolds(s, c, tries, reply, replied, key);
    if key == KeyOf(c) {
      BearsMore(x, Holder(t.pins, t.task, key));
      PinBears(x, c, s.issued);
    }
  }

  /** What the step of a delivered claim amounts to; its outcome is decided before the world is looked at again. */
  lemma ClaimRunsIs(s: Sys, current: string, replied: bool)
    requires s.task.Claiming? && current in s.world.windows
    ensures var (c, x) := (s.task.claim, s.world.windows[current]);
            var u := s.(world := Place(s.world, current, PinWin(x, c)));
            var t := AfterClaim(u, c, s.task.tries, PinReply(x.w, c.capture), replied);
            StepClaim(s, ClaimRuns(current, replied)) == Some(t) && t.world == u.world
  {
  }

  /** A claim that takes hold does so on the captured window. */
  lemma PinElsewhere(x: Win, c: Claimant)
    requires x.w.id != c.capture.win || x.w.generation != c.capture.generation
    ensures PinWin(x, c) == x
  {
  }

  lemma ClaimRunsAt(s: Sys, c: Claimant, tries: nat, replied: bool, current: string, id: string)
    requires KeyOf(c) !in s.pins && s.task.Claiming? && (c.capture.inherited ==> HasOwner(s.issued, c.owner, c.hookIndex))
    requires current in s.world.windows && id in s.world.windows
    requires c.capture.inherited ==> c.hookIndex !in s.world.windows[id].claims
    requires s.world.windows[current].w.id == current && s.world.windows[current].w.generation == s.world.generation
    requires Bears(s.world.windows[id], Holder(s.pins, s.task, Key(s.world.generation, id)))
    ensures var x := s.world.windows[id];
            var t := AfterClaim(s, c, tries, PinReply(s.world.windows[current].w, c.capture), replied);
            Bears(if id == current then PinWin(x, c) else x, Holder(t.pins, t.task, Key(s.world.generation, id)))
  {
    var reply := PinReply(s.world.windows[current].w, c.capture);
    ClaimBears(s, c, tries, reply, replied, Key(s.world.generation, id), s.world.windows[id]);
    if id == current && Key(s.world.generation, id) != KeyOf(c) {
      PinElsewhere(s.world.windows[id], c);
    }
  }

  lemma ClaimRunsKeepsBear(s: Sys, current: string, replied: bool)
    requires BearInv(s.world, s.pins, s.task) && TaskInv(s.task, s.pins, s.issued) && StepClaim(s, ClaimRuns(current, replied)).Some?
    requires FreshInv(s.world, s.task)
    requires s.world.windows[current].w.id == current && s.world.windows[current].w.generation == s.world.generation
    ensures var t := StepClaim(s, ClaimRuns(current, replied)).value; BearInv(t.world, t.pins, t.task)
  {
    var t := AfterClaim(s, s.task.claim, s.task.tries, PinReply(s.world.windows[current].w, s.task.claim.capture), replied);
    var world := Place(s.world, current, PinWin(s.world.windows[current], s.task.claim));
    forall id | id in world.windows ensures Bears(world.windows[id], Holder(t.pins, t.task, Key(world.generation, id))) {
      ClaimRunsAt(s, s.task.claim, s.task.tries, replied, current, id);
    }
  }

  lemma LostKeepsBear(s: Sys)
    requires BearInv(s.world, s.pins, s.task) && TaskInv(s.task, s.pins, s.issued) && s.task.Claiming? && FreshInv(s.world, s.task)
    ensures var t := AfterClaim(s, s.task.claim, s.task.tries, Rejected, false); BearInv(s.world, t.pins, t.task)
  {
    var t := AfterClaim(s, s.task.claim, s.task.tries, Rejected, false);
    forall id | id in s.world.windows ensures Bears(s.world.windows[id], Holder(t.pins, t.task, Key(s.world.generation, id))) {
      ClaimBears(s, s.task.claim, s.task.tries, Rejected, false, Key(s.world.generation, id), s.world.windows[id]);
    }
  }

  lemma CaptureKeepsBear(s: Sys, c: Claimant, tries: nat)
    requires BearInv(s.world, s.pins, s.task) && s.task.Capturing? && AfterCapture(s, c, tries).Some?
    ensures var t := AfterCapture(s, c, tries).value; BearInv(t.world, t.pins, t.task)
  {
    SameHolders(s, AfterCapture(s, c, tries).value);
  }

  lemma IdleKeepsBear(s: Sys, task: Task)
    requires BearInv(s.world, s.pins, s.task) && !s.task.RollingBack? && !task.RollingBack?
    ensures BearInv(s.world, s.pins, task)
  {
    SameHolders(s, s.(task := task));
  }

  lemma WindowsKnowThemselves(world: World, issued: map<string, nat>, id: string)
    requires WorldInv(world, issued) && id in world.windows
    ensures world.windows[id].w.id == id && world.windows[id].w.generation == world.generation
  {
    assert WinInv(world.windows[id], id, world.generation, issued);
  }

  lemma CaptureStepKeepsBear(s: Sys, c: Capture, owner: string, hookIndex: nat)
    requires Inv(s) && StepClaim(s, CaptureWindow(c, owner, hookIndex)).Some?
    ensures var t := StepClaim(s, CaptureWindow(c, owner, hookIndex)).value; BearInv(t.world, t.pins, t.task)
  {
    CaptureKeepsBear(s, Claimant(c, owner, hookIndex), s.task.tries - 1);
  }

  lemma RunsStepKeepsBear(s: Sys, current: string, replied: bool)
    requires Inv(s) && StepClaim(s, ClaimRuns(current, replied)).Some?
    ensures var t := StepClaim(s, ClaimRuns(current, replied)).value; BearInv(t.world, t.pins, t.task)
  {
    WindowsKnowThemselves(s.world, s.issued, current);
    ClaimRunsKeepsBear(s, current, replied);
  }

  lemma ClaimStepKeepsBear(s: Sys, a: ClaimStep)
    requires Inv(s) && StepClaim(s, a).Some?
    ensures var t := StepClaim(s, a).value; BearInv(t.world, t.pins, t.task)
  {
    match a
    case Begin(generation) => IdleKeepsBear(s, Capturing(generation, Attempts));
    case CaptureFails => IdleKeepsBear(s, Idle);
    case CaptureWindow(c, owner, hookIndex) => CaptureStepKeepsBear(s, c, owner, hookIndex);
    case ClaimLost => LostKeepsBear(s);
    case ClaimRuns(current, replied) => RunsStepKeepsBear(s, current, replied);
    case RollbackRuns(delivered, ok) => RollbackKeepsBear(s, delivered, ok);
  }

  lemma SameHolders(s: Sys, t: Sys)
    requires BearInv(s.world, s.pins, s.task)
    ensures s.world == t.world && (forall key :: Holder(t.pins, t.task, key) == Holder(s.pins, s.task, key)) ==>
              BearInv(t.world, t.pins, t.task)
  {
  }

  /** A lost restore changes no window, a delivered one only the window it names. */
  lemma RestoreAt(world: World, key: Key, owner: string, hookIndex: nat, id: string)
    ensures var v := RestoreOn(world, key, owner, hookIndex);
            && v.generation == world.generation && v.windows.Keys == world.windows.Keys
            && (id in world.windows && key == Key(world.generation, id) ==>
                  v.windows[id] == RestoreWin(world.windows[id], owner, hookIndex))
            && (id in world.windows && key != Key(world.generation, id) ==> v.windows[id] == world.windows[id])
  {
  }

  /** Once its holder's restore ran, the holder can be forgotten, or kept. */
  lemma RestoreForgets(world: World, key: Key, owner: string, hookIndex: nat, id: string,
                       before: Option<(string, nat)>, after: Option<(string, nat)>)
    requires id in world.windows && Bears(world.windows[id], before) && owner != ""
    requires if key == Key(world.generation, id) then before == Some((owner, hookIndex)) && (after.Some? ==> after == before)
             else after == before
    ensures id in RestoreOn(world, key, owner, hookIndex).windows
    ensures Bears(RestoreOn(world, key, owner, hookIndex).windows[id], after)
  {
    RestoreAt(world, key, owner, hookIndex, id);
    assert id in RestoreOn(world, key, owner, hookIndex).windows.Keys;
    if key == Key(world.generation, id) {
      RestoreBears(world.windows[id], owner, hookIndex, after);
    }
  }

  lemma RollbackKeepsBear(s: Sys, delivered: bool, ok: bool)
    requires Inv(s) && StepClaim(s, RollbackRuns(delivered, ok)).Some?
    ensures var t := StepClaim(s, RollbackRuns(delivered, ok)).value; BearInv(t.world, t.pins, t.task)
  {
    var (c, t) := (s.task.claim, StepClaim(s, RollbackRuns(delivered, ok)).value);
    RestoreAt(s.world, KeyOf(c), c.owner, c.hookIndex, "");
    forall id | id in t.world.windows ensures Bears(t.world.windows[id], Holder(t.pins, t.task, Key(s.world.generation, id))) {
      assert id in s.world.windows.Keys;
      if delivered {
        RestoreForgets(s.world, KeyOf(c), c.owner, c.hookIndex, id, Holder(s.pins, s.task, Key(s.world.generation, id)),
                       Holder(t.pins, t.task, Key(s.world.generation, id)));
      }
    }
  }

  /** A restore by the holder of a key leaves the key's window clean, or not worse if it was lost. */
  lemma RestoredKeepsBear(s: Sys, key: Key, delivered: bool, ok: bool)
    requires BearInv(s.world, s.pins, s.task) && key in s.pins && s.pins[key].restore && s.pins[key].owner != ""
    requires !s.task.RollingBack? && (ok ==> delivered)
    ensures var t := Restored(s, key, delivered, ok); BearInv(t.world, t.pins, t.task)
  {
    var (pin, t) := (s.pins[key], Restored(s, key, delivered, ok));
    RestoreAt(s.world, key, pin.owner, pin.hookIndex, "");
    if delivered {
      forall id | id in t.world.windows ensures Bears(t.world.windows[id], Holder(t.pins, t.task, Key(s.world.generation, id))) {
        assert id in s.world.windows.Keys;
        RestoreForgets(s.world, key, pin.owner, pin.hookIndex, id, Holder(s.pins, s.task, Key(s.world.generation, id)),
                       Holder(t.pins, t.task, Key(s.world.generation, id)));
      }
    }
  }

  lemma CleanKeepsBear(s: Sys, key: Key, delivered: bool, ok: bool)
    requires BearInv(s.world, s.pins, s.task) && PinsOwned(s.pins, s.issued)
    requires StepRelease(s, CleanNext(key, delivered, ok)).Some?
    ensures var t := StepRelease(s, CleanNext(key, delivered, ok)).value; BearInv(t.world, t.pins, t.task)
  {
    var u := s.(task := Cleaning(s.task.left - {key}));
    SameHolders(s, u);
    if NeedsRestore(s.pins, key) {
      RestoredKeepsBear(u, key, delivered, ok);
    } else {
      SameHolders(u, u.(pins := Forget(s.pins, key)));
    }
  }

  lemma CallKeepsBear(s: Sys, i: nat)
    requires BearInv(s.world, s.pins, s.task) && StepRelease(s, Call(i)).Some?
    ensures var t := StepRelease(s, Call(i)).value; BearInv(t.world, t.pins, t.task)
  {
    SameHolders(s, StepRelease(s, Call(i)).value);
  }

  lemma ReleaseStepKeepsBear(s: Sys, a: ReleaseStep)
    requires BearInv(s.world, s.pins, s.task) && PinsOwned(s.pins, s.issued) && TaskInv(s.task, s.pins, s.issued)
    requires StepRelease(s, a).Some?
    ensures var t := StepRelease(s, a).value; BearInv(t.world, t.pins, t.task)
  {
    match a
    case Call(i) => CallKeepsBear(s, i);
    case ReleaseRuns(delivered, ok) =>
      RestoredKeepsBear(s, s.task.key, delivered, ok);
      SameHolders(Restored(s, s.task.key, delivered, ok), StepRelease(s, a).value);
    case BeginCleanup => IdleKeepsBear(s, Cleaning(s.pins.Keys));
    case CleanNext(key, delivered, ok) => CleanKeepsBear(s, key, delivered, ok);
    case EndCleanup => IdleKeepsBear(s, Idle);
  }

  // ----- runs -----

  lemma HostKeepsInv(s: Sys, a: HostStep)
    requires Inv(s) && StepHost(s.world, s.issued, a).Some?
    ensures Inv(s.(world := StepHost(s.world, s.issued, a).value))
  {
    HostKeepsWorld(s.world, a, s.issued);
    HostKeepsBear(s, a);
    HostKeepsFresh(s, a);
  }

  lemma ClaimKeepsInv(s: Sys, a: ClaimStep)
    requires Inv(s) && StepClaim(s, a).Some?
    ensures Inv(StepClaim(s, a).value)
  {
    ClaimStepCounts(s, a);
    ClaimStepOwns(s, a);
    ClaimStepKeepsWorld(s, a);
    ClaimStepKeepsFresh(s, a);
    ClaimStepKeepsBear(s, a);
  }

  lemma ReleaseKeepsFresh(s: Sys, a: ReleaseStep)
    requires StepRelease(s, a).Some?
    ensures !StepRelease(s, a).value.task.Claiming?
  {
  }

  lemma ReleaseKeepsInv(s: Sys, a: ReleaseStep)
    requires Inv(s) && StepRelease(s, a).Some?
    ensures Inv(StepRelease(s, a).value)
  {
    ReleaseStepCounts(s, a);
    ReleaseStepOwns(s, a);
    ReleaseStepKeepsWorld(s, a);
    ReleaseStepKeepsBear(s, a);
    ReleaseKeepsFresh(s, a);
  }

  lemma StepKeepsInv(s: Sys, a: Action, t: Sys)
    requires Inv(s) && Step(s, a) == Some(t)
    ensures Inv(t)
  {
    match a
    case OnHost(host) => HostKeepsInv(s, host);
    case OnClaim(claim) => ClaimKeepsInv(s, claim);
    case OnRelease(release) => ReleaseKeepsInv(s, release);
  }

  lemma RunStep(ss: seq<Sys>, acts: seq<Action>, generation: string, i: nat)
    requires IsRun(ss, acts, generation) && i < |acts|
    ensures Step(ss[i], acts[i]) == Some(ss[i + 1])
  {
  }

  lemma {:induction false} RunKeepsInv(ss: seq<Sys>, acts: seq<Action>, generation: string, i: nat)
    requires IsRun(ss, acts, generation) && i < |ss|
    ensures Inv(ss[i])
  {
    if i > 0 {
      RunKeepsInv(ss, acts, generation, i - 1);
      RunStep(ss, acts, generation, i - 1);
      StepKeepsInv(ss[i - 1], acts[i - 1], ss[i]);
    }
  }

  // ----- what the host set stays -----

  lemma RestoreSparesWorld(world: World, key: Key, owner: string, hookIndex: nat, issued: map<string, nat>, id: string)
    requires WorldInv(world, issued) && owner != "" && id in world.windows && ByHost(world.windows[id].w)
    ensures var v := RestoreOn(world, key, owner, hookIndex);
            id in v.windows && v.windows[id].w.size == world.windows[id].w.size
  {
    assert WinInv(world.windows[id], id, world.generation, issued);
    RestoreAt(world, key, owner, hookIndex, id);
    assert id in RestoreOn(world, key, owner, hookIndex).windows.Keys;
    RestoreSparesHost(world.windows[id].w, owner, hookIndex, issued);
  }

  lemma PinSparesHost(x: Win, c: Claimant)
    requires ByHost(x.w)
    ensures PinWin(x, c) == x
  {
  }

  lemma ClaimSparesHost(s: Sys, current: string, replied: bool, id: string)
    requires StepClaim(s, ClaimRuns(current, replied)).Some? && id in s.world.windows && ByHost(s.world.windows[id].w)
    ensures var t := StepClaim(s, ClaimRuns(current, replied)).value;
            id in t.world.windows && t.world.windows[id].w.size == s.world.windows[id].w.size
  {
    ClaimRunsIs(s, current, replied);
    PinSparesHost(s.world.windows[id], s.task.claim);
  }

  lemma RollbackSparesHost(s: Sys, delivered: bool, ok: bool, id: string)
    requires WorldInv(s.world, s.issued) && TaskInv(s.task, s.pins, s.issued) && StepClaim(s, RollbackRuns(delivered, ok)).Some?
    requires id in s.world.windows && ByHost(s.world.windows[id].w)
    ensures var t := StepClaim(s, RollbackRuns(delivered, ok)).value;
            id in t.world.windows && t.world.windows[id].w.size == s.world.windows[id].w.size
  {
    var c := s.task.claim;
    RestoreSparesWorld(s.world, KeyOf(c), c.owner, c.hookIndex, s.issued, id);
  }

  lemma ClaimStepSparesHost(s: Sys, a: ClaimStep, id: string)
    requires Inv(s) && StepClaim(s, a).Some? && id in s.world.windows && ByHost(s.world.windows[id].w)
    ensures var t := StepClaim(s, a).value;
            id in t.world.windows && t.world.windows[id].w.size == s.world.windows[id].w.size
  {
    match a
    case ClaimRuns(current, replied) => ClaimSparesHost(s, current, replied, id);
    case RollbackRuns(delivered, ok) => RollbackSparesHost(s, delivered, ok, id);
    case _ =>
  }

  lemma ReleaseStepSparesHost(s: Sys, a: ReleaseStep, id: string)
    requires Inv(s) && StepRelease(s, a).Some? && id in s.world.windows && ByHost(s.world.windows[id].w)
    ensures var t := StepRelease(s, a).value;
            id in t.world.windows && t.world.windows[id].w.size == s.world.windows[id].w.size
  {
    match a
    case ReleaseRuns(_, _) =>
      RestoreSparesWorld(s.world, s.task.key, s.pins[s.task.key].owner, s.pins[s.task.key].hookIndex, s.issued, id);
    case CleanNext(key, _, _) =>
      if NeedsRestore(s.pins, key) {
        RestoreSparesWorld(s.world, key, s.pins[key].owner, s.pins[key].hookIndex, s.issued, id);
      }
    case _ =>
  }

  /**
   Host sizing is authoritative: whatever the interleaving, no step of Wrap changes or removes a
   window-size the host set, even one equal to Wrap's own.
   */
  lemma HostSizesSurvive(ss: seq<Sys>, acts: seq<Action>, generation: string, i: nat, id: string)
    requires IsRun(ss, acts, generation) && i < |acts| && !acts[i].OnHost?
    requires id in ss[i].world.windows && ByHost(ss[i].world.windows[id].w)
    ensures id in ss[i + 1].world.windows && ss[i + 1].world.windows[id].w.size == ss[i].world.windows[id].w.size
  {
    RunKeepsInv(ss, acts, generation, i);
    assert Step(ss[i], acts[i]) == Some(ss[i + 1]);
    match acts[i]
    case OnClaim(a) => ClaimStepSparesHost(ss[i], a, id);
    case OnRelease(a) => ReleaseStepSparesHost(ss[i], a, id);
  }

  /** The host's hooks on a window. */
  function HostHooks(hooks: map<HookKey, Hook>): map<HookKey, Hook> {
    map key | key in hooks && hooks[key].actor == Host :: hooks[key]
  }

  lemma SameHostHooks(hooks: map<HookKey, Hook>, after: map<HookKey, Hook>, n: nat, issued: map<string, nat>)
    requires HostApart(hooks, issued) && n in issued.Values && after - Pair(n) == hooks - Pair(n)
    requires forall key :: key in Pair(n) && key in after ==> after[key].actor == Wrap
    ensures HostHooks(after) == HostHooks(hooks)
  {
    var owner :| owner in issued && issued[owner] == n;
    forall key ensures key in HostHooks(after) <==> key in HostHooks(hooks) {
      assert key !in Pair(n) ==> (key in after - Pair(n) <==> key in hooks - Pair(n));
    }
    forall key | key in HostHooks(after) ensures HostHooks(after)[key] == HostHooks(hooks)[key] {
      assert key !in Pair(n) && key in after - Pair(n) && (after - Pair(n))[key] == (hooks - Pair(n))[key];
    }
  }

  lemma PinSparesHooks(x: Win, c: Claimant, issued: map<string, nat>)
    requires HostApart(x.w.hooks, issued) && (c.capture.inherited ==> HasOwner(issued, c.owner, c.hookIndex))
    ensures HostHooks(PinWin(x, c).w.hooks) == HostHooks(x.w.hooks)
  {
    PinKeeps(x.w, c.capture, c.owner, c.hookIndex, issued);
    if TakesHold(x.w, c.capture) {
      PairIsWraps(PinWin(x, c).w.hooks, c.hookIndex);
      SameHostHooks(x.w.hooks, PinWin(x, c).w.hooks, c.hookIndex, issued);
    }
  }

  lemma RestoreSparesHooks(world: World, key: Key, owner: string, hookIndex: nat, issued: map<string, nat>, id: string)
    requires WorldInv(world, issued) && HasOwner(issued, owner, hookIndex) && id in world.windows
    ensures var v := RestoreOn(world, key, owner, hookIndex);
            id in v.windows && HostHooks(v.windows[id].w.hooks) == HostHooks(world.windows[id].w.hooks)
  {
    assert WinInv(world.windows[id], id, world.generation, issued);
    RestoreAt(world, key, owner, hookIndex, id);
    assert id in RestoreOn(world, key, owner, hookIndex).windows.Keys;
    RestoreShape(world.windows[id].w, owner, hookIndex);
    SameHostHooks(world.windows[id].w.hooks, world.windows[id].w.hooks - Pair(hookIndex), hookIndex, issued);
  }

  lemma PlaceSparesHooks(s: Sys, y: Win, c: Claimant, tries: nat, reply: Reply, replied: bool, current: string, id: string)
    requires current in s.world.windows && id in s.world.windows
    requires HostHooks(y.w.hooks) == HostHooks(s.world.windows[current].w.hooks)
    ensures var t := AfterClaim(s.(world := Place(s.world, current, y)), c, tries, reply, replied);
            id in t.world.windows && HostHooks(t.world.windows[id].w.hooks) == HostHooks(s.world.windows[id].w.hooks)
  {
  }

  lemma RunsSpareHooks(s: Sys, current: string, replied: bool, id: string)
    requires TaskInv(s.task, s.pins, s.issued) && StepClaim(s, ClaimRuns(current, replied)).Some? && id in s.world.windows
    requires HostApart(s.world.windows[current].w.hooks, s.issued)
    ensures var t := StepClaim(s, ClaimRuns(current, replied)).value;
            id in t.world.windows && HostHooks(t.world.windows[id].w.hooks) == HostHooks(s.world.windows[id].w.hooks)
  {
    var (c, x) := (s.task.claim, s.world.windows[current]);
    ClaimRunsIs(s, current, replied);
    PinSparesHooks(x, c, s.issued);
    PlaceSparesHooks(s, PinWin(x, c), c, s.task.tries, PinReply(x.w, c.capture), replied, current, id);
  }

  lemma RollbackSparesHooks(s: Sys, delivered: bool, ok: bool, id: string)
    requires WorldInv(s.world, s.issued) && TaskInv(s.task, s.pins, s.issued) && id in s.world.windows
    requires StepClaim(s, RollbackRuns(delivered, ok)).Some?
    ensures var t := StepClaim(s, RollbackRuns(delivered, ok)).value;
            id in t.world.windows && HostHooks(t.world.windows[id].w.hooks) == HostHooks(s.world.windows[id].w.hooks)
  {
    RestoreSparesHooks(s.world, KeyOf(s.task.claim), s.task.claim.owner, s.task.claim.hookIndex, s.issued, id);
  }

  lemma ClaimSparesHooks(s: Sys, a: ClaimStep, id: string)
    requires Inv(s) && StepClaim(s, a).Some? && id in s.world.windows
    ensures var t := StepClaim(s, a).value;
            id in t.world.windows && HostHooks(t.world.windows[id].w.hooks) == HostHooks(s.world.windows[id].w.hooks)
  {
    if a.ClaimRuns? {
      assert WinInv(s.world.windows[a.current], a.current, s.world.generation, s.issued);
      RunsSpareHooks(s, a.current, a.replied, id);
    } else if a.RollbackRuns? {
      RollbackSparesHooks(s, a.delivered, a.ok, id);
    } else {
      assert StepClaim(s, a).value.world == s.world;
    }
  }

  lemma ReleaseSparesHooks(s: Sys, a: ReleaseStep, id: string)
    requires Inv(s) && StepRelease(s, a).Some? && id in s.world.windows
    ensures var t := StepRelease(s, a).value;
            id in t.world.windows && HostHooks(t.world.windows[id].w.hooks) == HostHooks(s.world.windows[id].w.hooks)
  {
    match a
    case ReleaseRuns(_, _) =>
      RestoreSparesHooks(s.world, s.task.key, s.pins[s.task.key].owner, s.pins[s.task.key].hookIndex, s.issued, id);
    case CleanNext(key, _, _) =>
      if NeedsRestore(s.pins, key) {
        RestoreSparesHooks(s.world, key, s.pins[key].owner, s.pins[key].hookIndex, s.issued, id);
      }
    case _ =>
  }

  /** No step of Wrap adds, changes or removes a hook of the host's. */
  lemma HostHooksSurvive(ss: seq<Sys>, acts: seq<Action>, generation: string, i: nat, id: string)
    requires IsRun(ss, acts, generation) && i < |acts| && !acts[i].OnHost? && id in ss[i].world.windows
    ensures id in ss[i + 1].world.windows
    ensures HostHooks(ss[i + 1].world.windows[id].w.hooks) == HostHooks(ss[i].world.windows[id].w.hooks)
  {
    RunKeepsInv(ss, acts, generation, i);
    RunStep(ss, acts, generation, i);
    match acts[i]
    case OnClaim(a) => ClaimSparesHooks(ss[i], a, id);
    case OnRelease(a) => ReleaseSparesHooks(ss[i], a, id);
  }

  /**
   Where no pin and no rollback holds a window, it bears no trace of Wrap exactly when no claim on it was
   left standing; and then, if the host did not size it since the last claim, its size is inherited again.
   */
  lemma NoTraceWithoutPin(ss: seq<Sys>, acts: seq<Action>, generation: string, i: nat, id: string)
    requires IsRun(ss, acts, generation) && i < |ss| && id in ss[i].world.windows
    requires Holder(ss[i].pins, ss[i].task, Key(ss[i].world.generation, id)).None?
    ensures var x := ss[i].world.windows[id];
            && (Clean(x.w) <==> x.claims == {})
            && (Clean(x.w) && !x.touched ==> x.w.size.None?)
  {
    RunKeepsInv(ss, acts, generation, i);
    var x := ss[i].world.windows[id];
    assert Bears(x, None);
    assert WinInv(x, id, ss[i].world.generation, ss[i].issued);
    ClaimsShow(x.w.hooks, x.claims);
  }

  lemma ClaimsShow(hooks: map<HookKey, Hook>, claims: set<nat>)
    requires ClaimHooks(hooks, claims)
    ensures WrapKeys(hooks) == {} ==> claims == {}
  {
    if n :| n in claims {
      assert Keys(Decimal(n))[0] in Pair(n);
      assert Keys(Decimal(n))[0] in WrapKeys(hooks);
    }
  }

  // ----- counting -----

  /** A pin's references are the release functions handed out for it and not yet called. */
  lemma ReferencesCountHandles(ss: seq<Sys>, acts: seq<Action>, generation: string, i: nat, key: Key)
    requires IsRun(ss, acts, generation) && i < |ss|
    ensures Uncalled(ss[i].handles, key) == if key in ss[i].pins then ss[i].pins[key].references else 0
  {
    RunKeepsInv(ss, acts, generation, i);
  }

  /** The key an action asks tmux to restore, outside rollbacks. */
  function Restoring(s: Sys, a: Action): Option<Key> {
    match a
    case OnRelease(ReleaseRuns(_, _)) => if s.task.Releasing? then Some(s.task.key) else None
    case OnRelease(CleanNext(key, _, _)) => if NeedsRestore(s.pins, key) then Some(key) else None
    case _ => None
  }

  predicate Succeeded(a: Action) {
    match a
    case OnRelease(ReleaseRuns(_, ok)) => ok
    case OnRelease(CleanNext(_, _, ok)) => ok
    case _ => false
  }

  /** Restores are issued only for pins nobody references; the entry goes exactly when the restore succeeds. */
  lemma RestoreOnlyAtZero(ss: seq<Sys>, acts: seq<Action>, generation: string, i: nat)
    requires IsRun(ss, acts, generation) && i < |acts| && Restoring(ss[i], acts[i]).Some?
    ensures var key := Restoring(ss[i], acts[i]).value;
            && key in ss[i].pins && Uncalled(ss[i].handles, key) == 0
            && ss[i + 1].pins == if Succeeded(acts[i]) then ss[i].pins - {key} else ss[i].pins
  {
    RunKeepsInv(ss, acts, generation, i);
    assert Step(ss[i], acts[i]) == Some(ss[i + 1]);
  }

  lemma ClaimsKeepPins(s: Sys, a: ClaimStep, key: Key)
    requires StepClaim(s, a).Some? && key in s.pins
    ensures key in StepClaim(s, a).value.pins
  {
  }

  lemma ReleasesKeepPins(s: Sys, a: ReleaseStep, key: Key)
    requires StepRelease(s, a).Some? && key in s.pins && s.pins[key].restore && key !in StepRelease(s, a).value.pins
    ensures Restoring(s, OnRelease(a)) == Some(key) && Succeeded(OnRelease(a))
  {
  }

  /** A pin leaves the factory only with its last reference and, where there is something to undo, only by a restore that succeeded. */
  lemma PinsLeaveRestored(ss: seq<Sys>, acts: seq<Action>, generation: string, i: nat, key: Key)
    requires IsRun(ss, acts, generation) && i < |acts| && key in ss[i].pins && key !in ss[i + 1].pins
    ensures Uncalled(ss[i + 1].handles, key) == 0
    ensures ss[i].pins[key].restore ==> Restoring(ss[i], acts[i]) == Some(key) && Succeeded(acts[i])
  {
    ReferencesCountHandles(ss, acts, generation, i + 1, key);
    assert Step(ss[i], acts[i]) == Some(ss[i + 1]);
    match acts[i]
    case OnHost(_) =>
    case OnClaim(a) => ClaimsKeepPins(ss[i], a, key);
    case OnRelease(a) =>
      if ss[i].pins[key].restore {
        ReleasesKeepPins(ss[i], a, key);
      }
  }

  /** Calling a release function again takes nobody's reference. */
  lemma OldReleaseIsHarmless(ss: seq<Sys>, acts: seq<Action>, generation: string, i: nat, h: nat, key: Key)
    requires IsRun(ss, acts, generation) && i < |acts| && acts[i] == OnRelease(Call(h)) && h < |ss[i].handles|
    requires ss[i].handles[h].called
    ensures Uncalled(ss[i + 1].handles, key) == Uncalled(ss[i].handles, key)
    ensures key in ss[i].pins && ss[i].pins[key].references > 0 ==> key in ss[i + 1].pins && ss[i + 1].pins[key] == ss[i].pins[key]
  {
    assert Step(ss[i], acts[i]) == Some(ss[i + 1]);
    UncalledCall(ss[i].handles, h, key);
  }

  // ----- every command is the printed one -----

  predicate RestorablePin(key: Key, pin: Pin) {
    Restorable(key.generation, key.id, pin.mode, true, pin.owner, pin.hookIndex)
  }

  predicate PinnableClaim(c: Claimant) {
    Pinnable(c.capture, c.owner, c.hookIndex)
  }

  ghost predicate Printable(pins: Pins, task: Task) {
    && (forall key :: key in pins && pins[key].restore ==> RestorablePin(key, pins[key]))
    && (task.Claiming? || task.RollingBack? ==> PinnableClaim(task.claim))
  }

  lemma CapturePrintable(s: Sys, c: Claimant, tries: nat)
    requires Printable(s.pins, s.task) && AfterCapture(s, c, tries).Some?
    ensures Printable(AfterCapture(s, c, tries).value.pins, AfterCapture(s, c, tries).value.task)
  {
  }

  lemma ClaimPrintable(s: Sys, c: Claimant, tries: nat, reply: Reply, replied: bool)
    requires Printable(s.pins, s.task) && PinnableClaim(c)
    ensures var t := AfterClaim(s, c, tries, reply, replied); Printable(t.pins, t.task)
  {
  }

  lemma StepKeepsPrintable(s: Sys, a: Action)
    requires Printable(s.pins, s.task) && Step(s, a).Some?
    ensures Printable(Step(s, a).value.pins, Step(s, a).value.task)
  {
    match a
    case OnHost(_) =>
    case OnClaim(CaptureWindow(c, owner, hookIndex)) => CapturePrintable(s, Claimant(c, owner, hookIndex), s.task.tries - 1);
    case OnClaim(ClaimLost) => ClaimPrintable(s, s.task.claim, s.task.tries, Rejected, false);
    case OnClaim(ClaimRuns(current, replied)) =>
      var (c, x) := (s.task.claim, s.world.windows[current]);
      var t := s.(world := Place(s.world, current, PinWin(x, c)));
      ClaimPrintable(t, c, s.task.tries, PinReply(x.w, c.capture), replied);
    case OnClaim(_) =>
    case OnRelease(release) => ReleasePrintable(s, release);
  }

  lemma ReleasePrintable(s: Sys, a: ReleaseStep)
    requires Printable(s.pins, s.task) && StepRelease(s, a).Some?
    ensures Printable(StepRelease(s, a).value.pins, StepRelease(s, a).value.task)
  {
  }

  lemma {:induction false} RunKeepsPrintable(ss: seq<Sys>, acts: seq<Action>, generation: string, i: nat)
    requires IsRun(ss, acts, generation) && i < |ss|
    ensures Printable(ss[i].pins, ss[i].task)
  {
    if i > 0 {
      RunKeepsPrintable(ss, acts, generation, i - 1);
      assert Step(ss[i - 1], acts[i - 1]) == Some(ss[i]);
      StepKeepsPrintable(ss[i - 1], acts[i - 1]);
    }
  }

  /** Every hook on every window is one Wrap printed, or a harmless one of the host's. */
  ghost predicate HooksInv(world: World) {
    forall id :: id in world.windows ==> TameHooks(world.windows[id].w)
  }

  lemma HooksSet(world: World, id: string, x: Win)
    requires HooksInv(world) && TameHooks(x.w)
    ensures HooksInv(Place(world, id, x))
  {
  }

  lemma SameHooks(w: Window, v: Window)
    requires TameHooks(w) && v.id == w.id && v.hooks == w.hooks
    ensures TameHooks(v)
  {
  }

  lemma CreatedIsTame(w: Window, issued: map<string, nat>)
    requires Untouched(w, issued)
    ensures TameHooks(w)
  {
    forall key | key in w.hooks ensures TameHook(w.hooks[key], key.event, w.id) {
      assert key !in WrapKeys(w.hooks);
      assert HostHook(key, w.hooks[key].text, w.id, issued);
    }
  }

  lemma HookAddedIsTame(w: Window, key: HookKey, text: string)
    requires TameHooks(w) && Harmless(text, w.id)
    ensures TameHooks(w.(hooks := w.hooks[key := Hook(text, Host)]))
  {
  }

  lemma HookDroppedIsTame(w: Window, key: HookKey)
    requires TameHooks(w)
    ensures TameHooks(w.(hooks := w.hooks - {key}))
  {
  }

  lemma HostKeepsHooks(world: World, issued: map<string, nat>, a: HostStep)
    requires HooksInv(world) && WorldInv(world, issued) && StepHost(world, issued, a).Some?
    ensures HooksInv(StepHost(world, issued, a).value)
  {
    match a
    case Size(id, h) =>
      var x := world.windows[id];
      SameHooks(x.w, HostEffect(x.w, h));
      HooksSet(world, id, Win(HostEffect(x.w, h), true, x.claims));
    case Ambient(id, inherited, columns, rows, status) =>
      var x := world.windows[id];
      SameHooks(x.w, Ambience(x.w, inherited, columns, rows, status));
      HooksSet(world, id, x.(w := Ambience(x.w, inherited, columns, rows, status)));
    case SetHook(id, key, text) =>
      var x := world.windows[id];
      WindowsKnowThemselves(world, issued, id);
      HookAddedIsTame(x.w, key, text);
      HooksSet(world, id, x.(w := x.w.(hooks := x.w.hooks[key := Hook(text, Host)])));
    case UnsetHook(id, key) =>
      var x := world.windows[id];
      HookDroppedIsTame(x.w, key);
      HooksSet(world, id, x.(w := x.w.(hooks := x.w.hooks - {key})));
    case Create(w) =>
      CreatedIsTame(w, issued);
      HooksSet(world, w.id, Win(w, w.size.Some?, {}));
    case Kill(_) =>
    case Restart(_) =>
  }

  lemma RestoreKeepsHooks(world: World, key: Key, owner: string, hookIndex: nat)
    requires HooksInv(world)
    ensures HooksInv(RestoreOn(world, key, owner, hookIndex))
  {
    if key.generation == world.generation && key.id in world.windows {
      var x := world.windows[key.id];
      TameHooksKept(x.w, owner, hookIndex, Capture("", "", "", 0, 0, "", false, ""));
      HooksSet(world, key.id, RestoreWin(x, owner, hookIndex));
    }
  }

  lemma PinKeepsHooks(world: World, current: string, c: Claimant)
    requires HooksInv(world) && current in world.windows
    ensures HooksInv(Place(world, current, PinWin(world.windows[current], c)))
  {
    TameHooksKept(world.windows[current].w, c.owner, c.hookIndex, c.capture);
    HooksSet(world, current, PinWin(world.windows[current], c));
  }

  lemma ClaimKeepsHooks(s: Sys, a: ClaimStep)
    requires HooksInv(s.world) && StepClaim(s, a).Some?
    ensures HooksInv(StepClaim(s, a).value.world)
  {
    if a.ClaimRuns? {
      PinKeepsHooks(s.world, a.current, s.task.claim);
    } else if a.RollbackRuns? {
      RestoreKeepsHooks(s.world, KeyOf(s.task.claim), s.task.claim.owner, s.task.claim.hookIndex);
    } else {
      assert StepClaim(s, a).value.world == s.world;
    }
  }

  lemma ReleaseKeepsHooks(s: Sys, a: ReleaseStep)
    requires HooksInv(s.world) && StepRelease(s, a).Some?
    ensures HooksInv(StepRelease(s, a).value.world)
  {
    match a
    case ReleaseRuns(_, _) => RestoreKeepsHooks(s.world, s.task.key, s.pins[s.task.key].owner, s.pins[s.task.key].hookIndex);
    case CleanNext(key, _, _) =>
      if NeedsRestore(s.pins, key) {
        RestoreKeepsHooks(s.world, key, s.pins[key].owner, s.pins[key].hookIndex);
      }
    case _ =>
  }

  lemma StepKeepsHooks(s: Sys, a: Action, t: Sys)
    requires HooksInv(s.world) && WorldInv(s.world, s.issued) && Step(s, a) == Some(t)
    ensures HooksInv(t.world)
  {
    match a
    case OnHost(host) => HostKeepsHooks(s.world, s.issued, host);
    case OnClaim(claim) => ClaimKeepsHooks(s, claim);
    case OnRelease(release) => ReleaseKeepsHooks(s, release);
  }

  lemma {:induction false} RunKeepsHooks(ss: seq<Sys>, acts: seq<Action>, generation: string, i: nat)
    requires IsRun(ss, acts, generation) && i < |ss|
    ensures HooksInv(ss[i].world)
  {
    if i > 0 {
      RunKeepsHooks(ss, acts, generation, i - 1);
      RunKeepsInv(ss, acts, generation, i - 1);
      RunStep(ss, acts, generation, i - 1);
      StepKeepsHooks(ss[i - 1], acts[i - 1], ss[i]);
    }
  }

  /** Every claim in every run is the printed vector, executed on the window the session shows. */
  lemma ClaimsArePrinted(ss: seq<Sys>, acts: seq<Action>, generation: string, i: nat, current: string)
    requires IsRun(ss, acts, generation) && i < |ss| && ss[i].task.Claiming? && current in ss[i].world.windows
    ensures var (x, c) := (ss[i].world.windows[current], ss[i].task.claim);
            && PinVector(c.capture, c.owner, c.hookIndex).Some?
            && RunArgs(x.w, PinVector(c.capture, c.owner, c.hookIndex).value, Wrap).window == PinWin(x, c).w
  {
    RunKeepsHooks(ss, acts, generation, i);
    RunKeepsPrintable(ss, acts, generation, i);
    PinIsPrinted(ss[i].world.windows[current].w, ss[i].task.claim.capture, ss[i].task.claim.owner, ss[i].task.claim.hookIndex);
  }

  lemma RestoreIsPrinted(w: Window, key: Key, pin: Pin)
    requires TameHooks(w) && w.id == key.id && RestorablePin(key, pin)
    ensures var vector := RestoreVector(key.generation, key.id, pin.mode, true, pin.owner, pin.hookIndex);
            vector.Some? && RunArgs(w, vector.value, Wrap).window ==
              if w.generation == key.generation then RestoreEffect(w, pin.owner, Decimal(pin.hookIndex)) else w
  {
    RestoreVectorRuns(w, key.generation, pin.mode, pin.owner, pin.hookIndex);
  }

  /** So is every restore of a pin. */
  lemma RestoresArePrinted(ss: seq<Sys>, acts: seq<Action>, generation: string, i: nat, key: Key)
    requires IsRun(ss, acts, generation) && i < |ss| && key in ss[i].pins && ss[i].pins[key].restore
    requires key.id in ss[i].world.windows
    ensures var (w, pin) := (ss[i].world.windows[key.id].w, ss[i].pins[key]);
            var vector := RestoreVector(key.generation, key.id, pin.mode, true, pin.owner, pin.hookIndex);
            && vector.Some? && key.id in RestoreOn(ss[i].world, key, pin.owner, pin.hookIndex).windows
            && RunArgs(w, vector.value, Wrap).window == RestoreOn(ss[i].world, key, pin.owner, pin.hookIndex).windows[key.id].w
  {
    RunKeepsInv(ss, acts, generation, i);
    RunKeepsHooks(ss, acts, generation, i);
    RunKeepsPrintable(ss, acts, generation, i);
    assert WinInv(ss[i].world.windows[key.id], key.id, ss[i].world.generation, ss[i].issued);
    RestoreIsPrinted(ss[i].world.windows[key.id].w, key, ss[i].pins[key]);
  }
}
