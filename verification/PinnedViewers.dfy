/**
 Viewers and the pins they hold: every preparation owns one release function of the factory, and calls it
 through releasePin alone.
 */
module PinnedViewers {
  import opened Options
  import opened ViewerPreparation
  import opened WindowPins

  /** The preparation at index h owns the release function at index h. */
  datatype Viewers = Viewers(factory: Sys, preps: seq<Prepared>)

  datatype Move = Pinning(action: Action) | Driving(h: nat, call: ViewerPreparation.Call)

  function Begun(generation: string): Viewers {
    Viewers(WindowPins.Start(generation), [])
  }

  /** A new release function goes to a new preparation. */
  function Grown(preps: seq<Prepared>, n: nat): seq<Prepared> {
    preps + seq(if n > |preps| then n - |preps| else 0, i => ViewerPreparation.Fresh)
  }

  ghost function StepViewers(v: Viewers, move: Move): Option<Viewers> {
    match move
    case Pinning(action) =>
      var t := Step(v.factory, action);
      if t.None? || (action.OnRelease? && action.release.Call?) then None
      else Some(Viewers(t.value, Grown(v.preps, |t.value.handles|)))
    case Driving(h, call) =>
      if h >= |v.preps| then None
      else
        var p := After(v.preps[h], call);
        if p.releases == v.preps[h].releases then Some(v.(preps := v.preps[h := p]))
        else
          var t := Step(v.factory, OnRelease(WindowPins.Call(h)));
          if t.None? then None else Some(Viewers(t.value, v.preps[h := p]))
  }

  ghost predicate IsRunOf(vs: seq<Viewers>, moves: seq<Move>, generation: string) {
    && |vs| == |moves| + 1 && vs[0] == Begun(generation)
    && forall i {:trigger moves[i]} :: 0 <= i < |moves| ==> StepViewers(vs[i], moves[i]) == Some(vs[i + 1])
  }

  // ----- the invariant -----

  /** A release function has been called exactly when its preparation is over. */
  ghost predicate Matched(handles: seq<Handle>, preps: seq<Prepared>) {
    && |preps| == |handles|
    && forall h :: 0 <= h < |preps| ==> Sound(preps[h]) && (handles[h].called <==> Over(preps[h]))
  }

  ghost predicate ViewersInv(v: Viewers) {
    Matched(v.factory.handles, v.preps) && Inv(v.factory)
  }

  lemma ClaimHandles(s: Sys, a: ClaimStep)
    requires StepClaim(s, a).Some?
    ensures var t := StepClaim(s, a).value;
            t.handles == s.handles || exists key :: t.handles == s.handles + [Handle(key, false)]
  {
    match a
    case CaptureWindow(c, owner, hookIndex) =>
      assert StepClaim(s, a).value.handles == s.handles
          || StepClaim(s, a).value.handles == s.handles + [Handle(Key(c.generation, c.win), false)];
    case ClaimRuns(current, replied) =>
      ClaimRunsIs(s, current, replied);
      assert StepClaim(s, a).value.handles == s.handles
          || StepClaim(s, a).value.handles == s.handles + [Handle(KeyOf(s.task.claim), false)];
    case _ =>
  }

  lemma PinningKeeps(v: Viewers, action: Action)
    requires ViewersInv(v) && StepViewers(v, Pinning(action)).Some?
    ensures var t := StepViewers(v, Pinning(action)).value; Matched(t.factory.handles, t.preps)
  {
    if action.OnClaim? {
      ClaimHandles(v.factory, action.claim);
    }
  }

  lemma DrivingKeeps(v: Viewers, h: nat, call: ViewerPreparation.Call)
    requires ViewersInv(v) && StepViewers(v, Driving(h, call)).Some?
    ensures var t := StepViewers(v, Driving(h, call)).value; Matched(t.factory.handles, t.preps)
  {
    CallKeepsSound(v.preps[h], call);
  }

  lemma StepKeepsViewers(v: Viewers, move: Move, t: Viewers)
    requires ViewersInv(v) && StepViewers(v, move) == Some(t)
    ensures ViewersInv(t)
  {
    match move
    case Pinning(action) =>
      PinningKeeps(v, action);
      StepKeepsInv(v.factory, action, t.factory);
    case Driving(h, call) =>
      DrivingKeeps(v, h, call);
      if After(v.preps[h], call).releases != v.preps[h].releases {
        StepKeepsInv(v.factory, OnRelease(WindowPins.Call(h)), t.factory);
      }
  }

  lemma BegunInv(generation: string)
    ensures ViewersInv(Begun(generation))
  {
  }

  lemma {:induction false} RunKeepsViewers(vs: seq<Viewers>, moves: seq<Move>, generation: string, i: nat)
    requires IsRunOf(vs, moves, generation) && i < |vs|
    ensures ViewersInv(vs[i])
  {
    if i == 0 {
      BegunInv(generation);
    } else {
      RunKeepsViewers(vs, moves, generation, i - 1);
      StepKeepsViewers(vs[i - 1], moves[i - 1], vs[i]);
    }
  }

  // ----- results -----

  lemma {:induction false} NoneUncalled(handles: seq<Handle>, key: Key)
    ensures Uncalled(handles, key) == 0 <==> forall h :: 0 <= h < |handles| && handles[h].key == key ==> handles[h].called
  {
    if handles != [] {
      NoneUncalled(handles[..|handles| - 1], key);
    }
  }

  ghost predicate AllOver(v: Viewers, key: Key) {
    forall h :: 0 <= h < |v.preps| && h < |v.factory.handles| && v.factory.handles[h].key == key ==> Over(v.preps[h])
  }

  /** A pin is unreferenced exactly when every preparation and viewer built on it is over. */
  lemma ReferencedWhileViewed(vs: seq<Viewers>, moves: seq<Move>, generation: string, i: nat, key: Key)
    requires IsRunOf(vs, moves, generation) && i < |vs|
    ensures key in vs[i].factory.pins ==> (vs[i].factory.pins[key].references == 0 <==> AllOver(vs[i], key))
    ensures key !in vs[i].factory.pins ==> AllOver(vs[i], key)
  {
    RunKeepsViewers(vs, moves, generation, i);
    NoneUncalled(vs[i].factory.handles, key);
    assert References(vs[i].factory.pins, vs[i].factory.handles);
  }

  /** Then the next cleanup that gets through to tmux forgets it, and no cleanup touches a pin still viewed. */
  lemma CleanupForgets(vs: seq<Viewers>, moves: seq<Move>, generation: string, i: nat, key: Key, delivered: bool, ok: bool)
    requires IsRunOf(vs, moves, generation) && i < |moves| && key in vs[i].factory.pins
    requires moves[i] == Pinning(OnRelease(CleanNext(key, delivered, ok)))
    ensures AllOver(vs[i], key) && ok ==> key !in vs[i + 1].factory.pins
    ensures !AllOver(vs[i], key) ==> vs[i + 1].factory.pins == vs[i].factory.pins && vs[i + 1].factory.world == vs[i].factory.world
  {
    ReferencedWhileViewed(vs, moves, generation, i, key);
    RunKeepsViewers(vs, moves, generation, i);
    assert Uncalled(vs[i].factory.handles, key) >= 0;
  }
}
