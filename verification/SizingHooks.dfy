/**
 Hosts whose own hooks size the window. A pin and its restore run in full on a window whose host re-sizes
 it after an option is set, after a resize, after both or after neither, and the outcome is given exactly:
 when the pin overrules the host, and when the restore takes away what the host set.
 */
module SizingHooks {
  import opened Options
  import opened TmuxCommand
  import opened TmuxFormat
  import opened TmuxWindow
  import opened WindowEffects

  /** The mode a host's hooks set after an option is set and after a resize, if they do. */
  datatype Sizing = Sizing(onSet: Option<string>, onResize: Option<string>)

  function ModeOn(h: Sizing, event: Event): Option<string> {
    if event == AfterSetOption then h.onSet else h.onResize
  }

  function SizeCommand(win: string, mode: string): seq<string> {
    ["set-option", "-w", "-t", win, "window-size", mode]
  }

  predicate Sizes(hook: Hook, mode: Option<string>, id: string) {
    mode.Some? && hook.text == Print(SizeCommand(id, mode.value))
  }

  predicate SizesOn(w: Window, key: HookKey, event: Event, mode: Option<string>) {
    key in w.hooks && key.event == event && Sizes(w.hooks[key], mode, w.id)
  }

  /** All hooks are the host's: some size the window as `h` says, the others leave it alone. */
  ghost predicate SizedBy(w: Window, h: Sizing) {
    && (forall key :: key in w.hooks ==>
          && w.hooks[key].actor == Host
          && (Sizes(w.hooks[key], ModeOn(h, key.event), w.id) || Harmless(w.hooks[key].text, w.id)))
    && (forall event :: ModeOn(h, event).Some? ==>
          exists key :: SizesOn(w, key, event, ModeOn(h, event)))
  }

  function Answered(w: Window, mode: Option<string>): Window {
    if mode.Some? then w.(size := Some(Setting(mode.value, Host))) else w
  }

  // ----- what such hooks do when they fire -----

  lemma ReadSizeCommand(win: string, mode: string)
    ensures ReadCommand(SizeCommand(win, mode)) == SetOption(win, "window-size", mode, false)
  {
    assert "-t"[1] != "-o"[1] && "-t"[1] != "-u"[1];
  }

  lemma SizeCommandRuns(v: Window, text: string, mode: string, argument: string)
    requires text == Print(SizeCommand(v.id, mode))
    ensures RunText(v, text, Host, argument, false).window == v.(size := Some(Setting(mode, Host)))
  {
    var words := SizeCommand(v.id, mode);
    PrintReadRoundTrip(words);
    ReadSizeCommand(v.id, mode);
    RunSingle(v, text, words, SetOption(v.id, "window-size", mode, false), Host, argument, false, 0);
  }

  /** Such a hook is not harmless. */
  lemma SizingIsNotHarmless(id: string, mode: string)
    ensures !Harmless(Print(SizeCommand(id, mode)), id)
  {
    var v := Window("", id, None, "", "", map[], "", "", "");
    SizeCommandRuns(v, Print(SizeCommand(id, mode)), mode, "");
    assert RunText(v, Print(SizeCommand(id, mode)), Host, "", false).window != v;
  }

  lemma HookAnswers(v: Window, hook: Hook, mode: Option<string>, argument: string)
    requires hook.actor == Host && (Sizes(hook, mode, v.id) || Harmless(hook.text, v.id))
    ensures RunText(v, hook.text, hook.actor, argument, false).window ==
            if Sizes(hook, mode, v.id) then Answered(v, mode) else v
  {
    if Sizes(hook, mode, v.id) {
      SizeCommandRuns(v, hook.text, mode.value, argument);
    }
  }

  lemma {:induction false} FireAllAnswers(v: Window, keys: set<HookKey>, mode: Option<string>, argument: string)
    requires forall key :: key in keys ==>
               && key in v.hooks && v.hooks[key].actor == Host
               && (Sizes(v.hooks[key], mode, v.id) || Harmless(v.hooks[key].text, v.id))
    ensures FireAll(v, keys, argument) ==
            if exists key :: key in keys && Sizes(v.hooks[key], mode, v.id) then Answered(v, mode) else v
    decreases |keys|
  {
    if keys != {} {
      var key :| key in keys && FireAll(v, keys, argument) ==
        FireAll(RunText(v, v.hooks[key].text, v.hooks[key].actor, argument, false).window, keys - {key}, argument);
      HookAnswers(v, v.hooks[key], mode, argument);
      FireAllAnswers(if Sizes(v.hooks[key], mode, v.id) then Answered(v, mode) else v, keys - {key}, mode, argument);
    }
  }

  /** The host answers an event with the size its hooks name, in whatever order they run. */
  lemma HostAnswers(w: Window, h: Sizing, event: Event, argument: string)
    requires SizedBy(w, h)
    ensures Fire(w, event, argument) == Answered(w, ModeOn(h, event))
  {
    FireAllAnswers(w, KeysOf(w, event), ModeOn(h, event), argument);
    if ModeOn(h, event).Some? {
      var key :| SizesOn(w, key, event, ModeOn(h, event));
      assert key in KeysOf(w, event) && Sizes(w.hooks[key], ModeOn(h, event), w.id);
    }
  }

  lemma SizedAlike(w: Window, v: Window, h: Sizing)
    requires SizedBy(w, h) && v.id == w.id && v.hooks == w.hooks
    ensures SizedBy(v, h)
  {
    forall event | ModeOn(h, event).Some? ensures exists key :: SizesOn(v, key, event, ModeOn(h, event)) {
      var key :| SizesOn(w, key, event, ModeOn(h, event));
      assert SizesOn(v, key, event, ModeOn(h, event));
    }
  }

  // ----- the pin -----

  function AfterClaim(w: Window, h: Sizing): Window {
    Answered(w.(size := Some(Setting("manual", Wrap))), h.onSet)
  }

  function AfterMark(w: Window, h: Sizing, owner: string): Window {
    Answered(w.(owner := owner), h.onSet)
  }

  function AfterResize(w: Window, h: Sizing, columns: string, rows: string): Window {
    Answered(w.(columns := columns, rows := rows, size := Some(Setting("manual", Wrap))), h.onResize)
  }

  lemma ClaimAnswered(w: Window, h: Sizing, n: nat)
    requires SizedBy(w, h) && w.size.None?
    ensures StepsTo(w, Claim(w.id), AfterClaim(w, h), Wrap, "", true, n) && SizedBy(AfterClaim(w, h), h)
  {
    var u := w.(size := Some(Setting("manual", Wrap)));
    ReadSetters(w.id, "", "", "", "");
    SizedAlike(w, u, h);
    HostAnswers(u, h, AfterSetOption, "window-size");
    SizedAlike(w, AfterClaim(w, h), h);
  }

  lemma MarkAnswered(w: Window, h: Sizing, owner: string, n: nat)
    requires SizedBy(w, h)
    ensures StepsTo(w, Mark(w.id, owner), AfterMark(w, h, owner), Wrap, "", true, n) && SizedBy(AfterMark(w, h, owner), h)
  {
    ReadSetters(w.id, owner, "", "", "");
    assert |OwnerOption| != |"window-size"|;
    SizedAlike(w, w.(owner := owner), h);
    HostAnswers(w.(owner := owner), h, AfterSetOption, OwnerOption);
    SizedAlike(w, AfterMark(w, h, owner), h);
  }

  lemma ResizeAnswered(w: Window, h: Sizing, columns: string, rows: string, n: nat)
    requires SizedBy(w, h)
    ensures StepsTo(w, Resizing(w.id, columns, rows), AfterResize(w, h, columns, rows), Wrap, "", true, n)
  {
    var u := w.(columns := columns, rows := rows, size := Some(Setting("manual", Wrap)));
    ReadSetters(w.id, "", columns, rows, "");
    SizedAlike(w, u, h);
    HostAnswers(u, h, AfterResizeWindow, "");
  }

  lemma ClaimsAnswered(w: Window, h: Sizing, owner: string, n: nat)
    requires SizedBy(w, h) && w.size.None?
    ensures var w1 := AfterClaim(w, h);
            Leads([w, w1, AfterMark(w1, h, owner)], [Claim(w.id), Mark(w.id, owner)], n) && SizedBy(AfterMark(w1, h, owner), h)
  {
    var w1 := AfterClaim(w, h);
    ClaimAnswered(w, h, n);
    MarkAnswered(w1, h, owner, n);
    TwoSteps(w, w1, AfterMark(w1, h, owner), Claim(w.id), Mark(w.id, owner), n);
  }

  /** The windows a pin passes through. */
  function AnsweredPin(w: Window, h: Sizing, owner: string, index: string, columns: string, rows: string): seq<Window> {
    var w1 := AfterClaim(w, h);
    var w2 := AfterMark(w1, h, owner);
    var w3 := AfterResize(w2, h, columns, rows);
    var w4 := Watched(w3, Keys(index)[0]);
    [w, w1, w2, w3, w4, Watched(w4, Keys(index)[1])]
  }

  lemma PinAnswered(w: Window, h: Sizing, owner: string, index: string, columns: string, rows: string, n: nat)
    requires SizedBy(w, h) && w.size.None?
    ensures Leads(AnsweredPin(w, h, owner, index, columns, rows), PinScript(w.id, owner, index, columns, rows), n)
  {
    var (k0, k1) := (Keys(index)[0], Keys(index)[1]);
    ClaimsAnswered(w, h, owner, n);
    var w2 := AfterMark(AfterClaim(w, h), h, owner);
    var w3 := AfterResize(w2, h, columns, rows);
    ResizeAnswered(w2, h, columns, rows, n);
    Watches(w3, k0, k1, n);
    AroundTheResize(w, AfterClaim(w, h), w2, w3, Watched(w3, k0), Watched(Watched(w3, k0), k1),
                    Claim(w.id), Mark(w.id, owner), Resizing(w.id, columns, rows), Watch(w.id, k0), Watch(w.id, k1), n);
  }

  /** The window after the pin: pinned, but sized by the host where its hooks answer the resize. */
  function Pinned(w: Window, h: Sizing, owner: string, index: string, columns: string, rows: string): Window {
    w.(columns := columns, rows := rows, owner := owner,
       size := Some(if h.onResize.Some? then Setting(h.onResize.value, Host) else Setting("manual", Wrap)),
       hooks := w.hooks[Keys(index)[0] := Hook(HookCommand(w.id, AfterSetOption), Wrap)]
                       [Keys(index)[1] := Hook(HookCommand(w.id, AfterResizeWindow), Wrap)])
  }

  lemma PinEnds(w: Window, h: Sizing, owner: string, index: string, columns: string, rows: string)
    ensures AnsweredPin(w, h, owner, index, columns, rows)[5] == Pinned(w, h, owner, index, columns, rows)
  {
  }

  lemma PinLeads(w: Window, h: Sizing, owner: string, index: string, columns: string, rows: string)
    requires SizedBy(w, h) && w.size.None?
    ensures LeadsTo(w, PinScript(w.id, owner, index, columns, rows), Pinned(w, h, owner, index, columns, rows))
  {
    PinAnswered(w, h, owner, index, columns, rows, |Script(PinScript(w.id, owner, index, columns, rows))|);
    PinEnds(w, h, owner, index, columns, rows);
  }

  lemma PinRuns(w: Window, h: Sizing, owner: string, index: string, columns: string, rows: string)
    requires SizedBy(w, h) && w.size.None?
    ensures RunText(w, Script(PinScript(w.id, owner, index, columns, rows)), Wrap, "", true) ==
            Result(Pinned(w, h, owner, index, columns, rows), Done, "")
  {
    PinLeads(w, h, owner, index, columns, rows);
    RunScript(w, PinScript(w.id, owner, index, columns, rows), Pinned(w, h, owner, index, columns, rows));
  }

  // ----- the restore -----

  function SizeGoes(w: Window, h: Sizing, owner: string): Window {
    if w.owner == owner && Mode(w) == "manual" then Answered(w.(size := None), h.onSet) else w
  }

  function MarkGoes(w: Window, h: Sizing): Window {
    Answered(w.(owner := ""), h.onSet)
  }

  lemma AnsweredUnset(w: Window, h: Sizing, option: string)
    requires SizedBy(w, h) && (option == "window-size" || option == OwnerOption)
    ensures RunText(w, Print(Unset(w.id, option)), Wrap, "", true) == Result(Answered(Unassign(w, option), h.onSet), Done, "")
  {
    RunUnset(w, option, Wrap, "", true);
    SizedAlike(w, Unassign(w, option), h);
    HostAnswers(Unassign(w, option), h, AfterSetOption, option);
  }

  lemma AnsweredGuarded(w: Window, h: Sizing, g: Guard, option: string, n: nat)
    requires SizedBy(w, h) && ReadableNames(g) && (option == "window-size" || option == OwnerOption)
    requires |Print(Unset(w.id, option))| < n && |Print(NoOp())| < n
    ensures StepsTo(w, Guarded(w.id, g, option),
                    if Holds(g, EnvOf(w, "")) then Answered(Unassign(w, option), h.onSet) else w, Wrap, "", true, n)
  {
    var (yes, no) := (Print(Unset(w.id, option)), Print(NoOp()));
    ReadIfShell(w.id, PrintGuard(g), yes, no);
    AnsweredUnset(w, h, option);
    RunNoOp(w, Wrap, "", true);
    ChoiceRuns(w, Guarded(w.id, g, option), g, yes, no, Answered(Unassign(w, option), h.onSet), n);
  }

  lemma SizeGoesRuns(w: Window, h: Sizing, owner: string, n: nat)
    requires SizedBy(w, h) && |Print(Unset(w.id, "window-size"))| < n && |Print(NoOp())| < n
    ensures StepsTo(w, Guarded(w.id, OwnedGuard(owner), "window-size"), SizeGoes(w, h, owner), Wrap, "", true, n)
  {
    OwnedHolds(w, owner);
    AnsweredGuarded(w, h, OwnedGuard(owner), "window-size", n);
  }

  lemma MarkGoesRuns(w: Window, h: Sizing, owner: string, n: nat)
    requires SizedBy(w, h) && w.owner == owner && |Print(Unset(w.id, OwnerOption))| < n && |Print(NoOp())| < n
    ensures StepsTo(w, Guarded(w.id, Is(OwnerOption, owner), OwnerOption), MarkGoes(w, h), Wrap, "", true, n)
  {
    OwnedHolds(w, owner);
    assert |OwnerOption| != |"window-size"|;
    AnsweredGuarded(w, h, Is(OwnerOption, owner), OwnerOption, n);
  }

  lemma SizeGoesAlike(w: Window, h: Sizing, owner: string)
    requires SizedBy(w, h)
    ensures var v := SizeGoes(w, h, owner); v.id == w.id && v.owner == w.owner && SizedBy(v, h)
  {
    SizedAlike(w, SizeGoes(w, h, owner), h);
  }

  lemma AnsweredDrops(w: Window, h: Sizing, owner: string, n: nat)
    requires SizedBy(w, h) && w.owner == owner
    requires |Print(Unset(w.id, "window-size"))| < n && |Print(Unset(w.id, OwnerOption))| < n && |Print(NoOp())| < n
    ensures Leads([w, SizeGoes(w, h, owner), MarkGoes(SizeGoes(w, h, owner), h)],
                  [Guarded(w.id, OwnedGuard(owner), "window-size"), Guarded(w.id, Is(OwnerOption, owner), OwnerOption)], n)
  {
    var v := SizeGoes(w, h, owner);
    SizeGoesRuns(w, h, owner, n);
    SizeGoesAlike(w, h, owner);
    MarkGoesRuns(v, h, owner, n);
    TwoSteps(w, v, MarkGoes(v, h),
             Guarded(w.id, OwnedGuard(owner), "window-size"), Guarded(w.id, Is(OwnerOption, owner), OwnerOption), n);
  }

  /** The window after the restore: no mark, and the size the host's hooks had the last word on. */
  function Restored(w: Window, h: Sizing): Window {
    w.(owner := "",
       size := if h.onSet.Some? then Some(Setting(h.onSet.value, Host)) else if Mode(w) == "manual" then None else w.size)
  }

  function Unhooked(w: Window, index: string): Window {
    Unwatched(Unwatched(w, Keys(index)[0]), Keys(index)[1])
  }

  /** The windows a restore passes through. */
  function AnsweredRestore(w: Window, h: Sizing, owner: string, index: string): seq<Window> {
    var v := Unhooked(w, index);
    [w, Unwatched(w, Keys(index)[0]), v, SizeGoes(v, h, owner), MarkGoes(SizeGoes(v, h, owner), h)]
  }

  lemma RestoreEnds(w: Window, h: Sizing, owner: string, index: string)
    requires w.owner == owner
    ensures AnsweredRestore(w, h, owner, index)[4] == Restored(Unhooked(w, index), h)
  {
  }

  lemma RestoreAnswered(w: Window, h: Sizing, owner: string, index: string, n: nat)
    requires SizedBy(Unhooked(w, index), h) && w.owner == owner && Short(RestoreScript(w.id, owner, index), n)
    ensures Leads(AnsweredRestore(w, h, owner, index), RestoreScript(w.id, owner, index), n)
  {
    var (k0, k1, v) := (Keys(index)[0], Keys(index)[1], Unhooked(w, index));
    RestoreIsShort(w.id, owner, index, n);
    Unwatches(w, k0, k1, n);
    AnsweredDrops(v, h, owner, n);
    TwoAndTwo(w, Unwatched(w, k0), v, SizeGoes(v, h, owner), MarkGoes(SizeGoes(v, h, owner), h),
              Unwatch(w.id, k0), Unwatch(w.id, k1),
              Guarded(w.id, OwnedGuard(owner), "window-size"), Guarded(w.id, Is(OwnerOption, owner), OwnerOption), n);
  }

  lemma RestoreLeads(w: Window, h: Sizing, owner: string, index: string)
    requires SizedBy(Unhooked(w, index), h) && w.owner == owner
    ensures LeadsTo(w, RestoreScript(w.id, owner, index), Restored(Unhooked(w, index), h))
  {
    var cmds := RestoreScript(w.id, owner, index);
    ScriptIsShort(cmds);
    RestoreAnswered(w, h, owner, index, |Script(cmds)|);
    RestoreEnds(w, h, owner, index);
    assert Leads(AnsweredRestore(w, h, owner, index), cmds, |Script(cmds)|);
  }

  lemma RestoreRuns(w: Window, h: Sizing, owner: string, index: string)
    requires SizedBy(Unhooked(w, index), h) && w.owner == owner
    ensures RunText(w, Script(RestoreScript(w.id, owner, index)), Wrap, "", true) ==
            Result(Restored(Unhooked(w, index), h), Done, "")
  {
    RestoreLeads(w, h, owner, index);
    RunScript(w, RestoreScript(w.id, owner, index), Restored(Unhooked(w, index), h));
  }

  lemma PutAndTake<K, V>(m: map<K, V>, a: K, x: V, b: K, y: V)
    requires a !in m && b !in m
    ensures m[a := x][b := y] - {a} - {b} == m
  {
  }

  lemma WatchAndUnwatch(w: Window, h: Sizing, owner: string, index: string, columns: string, rows: string)
    requires Keys(index)[0] !in w.hooks && Keys(index)[1] !in w.hooks
    ensures var v := Pinned(w, h, owner, index, columns, rows);
            Unhooked(v, index) == v.(hooks := w.hooks)
  {
    PutAndTake(w.hooks, Keys(index)[0], Hook(HookCommand(w.id, AfterSetOption), Wrap),
               Keys(index)[1], Hook(HookCommand(w.id, AfterResizeWindow), Wrap));
  }

  // ----- exactly when the host is overruled, and when it is undone -----

  /** The window after the whole printed pin. */
  ghost function AfterPin(w: Window, owner: string, index: string, columns: string, rows: string): Window {
    RunText(w, Script(PinScript(w.id, owner, index, columns, rows)), Wrap, "", true).window
  }

  /** The window after the whole printed pin and then the whole printed restore. */
  ghost function AfterBoth(w: Window, owner: string, index: string, columns: string, rows: string): Window {
    RunText(AfterPin(w, owner, index, columns, rows), Script(RestoreScript(w.id, owner, index)), Wrap, "", true).window
  }

  /**
   A pin leaves its own size exactly when no hook of the host's answers a resize; where one does, the host's
   size stands and the pin still succeeds. The restore then leaves the host with a size unless nothing
   answers the unsetting and what stood was Wrap's, or "manual": Wrap takes the host's "manual" for its own.
   */
  lemma HostHooksDecide(w: Window, h: Sizing, owner: string, index: string, columns: string, rows: string)
    requires SizedBy(w, h) && w.size.None? && Keys(index)[0] !in w.hooks && Keys(index)[1] !in w.hooks
    ensures var p := AfterPin(w, owner, index, columns, rows);
            && RunText(w, Script(PinScript(w.id, owner, index, columns, rows)), Wrap, "", true) == Result(p, Done, "")
            && p.owner == owner
            && p.size == Some(if h.onResize.Some? then Setting(h.onResize.value, Host) else Setting("manual", Wrap))
    ensures var (p, r) := (AfterPin(w, owner, index, columns, rows), AfterBoth(w, owner, index, columns, rows));
            && RunText(p, Script(RestoreScript(w.id, owner, index)), Wrap, "", true) == Result(r, Done, "")
            && r == w.(columns := columns, rows := rows, owner := "", size := r.size)
            && r.size == if h.onSet.Some? then Some(Setting(h.onSet.value, Host))
                         else if h.onResize.Some? && h.onResize.value != "manual" then Some(Setting(h.onResize.value, Host))
                         else None
  {
    var p := Pinned(w, h, owner, index, columns, rows);
    PinRuns(w, h, owner, index, columns, rows);
    WatchAndUnwatch(w, h, owner, index, columns, rows);
    SizedAlike(w, p.(hooks := w.hooks), h);
    RestoreRuns(p, h, owner, index);
  }

  /** What the host's hooks set during the pin stands after it, and what stands of the host's then stands after the restore. */
  predicate HostKept(h: Sizing, p: Window, r: Window) {
    (h.onSet.Some? || h.onResize.Some? ==> ByHost(p)) && (ByHost(p) ==> ByHost(r))
  }

  /**
   The host keeps what its hooks set exactly when a hook that answers the setting of options comes with one
   that answers resizes, and one that answers resizes with "manual" comes with one that answers the unsetting.
   */
  lemma HostKeptExactly(w: Window, h: Sizing, owner: string, index: string, columns: string, rows: string)
    requires SizedBy(w, h) && w.size.None? && Keys(index)[0] !in w.hooks && Keys(index)[1] !in w.hooks
    ensures HostKept(h, AfterPin(w, owner, index, columns, rows), AfterBoth(w, owner, index, columns, rows)) <==>
            (h.onSet.Some? ==> h.onResize.Some?) && (h.onResize == Some("manual") ==> h.onSet.Some?)
  {
    HostHooksDecide(w, h, owner, index, columns, rows);
  }
}
