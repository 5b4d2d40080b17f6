/**
 What pinning, restoring and the host's own sizing do to one window, and what each keeps. A window's
 size records who set it, so that "the host's value survives" can be said even when the host sets
 the same value Wrap did.
 */
module WindowEffects {
  import opened Options
  import opened Decimals
  import opened TmuxWindow
  import opened TmuxPinArgs

  // ----- the host -----

  datatype HostSizing = SetSize(mode: string) | UnsetSize | ResizeTo(columns: string, rows: string)

  function HostCommand(win: string, h: HostSizing): Command {
    match h
    case SetSize(mode) => SetOption(win, "window-size", mode, false)
    case UnsetSize => UnsetOption(win, "window-size")
    case ResizeTo(columns, rows) => Resize(win, columns, rows)
  }

  function HostEffect(w: Window, h: HostSizing): Window {
    match h
    case SetSize(mode) =>
      w.(size := Some(Setting(mode, Host)), owner := if Armed(w, AfterSetOption) then "" else w.owner)
    case UnsetSize => w.(size := None, owner := if Armed(w, AfterSetOption) then "" else w.owner)
    case ResizeTo(columns, rows) =>
      w.(columns := columns, rows := rows, size := Some(Setting("manual", Host)),
         owner := if Armed(w, AfterResizeWindow) then "" else w.owner)
  }

  /** The host's commands fire Wrap's printed hooks, which is all that stands between them and the mark. */
  lemma HostCommandRuns(w: Window, h: HostSizing)
    requires TameHooks(w)
    ensures RunCommand(w, HostCommand(w.id, h), Host, "", true, 0) == Result(HostEffect(w, h), Done, "")
  {
    match h
    case SetSize(mode) => FireTame(w.(size := Some(Setting(mode, Host))), AfterSetOption, "window-size");
    case UnsetSize => FireTame(w.(size := None), AfterSetOption, "window-size");
    case ResizeTo(columns, rows) =>
      FireTame(w.(columns := columns, rows := rows, size := Some(Setting("manual", Host))), AfterResizeWindow, "");
  }

  // ----- a claim as a whole -----

  datatype Reply = Rejected | Conflict | Accepted

  function PinReply(w: Window, c: Capture): Reply {
    if !Matches(w, c) then Rejected else if c.inherited && w.size.Some? then Conflict else Accepted
  }

  function PinWindow(w: Window, c: Capture, owner: string, hookIndex: nat): Window {
    if PinReply(w, c).Accepted? && c.inherited then PinEffect(w, owner, Decimal(hookIndex), w.columns, w.rows) else w
  }

  /** Running the printed vector is PinWindow, and its outcome tells the three replies apart. */
  lemma PinIsPrinted(w: Window, c: Capture, owner: string, hookIndex: nat)
    requires TameHooks(w) && PinVector(c, owner, hookIndex).Some?
    ensures var r := RunArgs(w, PinVector(c, owner, hookIndex).value, Wrap);
            && r.window == PinWindow(w, c, owner, hookIndex)
            && (PinReply(w, c).Conflict? <==> r.status != Done)
            && (PinReply(w, c).Rejected? <==> r.output == PinMismatch)
            && (PinReply(w, c).Accepted? <==> r.status == Done && r.output == "")
  {
    PinVectorRuns(w, c, owner, hookIndex);
  }

  // ----- states of a window -----

  predicate ByHost(w: Window) {
    w.size.Some? && w.size.value.actor == Host
  }

  predicate ByWrap(w: Window) {
    w.size.Some? && w.size.value.actor == Wrap
  }

  /** The hooks Wrap set. */
  function WrapKeys(hooks: map<HookKey, Hook>): set<HookKey> {
    set key | key in hooks && hooks[key].actor == Wrap
  }

  /** The two hooks of one claim. */
  function Pair(hookIndex: nat): set<HookKey> {
    {Keys(Decimal(hookIndex))[0], Keys(Decimal(hookIndex))[1]}
  }

  /** No trace of Wrap: the size is inherited or the host's, there is no mark and none of Wrap's hooks. */
  predicate Clean(w: Window) {
    WrapKeys(w.hooks) == {} && w.owner == "" && !ByWrap(w)
  }

  predicate Watching(w: Window, hookIndex: nat) {
    Pair(hookIndex) <= WrapKeys(w.hooks)
  }

  /** Pinned by one claim alone: its hooks and no others of Wrap's, and its mark stands exactly while the size is Wrap's. */
  predicate Held(w: Window, owner: string, hookIndex: nat) {
    && WrapKeys(w.hooks) == Pair(hookIndex)
    && (ByWrap(w) <==> w.owner == owner) && (w.owner == owner || w.owner == "")
    && (ByWrap(w) ==> w.size.value.mode == "manual")
  }

  /** Whoever else pinned this window, a mark is watched by its owner's hooks and stands only on a manual size Wrap set. */
  predicate Marked(w: Window, issued: map<string, nat>) {
    w.owner != "" ==>
      w.owner in issued && w.size == Some(Setting("manual", Wrap)) && Watching(w, issued[w.owner])
  }

  predicate Injective(issued: map<string, nat>) {
    forall o, p :: o in issued && p in issued && issued[o] == issued[p] ==> o == p
  }

  lemma PairsAreApart(m: nat, n: nat)
    ensures m != n ==> Pair(m) !! Pair(n)
  {
    if Decimal(m) == Decimal(n) {
      DecimalInjective(m, n);
    }
  }

  lemma WatchingIsArmed(w: Window, hookIndex: nat)
    requires Watching(w, hookIndex)
    ensures Armed(w, AfterSetOption) && Armed(w, AfterResizeWindow)
  {
    var keys := Keys(Decimal(hookIndex));
    assert keys[0] in Pair(hookIndex) && keys[1] in Pair(hookIndex);
    assert keys[0] in WrapKeys(w.hooks) && keys[1] in WrapKeys(w.hooks);
  }

  lemma CleanIsUnarmed(w: Window, event: Event)
    ensures Armed(w, event) ==> !Clean(w)
  {
    if Armed(w, event) {
      var key :| key in w.hooks && key.event == event && w.hooks[key].actor == Wrap;
      assert key in WrapKeys(w.hooks);
    }
  }

  // ----- what each operation keeps -----

  lemma HostKeeps(w: Window, h: HostSizing, owner: string, hookIndex: nat, issued: map<string, nat>)
    requires owner != ""
    ensures Clean(w) ==> Clean(HostEffect(w, h))
    ensures Held(w, owner, hookIndex) ==> Held(HostEffect(w, h), owner, hookIndex)
    ensures Marked(w, issued) ==> Marked(HostEffect(w, h), issued)
  {
    if Held(w, owner, hookIndex) {
      WatchingIsArmed(w, hookIndex);
    }
    if Marked(w, issued) && w.owner != "" {
      WatchingIsArmed(w, issued[w.owner]);
    }
  }

  lemma TwoMore(hooks: map<HookKey, Hook>, k0: HookKey, t0: string, k1: HookKey, t1: string)
    ensures WrapKeys(hooks[k0 := Hook(t0, Wrap)][k1 := Hook(t1, Wrap)]) == WrapKeys(hooks) + {k0, k1}
  {
  }

  lemma TwoFewer(hooks: map<HookKey, Hook>, k0: HookKey, k1: HookKey)
    ensures WrapKeys(hooks - {k0} - {k1}) == WrapKeys(hooks) - {k0, k1}
  {
  }

  lemma HooksStay(hooks: map<HookKey, Hook>, p: (HookKey, Hook) -> bool, k0: HookKey, h0: Hook, k1: HookKey, h1: Hook)
    requires (forall key :: key in hooks ==> p(key, hooks[key])) && p(k0, h0) && p(k1, h1)
    ensures var more := hooks[k0 := h0][k1 := h1]; forall key :: key in more ==> p(key, more[key])
  {
  }

  lemma OwnIsTame(id: string, event: Event)
    ensures TameHook(Hook(HookCommand(id, event), Wrap), event, id)
  {
  }

  lemma ArmedIsTame(w: Window, v: Window, k0: HookKey, k1: HookKey, h0: Hook, h1: Hook)
    requires TameHooks(w) && v.id == w.id && v.hooks == w.hooks[k0 := h0][k1 := h1]
    requires TameHook(h0, k0.event, w.id) && TameHook(h1, k1.event, w.id)
    ensures TameHooks(v)
  {
    HooksStay(w.hooks, (key: HookKey, hook: Hook) => TameHook(hook, key.event, w.id), k0, h0, k1, h1);
  }

  lemma FewerIsTame(w: Window, v: Window)
    requires TameHooks(w) && v.id == w.id && v.hooks.Keys <= w.hooks.Keys
    requires forall key :: key in v.hooks ==> key in w.hooks && v.hooks[key] == w.hooks[key]
    ensures TameHooks(v)
  {
  }

  /** Neither a claim nor a restore brings in a hook that is neither Wrap's own nor harmless. */
  lemma TameHooksKept(w: Window, owner: string, hookIndex: nat, c: Capture)
    requires TameHooks(w)
    ensures TameHooks(PinWindow(w, c, owner, hookIndex)) && TameHooks(RestoreEffect(w, owner, Decimal(hookIndex)))
  {
    FewerIsTame(w, RestoreEffect(w, owner, Decimal(hookIndex)));
    if PinReply(w, c).Accepted? && c.inherited {
      var (k0, k1) := (Keys(Decimal(hookIndex))[0], Keys(Decimal(hookIndex))[1]);
      OwnIsTame(w.id, AfterSetOption);
      OwnIsTame(w.id, AfterResizeWindow);
      ArmedIsTame(w, PinWindow(w, c, owner, hookIndex), k0, k1,
                  Hook(HookCommand(w.id, AfterSetOption), Wrap), Hook(HookCommand(w.id, AfterResizeWindow), Wrap));
    }
  }

  lemma PinEffectShape(w: Window, owner: string, hookIndex: nat)
    ensures var v := PinEffect(w, owner, Decimal(hookIndex), w.columns, w.rows);
            && WrapKeys(v.hooks) == WrapKeys(w.hooks) + Pair(hookIndex) && v.size == Some(Setting("manual", Wrap))
            && v.owner == (if Armed(w, AfterResizeWindow) then "" else owner)
            && v == w.(size := v.size, owner := v.owner, hooks := v.hooks)
            && v.hooks - Pair(hookIndex) == w.hooks - Pair(hookIndex)
  {
    var (k0, k1) := (Keys(Decimal(hookIndex))[0], Keys(Decimal(hookIndex))[1]);
    TwoMore(w.hooks, k0, HookCommand(w.id, AfterSetOption), k1, HookCommand(w.id, AfterResizeWindow));
    SetAndDrop(w.hooks, k0, Hook(HookCommand(w.id, AfterSetOption), Wrap), k1, Hook(HookCommand(w.id, AfterResizeWindow), Wrap));
  }

  lemma SetAndDrop<K, V>(m: map<K, V>, a: K, x: V, b: K, y: V)
    ensures m[a := x][b := y] - {a, b} == m - {a, b}
    ensures m - {a} - {b} == m - {a, b}
  {
  }

  /** A claim on an untouched window holds it; on any window it keeps the mark honest. */
  lemma EffectKeeps(w: Window, v: Window, owner: string, hookIndex: nat, issued: map<string, nat>)
    requires owner in issued && issued[owner] == hookIndex && owner != ""
    requires WrapKeys(v.hooks) == WrapKeys(w.hooks) + Pair(hookIndex)
    requires v.size == Some(Setting("manual", Wrap)) && v.owner == if Armed(w, AfterResizeWindow) then "" else owner
    ensures Marked(v, issued) && !ByHost(v)
    ensures Clean(w) ==> Held(v, owner, hookIndex)
  {
    CleanIsUnarmed(w, AfterResizeWindow);
  }

  lemma PinKeeps(w: Window, c: Capture, owner: string, hookIndex: nat, issued: map<string, nat>)
    requires c.inherited ==> owner in issued && issued[owner] == hookIndex && owner != ""
    ensures var v := PinWindow(w, c, owner, hookIndex);
            if PinReply(w, c).Accepted? && c.inherited then
              && Marked(v, issued) && !ByHost(v) && w.size.None? && (Clean(w) ==> Held(v, owner, hookIndex))
              && WrapKeys(v.hooks) == WrapKeys(w.hooks) + Pair(hookIndex)
              && v.hooks - Pair(hookIndex) == w.hooks - Pair(hookIndex)
            else v == w
  {
    if PinReply(w, c).Accepted? && c.inherited {
      PinEffectShape(w, owner, hookIndex);
      EffectKeeps(w, PinWindow(w, c, owner, hookIndex), owner, hookIndex, issued);
    }
  }

  lemma RestoreShape(w: Window, owner: string, hookIndex: nat)
    ensures var v := RestoreEffect(w, owner, Decimal(hookIndex));
            WrapKeys(v.hooks) == WrapKeys(w.hooks) - Pair(hookIndex) && v.hooks == w.hooks - Pair(hookIndex)
  {
    var (k0, k1) := (Keys(Decimal(hookIndex))[0], Keys(Decimal(hookIndex))[1]);
    TwoFewer(w.hooks, k0, k1);
    SetAndDrop(w.hooks, k0, Hook("", Wrap), k1, Hook("", Wrap));
  }

  lemma RestoreUndoesClaim(w: Window, owner: string, hookIndex: nat)
    requires owner != "" && (Clean(w) || Held(w, owner, hookIndex))
    ensures Clean(RestoreEffect(w, owner, Decimal(hookIndex)))
  {
    RestoreShape(w, owner, hookIndex);
  }

  lemma RestoreKeepsMark(w: Window, owner: string, hookIndex: nat, issued: map<string, nat>)
    requires owner in issued && issued[owner] == hookIndex && Injective(issued) && Marked(w, issued)
    ensures Marked(RestoreEffect(w, owner, Decimal(hookIndex)), issued)
  {
    RestoreShape(w, owner, hookIndex);
    if w.owner != owner && w.owner != "" {
      PairsAreApart(hookIndex, issued[w.owner]);
    }
  }

  /** A restore by an owner the window does not bear takes nothing from the host. */
  lemma RestoreSparesHost(w: Window, owner: string, hookIndex: nat, issued: map<string, nat>)
    requires owner != "" && Marked(w, issued) && !ByWrap(w)
    ensures RestoreEffect(w, owner, Decimal(hookIndex)).size == w.size
  {
  }

  /**
   Restoring undoes a claim exactly when no resize hook of Wrap's was armed before it: a hook left behind
   by a claim that was never undone erases the new mark, and then the size stays. On a clean window the
   claim and its restore together change nothing at all, if its hook indices were free.
   */
  lemma ClaimThenRestore(w: Window, owner: string, hookIndex: nat)
    requires w.size.None? && owner != ""
    ensures var v := RestoreEffect(PinEffect(w, owner, Decimal(hookIndex), w.columns, w.rows), owner, Decimal(hookIndex));
            && (v.size.None? <==> !Armed(w, AfterResizeWindow))
            && (Clean(w) && Pair(hookIndex) !! w.hooks.Keys ==> v == w)
  {
    PinEffectShape(w, owner, hookIndex);
    var u := PinEffect(w, owner, Decimal(hookIndex), w.columns, w.rows);
    RestoreShape(u, owner, hookIndex);
    RestoreAfter(w, u, owner, hookIndex);
  }

  lemma RestoreAfter(w: Window, u: Window, owner: string, hookIndex: nat)
    requires w.size.None? && owner != "" && u == w.(size := u.size, owner := u.owner, hooks := u.hooks)
    requires u.hooks - Pair(hookIndex) == w.hooks - Pair(hookIndex)
    requires u.size == Some(Setting("manual", Wrap)) && u.owner == if Armed(w, AfterResizeWindow) then "" else owner
    requires RestoreEffect(u, owner, Decimal(hookIndex)).hooks == u.hooks - Pair(hookIndex)
    ensures var v := RestoreEffect(u, owner, Decimal(hookIndex));
            && (v.size.None? <==> !Armed(w, AfterResizeWindow))
            && (Clean(w) && Pair(hookIndex) !! w.hooks.Keys ==> v == w)
  {
    CleanIsUnarmed(w, AfterResizeWindow);
    if Pair(hookIndex) !! w.hooks.Keys {
      assert w.hooks - Pair(hookIndex) == w.hooks;
    }
  }
}
