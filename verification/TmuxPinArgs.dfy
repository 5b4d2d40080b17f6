/**
 The argument vectors that pin a window's size and restore it (PinWindowSizeIfGenerationArgs and
 RestoreWindowSizeIfGenerationArgs in internal/tmux/tmux.go), built by the source's loops, and what
 tmux does with them: `PinVectorRuns` and `RestoreVectorRuns`.
 */
module TmuxPinArgs {
  import opened Options
  import opened Decimals
  import opened TmuxCommand
  import opened TmuxFormat
  import opened TmuxWindow

  // ----- what callers may pass -----

  predicate IsWindowID(target: string) {
    |target| >= 2 && target[0] == '@' && forall i :: 1 <= i < |target| ==> IsDigit(target[i])
  }

  predicate IsGeneration(generation: string) {
    |generation| == 32 && forall i :: 0 <= i < |generation| ==> IsDigit(generation[i]) || 'a' <= generation[i] <= 'f'
  }

  predicate IsMode(mode: string) {
    mode == "largest" || mode == "smallest" || mode == "manual" || mode == "latest"
  }

  predicate IsStatus(status: string) {
    status == "on" || status == "off"
    || (status != "" && (forall i :: 0 <= i < |status| ==> IsDigit(status[i])) && Value(status) <= 5)
  }

  /** Only a claim on an inherited size carries an owner and hooks. */
  predicate IsOwnership(inherited: bool, owner: string, hookIndex: nat) {
    if inherited then IsGeneration(owner) && hookIndex != 0 else owner == "" && hookIndex == 0
  }

  // ----- the vectors -----

  /** What was read from tmux before the claim; `inherited` when the size came from outside the window. */
  datatype Capture = Capture(
    session: string, generation: string, win: string, columns: nat, rows: nat, mode: string, inherited: bool, status: string)

  predicate Pinnable(c: Capture, owner: string, hookIndex: nat) {
    && IsSessionID(c.session) && IsWindowID(c.win) && IsGeneration(c.generation) && c.columns != 0 && c.rows != 0
    && IsMode(c.mode) && IsStatus(c.status) && IsOwnership(c.inherited, owner, hookIndex)
  }

  predicate Restorable(generation: string, win: string, mode: string, inherited: bool, owner: string, hookIndex: nat) {
    IsWindowID(win) && IsMode(mode) && IsOwnership(inherited, owner, hookIndex) && IsGeneration(generation)
  }

  function Conditions(c: Capture): (r: seq<Guard>)
    ensures |r| == 6
  {
    [Is(GenerationOption, c.generation), Is("window_id", c.win), Is("window_width", Decimal(c.columns)),
     Is("window_height", Decimal(c.rows)), Is("window-size", c.mode), Is("status", c.status)]
  }

  function PinCommands(c: Capture, owner: string, hookIndex: nat): seq<seq<string>> {
    if c.inherited then PinScript(c.win, owner, Decimal(hookIndex), Decimal(c.columns), Decimal(c.rows)) else [NoOp()]
  }

  function RestoreCommands(win: string, mode: string, inherited: bool, owner: string, hookIndex: nat): seq<seq<string>> {
    if inherited then RestoreScript(win, owner, Decimal(hookIndex))
    else [["set-option", "-w", "-t", win, "window-size", mode]]
  }

  function PinVector(c: Capture, owner: string, hookIndex: nat): Option<seq<string>> {
    if !Pinnable(c, owner, hookIndex) then None
    else Some(["if-shell", "-F", "-t", c.session, PrintGuard(Conjunction(Conditions(c))),
               Script(PinCommands(c, owner, hookIndex)), Print(["display-message", "-p", PinMismatch])])
  }

  function RestoreVector(generation: string, win: string, mode: string, inherited: bool, owner: string, hookIndex: nat)
    : Option<seq<string>>
  {
    if !Restorable(generation, win, mode, inherited, owner, hookIndex) then None
    else Some(["if-shell", "-F", PrintGuard(Is(GenerationOption, generation)),
               Script(RestoreCommands(win, mode, inherited, owner, hookIndex)),
               Print(["display-message", "-p", GenerationMismatch])])
  }

  /** Sizes are not zero, mode and status are known, identities have their first letters and lengths, and ownership fits. */
  predicate Tolerable(c: Capture, owner: string, hookIndex: nat) {
    && c.columns > 0 && c.rows > 0 && |c.generation| == 32
    && c.win != "" && c.win[0] == '@' && c.session != "" && c.session[0] == '$'
    && c.mode in ["largest", "smallest", "manual", "latest"] && c.status != ""
    && (if c.inherited then |owner| == 32 && hookIndex > 0 else owner == "" && hookIndex == 0)
  }

  lemma PinnableIsTolerable(c: Capture, owner: string, hookIndex: nat)
    requires Pinnable(c, owner, hookIndex)
    ensures Tolerable(c, owner, hookIndex)
  {
  }

  /** What a pin is never built for: an empty size, an unknown mode or status, a malformed identity, or ownership that does not fit. */
  lemma PinRefuses(c: Capture, owner: string, hookIndex: nat)
    ensures var vector := PinVector(c, owner, hookIndex);
            vector.Some? ==> Tolerable(c, owner, hookIndex) && |vector.value| == 7
  {
    if Pinnable(c, owner, hookIndex) {
      PinnableIsTolerable(c, owner, hookIndex);
    }
  }

  lemma NumberedIsID(n: nat)
    ensures IsSessionID("$" + Decimal(n)) && IsWindowID("@" + Decimal(n))
  {
    assert forall i :: 0 <= i < |Decimal(n)| ==> IsDigit(Decimal(n)[i]);
  }

  predicate Mentions(mode: string, status: string) {
    mode in ["largest", "smallest", "manual", "latest"] && status in ["on", "off"]
  }

  lemma MentionedIsValid(mode: string, status: string)
    ensures Mentions(mode, status) ==> IsMode(mode) && IsStatus(status)
  {
  }

  /** Well-formed captures are pinned, with or without a claim on the size. */
  lemma PinAccepts(n: nat, m: nat, columns: nat, rows: nat, hookIndex: nat, generation: string, owner: string, mode: string, status: string)
    requires columns > 0 && rows > 0 && hookIndex > 0 && IsGeneration(generation) && IsGeneration(owner) && Mentions(mode, status)
    ensures var c := Capture("$" + Decimal(n), generation, "@" + Decimal(m), columns, rows, mode, true, status);
            Pinnable(c, owner, hookIndex) && Pinnable(c.(inherited := false), "", 0)
  {
    NumberedIsID(n);
    NumberedIsID(m);
    MentionedIsValid(mode, status);
  }

  lemma RestoreRefuses(generation: string, win: string, mode: string, inherited: bool, owner: string, hookIndex: nat)
    ensures |generation| != 32 || win == "" || win[0] != '@' || mode !in ["largest", "smallest", "manual", "latest"] ==>
              RestoreVector(generation, win, mode, inherited, owner, hookIndex).None?
    ensures inherited && (|owner| != 32 || hookIndex == 0) ==>
              RestoreVector(generation, win, mode, inherited, owner, hookIndex).None?
    ensures !inherited && (owner != "" || hookIndex != 0) ==>
              RestoreVector(generation, win, mode, inherited, owner, hookIndex).None?
  {
  }

  // ----- building them -----

  lemma PlainValues(generation: string, win: string, n: nat)
    ensures IsGeneration(generation) ==> EscapeFormatLiteral(generation) == generation
    ensures IsWindowID(win) ==> EscapeFormatLiteral(win) == win
    ensures EscapeFormatLiteral(Decimal(n)) == Decimal(n)
  {
    if IsGeneration(generation) { EscapeLeavesPlain(generation); }
    if IsWindowID(win) { EscapeLeavesPlain(win); }
    EscapeLeavesPlain(Decimal(n));
  }

  /** The printed conditions; only the mode and the status pass through the escape. */
  method PinConditions(c: Capture) returns (conditions: seq<string>)
    requires IsGeneration(c.generation) && IsWindowID(c.win)
    ensures |conditions| == 6 && forall i :: 0 <= i < 6 ==> conditions[i] == PrintGuard(Conditions(c)[i])
  {
    PlainValues(c.generation, c.win, c.columns);
    PlainValues(c.generation, c.win, c.rows);
    conditions := ["#{==:#{" + GenerationOption + "}," + c.generation + "}",
                   "#{==:#{" + "window_id" + "}," + c.win + "}",
                   "#{==:#{" + "window_width" + "}," + Decimal(c.columns) + "}",
                   "#{==:#{" + "window_height" + "}," + Decimal(c.rows) + "}",
                   "#{==:#{" + "window-size" + "}," + EscapeFormatLiteral(c.mode) + "}",
                   "#{==:#{" + "status" + "}," + EscapeFormatLiteral(c.status) + "}"];
  }

  method WindowPinHookNames(hookIndex: nat) returns (names: seq<string>)
    ensures |names| == 2 && forall i :: 0 <= i < 2 ==> names[i] == HookName(Keys(Decimal(hookIndex))[i])
  {
    var suffix := "[" + Decimal(hookIndex) + "]";
    names := ["after-set-option" + suffix, "after-resize-window" + suffix];
  }

  lemma HasPrefix(key: HookKey)
    ensures (|HookName(key)| >= 17 && HookName(key)[..17] == "after-set-option[") <==> key.event == AfterSetOption
  {
    var name := HookName(key);
    assert name[..|HookPrefix(key.event)|] == HookPrefix(key.event);
    assert HookPrefix(AfterSetOption)[6] != HookPrefix(AfterResizeWindow)[6];
    if key.event == AfterResizeWindow && |name| >= 17 {
      assert name[..17][6] == HookPrefix(AfterResizeWindow)[6];
    }
  }

  method WatchCommand(win: string, name: string, ghost key: HookKey) returns (words: seq<string>)
    requires name == HookName(key)
    ensures words == Watch(win, key)
  {
    HasPrefix(key);
    var command := Print(Unset(win, OwnerOption));
    if |name| >= 17 && name[..17] == "after-set-option[" {
      command := Print(Filter(win));
    }
    return ["set-hook", "-w", "-t", win, name, command];
  }

  /** The watching commands, one per hook name. */
  method WatchCommands(win: string, hookIndex: nat) returns (watch: seq<seq<string>>)
    ensures |watch| == 2 && forall i :: 0 <= i < 2 ==> watch[i] == Watch(win, Keys(Decimal(hookIndex))[i])
  {
    ghost var keys := Keys(Decimal(hookIndex));
    var names := WindowPinHookNames(hookIndex);
    watch := [];
    for i := 0 to |names|
      invariant |watch| == i && forall j :: 0 <= j < i ==> watch[j] == Watch(win, keys[j])
    {
      var words := WatchCommand(win, names[i], keys[i]);
      watch := watch + [words];
    }
  }

  method UnwatchCommands(win: string, hookIndex: nat) returns (unwatch: seq<seq<string>>)
    ensures unwatch == [Unwatch(win, Keys(Decimal(hookIndex))[0]), Unwatch(win, Keys(Decimal(hookIndex))[1])]
  {
    var names := WindowPinHookNames(hookIndex);
    unwatch := [];
    for i := 0 to |names|
      invariant |unwatch| == i && forall j :: 0 <= j < i ==> unwatch[j] == Unwatch(win, Keys(Decimal(hookIndex))[j])
    {
      unwatch := unwatch + [["set-hook", "-w", "-u", "-t", win, names[i]]];
    }
  }

  method PinWindowSizeIfGenerationArgs(c: Capture, owner: string, hookIndex: nat) returns (args: Option<seq<string>>)
    ensures args == PinVector(c, owner, hookIndex)
  {
    if !IsSessionID(c.session) || !IsWindowID(c.win) || !IsGeneration(c.generation) || c.columns == 0 || c.rows == 0 {
      return None;
    }
    if !IsMode(c.mode) || !IsStatus(c.status) || !IsOwnership(c.inherited, owner, hookIndex) {
      return None;
    }
    var conditions := PinConditions(c);
    var condition := JoinConditions(conditions, Conditions(c));
    var cmds := ClaimCommands(c, owner, hookIndex);
    return Some(["if-shell", "-F", "-t", c.session, condition, Script(cmds), Print(["display-message", "-p", PinMismatch])]);
  }

  method ClaimCommands(c: Capture, owner: string, hookIndex: nat) returns (cmds: seq<seq<string>>)
    ensures cmds == PinCommands(c, owner, hookIndex)
  {
    cmds := [NoOp()];
    if c.inherited {
      var watch := WatchCommands(c.win, hookIndex);
      cmds := [Claim(c.win), Mark(c.win, owner), Resizing(c.win, Decimal(c.columns), Decimal(c.rows))] + watch;
      ThreeAndTwo(Claim(c.win), Mark(c.win, owner), Resizing(c.win, Decimal(c.columns), Decimal(c.rows)), watch);
    }
  }

  lemma ThreeAndTwo<T>(a: T, b: T, c: T, rest: seq<T>)
    requires |rest| == 2
    ensures [a, b, c] + rest == [a, b, c, rest[0], rest[1]]
  {
  }

  lemma TwoAndTwoMore<T>(a: T, b: T, c: T, d: T)
    ensures [a, b] + [c, d] == [a, b, c, d]
  {
  }

  method RestoringCommands(win: string, mode: string, inherited: bool, owner: string, hookIndex: nat)
    returns (cmds: seq<seq<string>>)
    ensures cmds == RestoreCommands(win, mode, inherited, owner, hookIndex)
  {
    cmds := [["set-option", "-w", "-t", win, "window-size", mode]];
    if inherited {
      var unwatch := UnwatchCommands(win, hookIndex);
      var (unset, clear) := (Guarded(win, OwnedGuard(owner), "window-size"), Guarded(win, Is(OwnerOption, owner), OwnerOption));
      cmds := unwatch + [unset, clear];
      TwoAndTwoMore(Unwatch(win, Keys(Decimal(hookIndex))[0]), Unwatch(win, Keys(Decimal(hookIndex))[1]), unset, clear);
    }
  }

  method RestoreWindowSizeIfGenerationArgs(
    generation: string, win: string, mode: string, inherited: bool, owner: string, hookIndex: nat)
    returns (args: Option<seq<string>>)
    ensures args == RestoreVector(generation, win, mode, inherited, owner, hookIndex)
  {
    if !IsWindowID(win) || !IsMode(mode) || !IsOwnership(inherited, owner, hookIndex) {
      return None;
    }
    var cmds := RestoringCommands(win, mode, inherited, owner, hookIndex);
    if !IsGeneration(generation) {
      return None;
    }
    PlainValues(generation, "", 0);
    var condition := "#{==:#{" + GenerationOption + "}," + generation + "}";
    return Some(["if-shell", "-F", condition, Script(cmds), Print(["display-message", "-p", GenerationMismatch])]);
  }

  // ----- running them -----

  /** The live window is still the captured one. */
  predicate Matches(w: Window, c: Capture) {
    && w.generation == c.generation && w.id == c.win && w.columns == Decimal(c.columns) && w.rows == Decimal(c.rows)
    && Mode(w) == c.mode && w.status == c.status
  }

  lemma ReadIs(name: string, value: string, env: Env)
    requires Readable(name)
    ensures ReadableNames(Is(name, value)) && Holds(Is(name, value), env) == (Lookup(env, name) == value)
  {
  }

  lemma GenerationMatches(w: Window, c: Capture)
    ensures ReadableNames(Conditions(c)[0]) && Holds(Conditions(c)[0], EnvOf(w, "")) == (w.generation == c.generation)
  {
    GenerationIsReadable();
    EnvLookups(w, "");
    ReadIs(GenerationOption, c.generation, EnvOf(w, ""));
  }

  lemma WindowMatches(w: Window, c: Capture)
    ensures ReadableNames(Conditions(c)[1]) && Holds(Conditions(c)[1], EnvOf(w, "")) == (w.id == c.win)
  {
    WindowIdIsReadable();
    EnvLookups(w, "");
    ReadIs("window_id", c.win, EnvOf(w, ""));
  }

  lemma WidthMatches(w: Window, c: Capture)
    ensures ReadableNames(Conditions(c)[2]) && Holds(Conditions(c)[2], EnvOf(w, "")) == (w.columns == Decimal(c.columns))
  {
    WidthIsReadable();
    EnvLookups(w, "");
    ReadIs("window_width", Decimal(c.columns), EnvOf(w, ""));
  }

  lemma HeightMatches(w: Window, c: Capture)
    ensures ReadableNames(Conditions(c)[3]) && Holds(Conditions(c)[3], EnvOf(w, "")) == (w.rows == Decimal(c.rows))
  {
    HeightIsReadable();
    EnvLookups(w, "");
    ReadIs("window_height", Decimal(c.rows), EnvOf(w, ""));
  }

  lemma ModeMatches(w: Window, c: Capture)
    ensures ReadableNames(Conditions(c)[4]) && Holds(Conditions(c)[4], EnvOf(w, "")) == (Mode(w) == c.mode)
  {
    SizeIsReadable();
    EnvLookups(w, "");
    ReadIs("window-size", c.mode, EnvOf(w, ""));
  }

  lemma StatusMatches(w: Window, c: Capture)
    ensures ReadableNames(Conditions(c)[5]) && Holds(Conditions(c)[5], EnvOf(w, "")) == (w.status == c.status)
  {
    StatusIsReadable();
    EnvLookups(w, "");
    ReadIs("status", c.status, EnvOf(w, ""));
  }

  lemma ConditionsMatch(w: Window, c: Capture)
    ensures ReadableNames(Conjunction(Conditions(c)))
    ensures Holds(Conjunction(Conditions(c)), EnvOf(w, "")) == Matches(w, c)
  {
    GenerationMatches(w, c);
    WindowMatches(w, c);
    WidthMatches(w, c);
    HeightMatches(w, c);
    ModeMatches(w, c);
    StatusMatches(w, c);
    ConditionsHold(Conditions(c), EnvOf(w, ""));
  }

  lemma ConditionsHold(gs: seq<Guard>, env: Env)
    requires |gs| == 6
    requires ReadableNames(gs[0]) && ReadableNames(gs[1]) && ReadableNames(gs[2])
    requires ReadableNames(gs[3]) && ReadableNames(gs[4]) && ReadableNames(gs[5])
    ensures ReadableNames(Conjunction(gs))
    ensures Holds(Conjunction(gs), env) ==
            (Holds(gs[0], env) && Holds(gs[1], env) && Holds(gs[2], env) && Holds(gs[3], env) && Holds(gs[4], env) && Holds(gs[5], env))
  {
    ConjunctionHolds(gs, env);
  }

  lemma DisplayRuns(w: Window, text: string, message: string)
    requires Read(text) == Some([["display-message", "-p", message]])
    ensures RunText(w, text, Wrap, "", true) == Result(w, Done, message)
  {
    RunSingle(w, text, ["display-message", "-p", message], Display(message), Wrap, "", true, 0);
  }

  lemma Announces(w: Window, message: string)
    ensures RunText(w, Print(["display-message", "-p", message]), Wrap, "", true) == Result(w, Done, message)
  {
    PrintReadRoundTrip(["display-message", "-p", message]);
    DisplayRuns(w, Print(["display-message", "-p", message]), message);
  }

  lemma PinCommandsRun(w: Window, c: Capture, owner: string, hookIndex: nat)
    requires TameHooks(w) && w.id == c.win
    ensures RunText(w, Script(PinCommands(c, owner, hookIndex)), Wrap, "", true) ==
            if !c.inherited then Result(w, Done, "")
            else if w.size.Some? then Result(w, AlreadySet, "")
            else Result(PinEffect(w, owner, Decimal(hookIndex), Decimal(c.columns), Decimal(c.rows)), Done, "")
  {
    if !c.inherited {
      assert Script([NoOp()]) == Print(NoOp()) by { ScriptOfOne(NoOp()); }
      RunNoOp(w, Wrap, "", true);
    } else if w.size.Some? {
      PinScriptConflicts(w, owner, Decimal(hookIndex), Decimal(c.columns), Decimal(c.rows));
    } else {
      PinScriptRuns(w, owner, Decimal(hookIndex), Decimal(c.columns), Decimal(c.rows));
    }
  }

  lemma ScriptOfOne(words: seq<string>)
    ensures Script([words]) == Print(words)
  {
    assert Printed([words]) == [Print(words)];
  }

  lemma RunChoice(w: Window, args: seq<string>, g: Guard, yes: string, no: string)
    requires ReadCommand(args) == IfShell(PrintGuard(g), yes, no) && ReadableNames(g)
    ensures RunArgs(w, args, Wrap) == RunText(w, if Holds(g, EnvOf(w, "")) then yes else no, Wrap, "", true)
  {
    GuardMeansWhatItSays(g, EnvOf(w, ""));
  }

  /**
   The whole pin vector: one atomic claim. It touches nothing unless the window is still exactly the
   captured one and has no local size, and then it is PinEffect.
   */
  lemma PinVectorRuns(w: Window, c: Capture, owner: string, hookIndex: nat)
    requires TameHooks(w) && PinVector(c, owner, hookIndex).Some?
    ensures RunArgs(w, PinVector(c, owner, hookIndex).value, Wrap) ==
            if !Matches(w, c) then Result(w, Done, PinMismatch)
            else if !c.inherited then Result(w, Done, "")
            else if w.size.Some? then Result(w, AlreadySet, "")
            else Result(PinEffect(w, owner, Decimal(hookIndex), w.columns, w.rows), Done, "")
  {
    var (yes, no) := (Script(PinCommands(c, owner, hookIndex)), Print(["display-message", "-p", PinMismatch]));
    var g := Conjunction(Conditions(c));
    ReadIfShell(c.session, PrintGuard(g), yes, no);
    ConditionsMatch(w, c);
    RunChoice(w, PinVector(c, owner, hookIndex).value, g, yes, no);
    Announces(w, PinMismatch);
    if Matches(w, c) {
      PinCommandsRun(w, c, owner, hookIndex);
    }
  }

  /** The whole restore vector, on the window it names: RestoreEffect on the server it was captured from, nothing elsewhere. */
  lemma RestoreVectorRuns(w: Window, generation: string, mode: string, owner: string, hookIndex: nat)
    requires TameHooks(w) && RestoreVector(generation, w.id, mode, true, owner, hookIndex).Some?
    ensures RunArgs(w, RestoreVector(generation, w.id, mode, true, owner, hookIndex).value, Wrap) ==
            if w.generation == generation then Result(RestoreEffect(w, owner, Decimal(hookIndex)), Done, "")
            else Result(w, Done, GenerationMismatch)
  {
    var yes := Script(RestoreCommands(w.id, mode, true, owner, hookIndex));
    var no := Print(["display-message", "-p", GenerationMismatch]);
    var g := Is(GenerationOption, generation);
    ReadIfShell("", PrintGuard(g), yes, no);
    GenerationHolds(w, generation);
    RunChoice(w, RestoreVector(generation, w.id, mode, true, owner, hookIndex).value, g, yes, no);
    Announces(w, GenerationMismatch);
    if w.generation == generation {
      RestoreScriptRuns(w, owner, Decimal(hookIndex));
    }
  }

  lemma GenerationHolds(w: Window, generation: string)
    ensures ReadableNames(Is(GenerationOption, generation))
    ensures Holds(Is(GenerationOption, generation), EnvOf(w, "")) == (w.generation == generation)
  {
    NamesAreReadable();
    EnvLookups(w, "");
  }
}
