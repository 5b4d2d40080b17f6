/**
 What the printed window-size commands do to a tmux window.

 A window is small state: its local window-size, Wrap's owner mark, its armed hooks and what the
 guards look at. A reference interpreter reads a printed argument vector, evaluates its guard with
 the format reader, reads the chosen command string, and executes the commands one by one, firing
 hooks. `PinScriptRuns` and `RestoreScriptRuns` say that the printed command queues have exactly
 `PinEffect` and `RestoreEffect`, on every window.
 */
module TmuxWindow {
  import opened Options
  import opened TmuxCommand
  import opened TmuxFormat

  const OwnerOption := "@wrap_mirror_pin_owner"
  const PinMismatch := "wrap-window-pin-mismatch"
  const GenerationMismatch := "wrap-server-generation-mismatch"

  datatype Actor = Host | Wrap
  datatype Setting = Setting(mode: string, actor: Actor)
  datatype Event = AfterSetOption | AfterResizeWindow
  datatype HookKey = HookKey(event: Event, index: string)
  datatype Hook = Hook(text: string, actor: Actor)

  datatype Window = Window(
    generation: string, // of the server the window lives on
    id: string,
    size: Option<Setting>, // the window-local window-size and who set it
    inherited: string, // the mode that applies while there is no local one
    owner: string, // Wrap's mark, empty when unset
    hooks: map<HookKey, Hook>,
    columns: string,
    rows: string,
    status: string)

  // ----- reading single commands -----

  datatype Command =
    | SetOption(target: string, name: string, value: string, onlyIfUnset: bool)
    | UnsetOption(target: string, name: string)
    | Resize(target: string, columns: string, rows: string)
    | SetHook(target: string, key: HookKey, command: string)
    | UnsetHook(target: string, key: HookKey)
    | IfShell(condition: string, yes: string, no: string)
    | Display(message: string)
    | Unknown

  function HookPrefix(event: Event): string {
    match event case AfterSetOption => "after-set-option[" case AfterResizeWindow => "after-resize-window["
  }

  function HookName(key: HookKey): string {
    HookPrefix(key.event) + key.index + "]"
  }

  function ReadHookName(name: string): Option<HookKey> {
    var (p, q) := (HookPrefix(AfterSetOption), HookPrefix(AfterResizeWindow));
    if |name| > |p| && name[..|p|] == p then Some(HookKey(AfterSetOption, name[|p|..|name| - 1]))
    else if |name| > |q| && name[..|q|] == q then Some(HookKey(AfterResizeWindow, name[|q|..|name| - 1]))
    else None
  }

  function ReadCommand(w: seq<string>): Command {
    if |w| == 3 && w[0] == "display-message" && w[1] == "-p" then Display(w[2])
    else if |w| == 5 && w[0] == "if-shell" && w[1] == "-F" then IfShell(w[2], w[3], w[4])
    else if |w| == 7 && w[0] == "if-shell" && w[1] == "-F" && w[2] == "-t" then IfShell(w[4], w[5], w[6])
    else if |w| == 7 && w[0] == "resize-window" && w[1] == "-t" && w[3] == "-x" && w[5] == "-y" then Resize(w[2], w[4], w[6])
    else if |w| == 7 && w[0] == "set-option" && w[1] == "-w" && w[2] == "-o" && w[3] == "-t" then SetOption(w[4], w[5], w[6], true)
    else if |w| == 6 && w[0] == "set-option" && w[1] == "-w" && w[2] == "-u" && w[3] == "-t" then UnsetOption(w[4], w[5])
    else if |w| == 6 && w[0] == "set-option" && w[1] == "-w" && w[2] == "-t" then SetOption(w[3], w[4], w[5], false)
    else if |w| == 6 && w[0] == "set-hook" && w[1] == "-w" && w[2] == "-u" && w[3] == "-t" && ReadHookName(w[5]).Some? then
      UnsetHook(w[4], ReadHookName(w[5]).value)
    else if |w| == 6 && w[0] == "set-hook" && w[1] == "-w" && w[2] == "-t" && ReadHookName(w[4]).Some? then
      SetHook(w[3], ReadHookName(w[4]).value, w[5])
    else Unknown
  }

  // ----- executing -----

  datatype Status = Done | AlreadySet | Bad
  datatype Result = Result(window: Window, status: Status, output: string)

  function Mode(w: Window): string {
    if w.size.Some? then w.size.value.mode else w.inherited
  }

  function EnvOf(w: Window, argument: string): Env {
    map[GenerationOption := w.generation, "window_id" := w.id, "window_width" := w.columns,
        "window_height" := w.rows, "window-size" := Mode(w), "status" := w.status,
        OwnerOption := w.owner, "hook_argument_0" := argument]
  }

  function Assign(w: Window, name: string, value: string, actor: Actor): Window {
    if name == "window-size" then w.(size := Some(Setting(value, actor)))
    else if name == OwnerOption then w.(owner := value)
    else w
  }

  function Unassign(w: Window, name: string): Window {
    if name == "window-size" then w.(size := None) else if name == OwnerOption then w.(owner := "") else w
  }

  predicate Short(cmds: seq<seq<string>>, n: nat) {
    forall c, word :: c in cmds && word in c && |c| >= 2 ==> |word| < n
  }

  /** The hooks of an event run one after the other, with hooks off. */
  ghost function FireAll(w: Window, keys: set<HookKey>, argument: string): Window
    decreases 1, 0, 0, |keys|
  {
    if keys == {} then w
    else
      var key :| key in keys;
      var next := if key in w.hooks then RunText(w, w.hooks[key].text, w.hooks[key].actor, argument, false).window else w;
      FireAll(next, keys - {key}, argument)
  }

  function KeysOf(w: Window, event: Event): set<HookKey> {
    set key | key in w.hooks && key.event == event
  }

  ghost function Fire(w: Window, event: Event, argument: string): Window
    decreases 1, 0, 1, 0
  {
    FireAll(w, KeysOf(w, event), argument)
  }

  ghost function Notify(w: Window, event: Event, argument: string, hooksOn: bool): Window
    decreases if hooksOn then 1 else 0, 0, 2, 0
  {
    if hooksOn then Fire(w, event, argument) else w
  }

  /** Runs one command; `n` bounds the strings it may hold. */
  ghost function RunCommand(w: Window, c: Command, actor: Actor, argument: string, hooksOn: bool, n: nat): Result
    requires c.IfShell? ==> |c.yes| < n && |c.no| < n
    decreases if hooksOn then 1 else 0, n, 3, 0
  {
    match c
    case Display(message) => Result(w, Done, message)
    case IfShell(condition, yes, no) =>
      RunText(w, if Truthy(Expand(condition, EnvOf(w, argument))) then yes else no, actor, argument, hooksOn)
    case Resize(target, columns, rows) =>
      if target != w.id then Result(w, Bad, "")
      else Result(Notify(w.(columns := columns, rows := rows, size := Some(Setting("manual", actor))),
                         AfterResizeWindow, "", hooksOn), Done, "")
    case SetOption(target, name, value, onlyIfUnset) =>
      if target != w.id then Result(w, Bad, "")
      else if onlyIfUnset && name == "window-size" && w.size.Some? then Result(w, AlreadySet, "")
      else Result(Notify(Assign(w, name, value, actor), AfterSetOption, name, hooksOn), Done, "")
    case UnsetOption(target, name) =>
      if target != w.id then Result(w, Bad, "")
      else Result(Notify(Unassign(w, name), AfterSetOption, name, hooksOn), Done, "")
    case SetHook(target, key, command) =>
      if target != w.id then Result(w, Bad, "") else Result(w.(hooks := w.hooks[key := Hook(command, actor)]), Done, "")
    case UnsetHook(target, key) =>
      if target != w.id then Result(w, Bad, "") else Result(w.(hooks := w.hooks - {key}), Done, "")
    case Unknown => Result(w, Bad, "")
  }

  /** A command sequence stops at its first error. */
  ghost function RunCommands(w: Window, cmds: seq<seq<string>>, actor: Actor, argument: string, hooksOn: bool, n: nat): Result
    requires Short(cmds, n)
    decreases if hooksOn then 1 else 0, n, 4, |cmds|
  {
    if cmds == [] then Result(w, Done, "")
    else
      assert cmds[0] in cmds;
      var first := RunCommand(w, ReadCommand(cmds[0]), actor, argument, hooksOn, n);
      if first.status != Done then first
      else var rest := RunCommands(first.window, cmds[1..], actor, argument, hooksOn, n);
           Result(rest.window, rest.status, first.output + rest.output)
  }

  ghost function RunText(w: Window, text: string, actor: Actor, argument: string, hooksOn: bool): Result
    decreases if hooksOn then 1 else 0, |text|, 5, 0
  {
    ReadShorter(text);
    if Read(text).None? then Result(w, Bad, "") else RunCommands(w, Read(text).value, actor, argument, hooksOn, |text|)
  }

  /** Runs an argument vector, as the tmux client passes it to the server. */
  ghost function RunArgs(w: Window, args: seq<string>, actor: Actor): Result {
    var c := ReadCommand(args);
    RunCommand(w, c, actor, "", true, if c.IfShell? then |c.yes| + |c.no| + 1 else 0)
  }

  // ----- the commands Wrap prints -----

  function NoOp(): seq<string> {
    ["display-message", "-p", ""]
  }

  function Claim(win: string): seq<string> {
    ["set-option", "-w", "-o", "-t", win, "window-size", "manual"]
  }

  function Mark(win: string, owner: string): seq<string> {
    ["set-option", "-w", "-t", win, OwnerOption, owner]
  }

  function Resizing(win: string, columns: string, rows: string): seq<string> {
    ["resize-window", "-t", win, "-x", columns, "-y", rows]
  }

  function Unset(win: string, option: string): seq<string> {
    ["set-option", "-w", "-u", "-t", win, option]
  }

  function Filter(win: string): seq<string> {
    ["if-shell", "-F", PrintGuard(HookGuard), Print(Unset(win, OwnerOption)), Print(NoOp())]
  }

  function HookCommand(win: string, event: Event): string {
    Print(if event == AfterSetOption then Filter(win) else Unset(win, OwnerOption))
  }

  function Watch(win: string, key: HookKey): seq<string> {
    ["set-hook", "-w", "-t", win, HookName(key), HookCommand(win, key.event)]
  }

  function Unwatch(win: string, key: HookKey): seq<string> {
    ["set-hook", "-w", "-u", "-t", win, HookName(key)]
  }

  function Guarded(win: string, g: Guard, option: string): seq<string> {
    ["if-shell", "-F", "-t", win, PrintGuard(g), Print(Unset(win, option)), Print(NoOp())]
  }

  function Keys(index: string): seq<HookKey> {
    [HookKey(AfterSetOption, index), HookKey(AfterResizeWindow, index)]
  }

  function PinScript(win: string, owner: string, index: string, columns: string, rows: string): seq<seq<string>> {
    [Claim(win), Mark(win, owner), Resizing(win, columns, rows), Watch(win, Keys(index)[0]), Watch(win, Keys(index)[1])]
  }

  function OwnedGuard(owner: string): Guard {
    Both(Is("window-size", "manual"), Is(OwnerOption, owner))
  }

  function RestoreScript(win: string, owner: string, index: string): seq<seq<string>> {
    [Unwatch(win, Keys(index)[0]), Unwatch(win, Keys(index)[1]),
     Guarded(win, OwnedGuard(owner), "window-size"), Guarded(win, Is(OwnerOption, owner), OwnerOption)]
  }

  // ----- their effects -----

  /** A hook the host installed, running whose commands leaves the window as it is. */
  ghost predicate Harmless(text: string, id: string) {
    forall v: Window, argument :: v.id == id ==> RunText(v, text, Host, argument, false).window == v
  }

  ghost predicate TameHook(hook: Hook, event: Event, id: string) {
    if hook.actor == Wrap then hook.text == HookCommand(id, event) else Harmless(hook.text, id)
  }

  /** Wrap's hooks are the ones it prints, and the host's do not touch the window. */
  ghost predicate TameHooks(w: Window) {
    forall key :: key in w.hooks ==> TameHook(w.hooks[key], key.event, w.id)
  }

  /** Some hook of Wrap's watches for the event. */
  predicate Armed(w: Window, event: Event) {
    exists key :: key in w.hooks && key.event == event && w.hooks[key].actor == Wrap
  }

  /** A claim on a window without a local size: manual, marked and watched; hooks left armed earlier undo the mark. */
  function PinEffect(w: Window, owner: string, index: string, columns: string, rows: string): Window {
    w.(size := Some(Setting("manual", Wrap)), columns := columns, rows := rows,
       owner := if Armed(w, AfterResizeWindow) then "" else owner,
       hooks := w.hooks[Keys(index)[0] := Hook(HookCommand(w.id, AfterSetOption), Wrap)]
                       [Keys(index)[1] := Hook(HookCommand(w.id, AfterResizeWindow), Wrap)])
  }

  /** A restore: stop watching, drop the local size if it is still ours and manual, then drop our mark. */
  function RestoreEffect(w: Window, owner: string, index: string): Window {
    w.(hooks := w.hooks - {Keys(index)[0]} - {Keys(index)[1]},
       size := if w.owner == owner && Mode(w) == "manual" then None else w.size,
       owner := if w.owner == owner then "" else w.owner)
  }

  // ----- reading the printed commands -----

  lemma ReadHook(key: HookKey)
    ensures ReadHookName(HookName(key)) == Some(key)
  {
    var (p, q, name) := (HookPrefix(AfterSetOption), HookPrefix(AfterResizeWindow), HookName(key));
    assert p[6] != q[6];
    if key.event == AfterSetOption {
      assert name[..|p|] == p && name[|p|..|name| - 1] == key.index;
    } else {
      assert name[..|q|] == q && name[|q|..|name| - 1] == key.index;
      assert name[6] == q[6];
      assert |name| > |p| ==> name[..|p|][6] == q[6];
    }
  }

  lemma ReadSetters(win: string, owner: string, columns: string, rows: string, option: string)
    ensures ReadCommand(Claim(win)) == SetOption(win, "window-size", "manual", true)
    ensures ReadCommand(Mark(win, owner)) == SetOption(win, OwnerOption, owner, false)
    ensures ReadCommand(Resizing(win, columns, rows)) == Resize(win, columns, rows)
    ensures ReadCommand(Unset(win, option)) == UnsetOption(win, option)
    ensures ReadCommand(NoOp()) == Display("")
  {
    assert "-o"[1] != "-u"[1] && "-o"[1] != "-t"[1] && "-u"[1] != "-t"[1];
  }

  lemma ReadSetHook(win: string, name: string, key: HookKey, command: string)
    requires ReadHookName(name) == Some(key)
    ensures ReadCommand(["set-hook", "-w", "-t", win, name, command]) == SetHook(win, key, command)
    ensures ReadCommand(["set-hook", "-w", "-u", "-t", win, name]) == UnsetHook(win, key)
  {
    assert "-u"[1] != "-t"[1];
    assert |"set-hook"| != |"set-option"|;
  }

  lemma ReadIfShell(win: string, condition: string, yes: string, no: string)
    ensures ReadCommand(["if-shell", "-F", condition, yes, no]) == IfShell(condition, yes, no)
    ensures ReadCommand(["if-shell", "-F", "-t", win, condition, yes, no]) == IfShell(condition, yes, no)
  {
  }

  // ----- running the printed commands -----

  /** The bound only serves termination. */
  lemma BoundIsIrrelevant(w: Window, c: Command, actor: Actor, argument: string, hooksOn: bool, n: nat, m: nat)
    requires c.IfShell? ==> |c.yes| < n && |c.no| < n && |c.yes| < m && |c.no| < m
    ensures RunCommand(w, c, actor, argument, hooksOn, n) == RunCommand(w, c, actor, argument, hooksOn, m)
  {
  }

  lemma RunOne(w: Window, words: seq<string>, actor: Actor, argument: string, hooksOn: bool, n: nat)
    requires Short([words], n)
    requires var c := ReadCommand(words); c.IfShell? ==> |c.yes| < n && |c.no| < n
    ensures RunCommands(w, [words], actor, argument, hooksOn, n) ==
            RunCommand(w, ReadCommand(words), actor, argument, hooksOn, n)
  {
    var first := RunCommand(w, ReadCommand(words), actor, argument, hooksOn, n);
    assert [words][1..] == [];
    assert RunCommands(first.window, [words][1..], actor, argument, hooksOn, n) == Result(first.window, Done, "");
    assert first.output + "" == first.output;
  }

  /** A text that reads as one command does what that command does. */
  lemma RunSingle(w: Window, text: string, words: seq<string>, c: Command, actor: Actor, argument: string, hooksOn: bool, n: nat)
    requires Read(text) == Some([words]) && c == ReadCommand(words)
    requires c.IfShell? ==> |c.yes| < n && |c.no| < n
    ensures RunText(w, text, actor, argument, hooksOn) == RunCommand(w, c, actor, argument, hooksOn, n)
  {
    ReadShorter(text);
    IfShellShort([words], |text|);
    RunOne(w, words, actor, argument, hooksOn, |text|);
    BoundIsIrrelevant(w, c, actor, argument, hooksOn, n, |text|);
  }

  /** A conditional whose guard was printed runs the branch the guard's meaning selects. */
  lemma RunGuarded(w: Window, text: string, words: seq<string>, g: Guard, yes: string, no: string,
                   actor: Actor, argument: string, hooksOn: bool)
    requires Read(text) == Some([words]) && ReadCommand(words) == IfShell(PrintGuard(g), yes, no) && ReadableNames(g)
    ensures RunText(w, text, actor, argument, hooksOn) ==
            RunText(w, if Holds(g, EnvOf(w, argument)) then yes else no, actor, argument, hooksOn)
  {
    RunSingle(w, text, words, ReadCommand(words), actor, argument, hooksOn, |yes| + |no| + 1);
    GuardMeansWhatItSays(g, EnvOf(w, argument));
  }

  /** The command these words denote takes window `w` to `next`, without error or output. */
  ghost predicate StepsTo(w: Window, words: seq<string>, next: Window, actor: Actor, argument: string, hooksOn: bool, n: nat) {
    var c := ReadCommand(words);
    (c.IfShell? ==> |c.yes| < n && |c.no| < n) && RunCommand(w, c, actor, argument, hooksOn, n) == Result(next, Done, "")
  }

  lemma RunFirst(w: Window, cmds: seq<seq<string>>, next: Window, actor: Actor, argument: string, hooksOn: bool, n: nat)
    requires cmds != [] && Short(cmds, n) && StepsTo(w, cmds[0], next, actor, argument, hooksOn, n)
    ensures RunCommands(w, cmds, actor, argument, hooksOn, n) == RunCommands(next, cmds[1..], actor, argument, hooksOn, n)
  {
    var rest := RunCommands(next, cmds[1..], actor, argument, hooksOn, n);
    assert "" + rest.output == rest.output;
  }

  /** An error at the head of a sequence is the end of it. */
  lemma RunStops(w: Window, cmds: seq<seq<string>>, actor: Actor, argument: string, hooksOn: bool, n: nat)
    requires cmds != [] && Short(cmds, n)
    requires var c := ReadCommand(cmds[0]);
             (c.IfShell? ==> |c.yes| < n && |c.no| < n) && RunCommand(w, c, actor, argument, hooksOn, n).status != Done
    ensures RunCommands(w, cmds, actor, argument, hooksOn, n) ==
            RunCommand(w, ReadCommand(cmds[0]), actor, argument, hooksOn, n)
  {
  }

  lemma IfShellShort(cmds: seq<seq<string>>, n: nat)
    requires Short(cmds, n) && cmds != []
    ensures var c := ReadCommand(cmds[0]); c.IfShell? ==> |c.yes| < n && |c.no| < n
  {
    assert cmds[0] in cmds;
  }

  lemma RunUnset(w: Window, option: string, actor: Actor, argument: string, hooksOn: bool)
    ensures RunText(w, Print(Unset(w.id, option)), actor, argument, hooksOn) ==
            Result(Notify(Unassign(w, option), AfterSetOption, option, hooksOn), Done, "")
  {
    var words := Unset(w.id, option);
    PrintReadRoundTrip(words);
    ReadSetters(w.id, "", "", "", option);
    RunSingle(w, Print(words), words, UnsetOption(w.id, option), actor, argument, hooksOn, 0);
  }

  lemma RunNoOp(w: Window, actor: Actor, argument: string, hooksOn: bool)
    ensures RunText(w, Print(NoOp()), actor, argument, hooksOn) == Result(w, Done, "")
  {
    PrintReadRoundTrip(NoOp());
    ReadSetters(w.id, "", "", "", "");
    RunSingle(w, Print(NoOp()), NoOp(), Display(""), actor, argument, hooksOn, 0);
  }

  /** What each name the guards use stands for. */
  lemma EnvLookups(w: Window, argument: string)
    ensures var env := EnvOf(w, argument);
            && Lookup(env, GenerationOption) == w.generation && Lookup(env, "window_id") == w.id
            && Lookup(env, "window_width") == w.columns && Lookup(env, "window_height") == w.rows
            && Lookup(env, "window-size") == Mode(w) && Lookup(env, "status") == w.status
            && Lookup(env, OwnerOption) == w.owner && Lookup(env, "hook_argument_0") == argument
  {
  }

  lemma WindowIdIsReadable()
    ensures Readable("window_id")
  {
    PlainIsReadable("window_id");
  }

  lemma WidthIsReadable()
    ensures Readable("window_width")
  {
    PlainIsReadable("window_width");
  }

  lemma HeightIsReadable()
    ensures Readable("window_height")
  {
    PlainIsReadable("window_height");
  }

  lemma SizeIsReadable()
    ensures Readable("window-size")
  {
    PlainIsReadable("window-size");
  }

  lemma StatusIsReadable()
    ensures Readable("status")
  {
    PlainIsReadable("status");
  }

  lemma OwnerIsReadable()
    ensures Readable(OwnerOption)
  {
    PlainIsReadable(OwnerOption);
  }

  lemma ArgumentIsReadable()
    ensures Readable("hook_argument_0")
  {
    PlainIsReadable("hook_argument_0");
  }

  lemma NamesAreReadable()
    ensures Readable(GenerationOption) && Readable("window_id") && Readable("window_width")
    ensures Readable("window_height") && Readable("window-size") && Readable("status")
    ensures Readable(OwnerOption) && Readable("hook_argument_0")
  {
    GenerationIsReadable();
    WindowIdIsReadable();
    WidthIsReadable();
    HeightIsReadable();
    SizeIsReadable();
    StatusIsReadable();
    OwnerIsReadable();
    ArgumentIsReadable();
  }

  const HookGuard := Is("hook_argument_0", "window-size")

  lemma HookGuardHolds(w: Window, argument: string)
    ensures ReadableNames(HookGuard) && Holds(HookGuard, EnvOf(w, argument)) == (argument == "window-size")
  {
    NamesAreReadable();
    EnvLookups(w, argument);
  }

  lemma FilterRuns(w: Window, argument: string)
    ensures RunText(w, Print(Filter(w.id)), Wrap, argument, false) ==
            Result(if argument == "window-size" then w.(owner := "") else w, Done, "")
  {
    var (yes, no) := (Print(Unset(w.id, OwnerOption)), Print(NoOp()));
    PrintReadRoundTrip(Filter(w.id));
    ReadIfShell(w.id, PrintGuard(HookGuard), yes, no);
    HookGuardHolds(w, argument);
    RunGuarded(w, Print(Filter(w.id)), Filter(w.id), HookGuard, yes, no, Wrap, argument, false);
    RunUnset(w, OwnerOption, Wrap, argument, false);
    RunNoOp(w, Wrap, argument, false);
  }

  /** What one of Wrap's hooks does when it fires. */
  lemma HookRuns(w: Window, event: Event, argument: string)
    ensures RunText(w, HookCommand(w.id, event), Wrap, argument, false) ==
            Result(if event == AfterResizeWindow || argument == "window-size" then w.(owner := "") else w, Done, "")
  {
    if event == AfterSetOption {
      FilterRuns(w, argument);
    } else {
      RunUnset(w, OwnerOption, Wrap, argument, false);
    }
  }

  /** Whether the hook clears the mark when it fires. */
  predicate Clears(hook: Hook, event: Event, argument: string) {
    hook.actor == Wrap && (event == AfterResizeWindow || argument == "window-size")
  }

  lemma TameHookRuns(v: Window, hook: Hook, event: Event, argument: string)
    requires TameHook(hook, event, v.id)
    ensures RunText(v, hook.text, hook.actor, argument, false).window ==
            if Clears(hook, event, argument) then v.(owner := "") else v
  {
    if hook.actor == Wrap {
      HookRuns(v, event, argument);
    }
  }

  lemma {:induction false} FireAllTame(v: Window, keys: set<HookKey>, event: Event, argument: string)
    requires TameHooks(v) && forall key :: key in keys ==> key in v.hooks && key.event == event
    ensures FireAll(v, keys, argument) ==
            if exists key :: key in keys && Clears(v.hooks[key], event, argument) then v.(owner := "") else v
    decreases |keys|
  {
    if keys != {} {
      var key :| key in keys && FireAll(v, keys, argument) ==
        FireAll(RunText(v, v.hooks[key].text, v.hooks[key].actor, argument, false).window, keys - {key}, argument);
      TameHookRuns(v, v.hooks[key], event, argument);
      FireAllTame(if Clears(v.hooks[key], event, argument) then v.(owner := "") else v, keys - {key}, event, argument);
    }
  }

  lemma FireTame(w: Window, event: Event, argument: string)
    requires TameHooks(w)
    ensures Fire(w, event, argument) ==
            if Armed(w, event) && (event == AfterResizeWindow || argument == "window-size") then w.(owner := "") else w
  {
    FireAllTame(w, KeysOf(w, event), event, argument);
    if Armed(w, event) {
      var key :| key in w.hooks && key.event == event && w.hooks[key].actor == Wrap;
      assert key in KeysOf(w, event);
    }
  }

  /** Silent steps in a row. */
  ghost predicate Leads(ws: seq<Window>, cmds: seq<seq<string>>, n: nat) {
    |ws| == |cmds| + 1 && forall i :: 0 <= i < |cmds| ==> StepsTo(ws[i], cmds[i], ws[i + 1], Wrap, "", true, n)
  }

  lemma OneMore(w: Window, words: seq<string>, ws: seq<Window>, cmds: seq<seq<string>>, n: nat)
    requires Leads(ws, cmds, n) && StepsTo(w, words, ws[0], Wrap, "", true, n)
    ensures Leads([w] + ws, [words] + cmds, n)
  {
  }

  lemma TwoSteps(w: Window, w1: Window, w2: Window, c0: seq<string>, c1: seq<string>, n: nat)
    requires StepsTo(w, c0, w1, Wrap, "", true, n) && StepsTo(w1, c1, w2, Wrap, "", true, n)
    ensures Leads([w, w1, w2], [c0, c1], n)
  {
    OneMore(w1, c1, [w2], [], n);
    OneMore(w, c0, [w1] + [w2], [c1] + [], n);
    assert [w, w1, w2] == [w] + ([w1] + [w2]) && [c0, c1] == [c0] + ([c1] + []);
  }

  lemma Joined(w: seq<Window>, c: seq<seq<string>>, k: nat, n: nat)
    requires k <= |c| && |w| == |c| + 1 && Leads(w[..k + 1], c[..k], n) && Leads(w[k..], c[k..], n)
    ensures Leads(w, c, n)
  {
    forall i | 0 <= i < |c| ensures StepsTo(w[i], c[i], w[i + 1], Wrap, "", true, n) {
      if i < k {
        assert StepsTo(w[..k + 1][i], c[..k][i], w[..k + 1][i + 1], Wrap, "", true, n);
      } else {
        assert StepsTo(w[k..][i - k], c[k..][i - k], w[k..][i - k + 1], Wrap, "", true, n);
      }
    }
  }

  /** A sequence of silent successes ends where its last command leaves the window. */
  lemma {:induction false} RunAll(ws: seq<Window>, cmds: seq<seq<string>>, n: nat)
    requires Leads(ws, cmds, n) && Short(cmds, n)
    ensures RunCommands(ws[0], cmds, Wrap, "", true, n) == Result(ws[|cmds|], Done, "")
  {
    if cmds != [] {
      RunFirst(ws[0], cmds, ws[1], Wrap, "", true, n);
      forall i | 0 <= i < |cmds| - 1
        ensures StepsTo(ws[1..][i], cmds[1..][i], ws[1..][i + 1], Wrap, "", true, n)
      {
        assert StepsTo(ws[i + 1], cmds[i + 1], ws[i + 2], Wrap, "", true, n);
      }
      RunAll(ws[1..], cmds[1..], n);
    }
  }

  lemma ScriptIsShort(cmds: seq<seq<string>>)
    requires cmds != []
    ensures Read(Script(cmds)) == Some(cmds) && Short(cmds, |Script(cmds)|)
  {
    ScriptReadRoundTrip(cmds);
    ReadShorter(Script(cmds));
  }

  /** The commands, none of which fails, take `w` to `v`. */
  ghost predicate LeadsTo(w: Window, cmds: seq<seq<string>>, v: Window) {
    exists ws :: Leads(ws, cmds, |Script(cmds)|) && ws[0] == w && ws[|cmds|] == v
  }

  lemma RunScript(w: Window, cmds: seq<seq<string>>, v: Window)
    requires cmds != [] && LeadsTo(w, cmds, v)
    ensures RunText(w, Script(cmds), Wrap, "", true) == Result(v, Done, "")
  {
    var ws :| Leads(ws, cmds, |Script(cmds)|) && ws[0] == w && ws[|cmds|] == v;
    ScriptIsShort(cmds);
    RunAll(ws, cmds, |Script(cmds)|);
  }

  function Claimed(w: Window): Window {
    w.(size := Some(Setting("manual", Wrap)), owner := if Armed(w, AfterSetOption) then "" else w.owner)
  }

  lemma ClaimRuns(w: Window, n: nat)
    requires TameHooks(w) && w.size.None?
    ensures StepsTo(w, Claim(w.id), Claimed(w), Wrap, "", true, n)
  {
    ReadSetters(w.id, "", "", "", "");
    FireTame(w.(size := Some(Setting("manual", Wrap))), AfterSetOption, "window-size");
  }

  lemma MarkRuns(w: Window, owner: string, n: nat)
    requires TameHooks(w)
    ensures StepsTo(w, Mark(w.id, owner), w.(owner := owner), Wrap, "", true, n)
  {
    ReadSetters(w.id, owner, "", "", "");
    assert |OwnerOption| != |"window-size"|;
    FireTame(w.(owner := owner), AfterSetOption, OwnerOption);
  }

  function Resized(w: Window, columns: string, rows: string): Window {
    w.(columns := columns, rows := rows, size := Some(Setting("manual", Wrap)),
       owner := if Armed(w, AfterResizeWindow) then "" else w.owner)
  }

  lemma ResizeRuns(w: Window, columns: string, rows: string, n: nat)
    requires TameHooks(w)
    ensures StepsTo(w, Resizing(w.id, columns, rows), Resized(w, columns, rows), Wrap, "", true, n)
  {
    ReadSetters(w.id, "", columns, rows, "");
    FireTame(w.(columns := columns, rows := rows, size := Some(Setting("manual", Wrap))), AfterResizeWindow, "");
  }

  function Watched(w: Window, key: HookKey): Window {
    w.(hooks := w.hooks[key := Hook(HookCommand(w.id, key.event), Wrap)])
  }

  /** The windows a claim passes through. */
  function PinTrace(w: Window, owner: string, index: string, columns: string, rows: string): seq<Window> {
    var w1 := Claimed(w);
    var w2 := w1.(owner := owner);
    var w3 := Resized(w2, columns, rows);
    var w4 := Watched(w3, Keys(index)[0]);
    [w, w1, w2, w3, w4, Watched(w4, Keys(index)[1])]
  }

  lemma PinTraceEnds(w: Window, owner: string, index: string, columns: string, rows: string)
    ensures PinTrace(w, owner, index, columns, rows)[5] == PinEffect(w, owner, index, columns, rows)
  {
  }

  lemma SetHookRuns(w: Window, name: string, key: HookKey, text: string, n: nat)
    requires ReadHookName(name) == Some(key)
    ensures StepsTo(w, ["set-hook", "-w", "-t", w.id, name, text], w.(hooks := w.hooks[key := Hook(text, Wrap)]), Wrap, "", true, n)
  {
    ReadSetHook(w.id, name, key, text);
  }

  lemma WatchRuns(w: Window, key: HookKey, n: nat)
    ensures StepsTo(w, Watch(w.id, key), Watched(w, key), Wrap, "", true, n)
  {
    ReadHook(key);
    SetHookRuns(w, HookName(key), key, HookCommand(w.id, key.event), n);
  }

  lemma Claims(w: Window, owner: string, n: nat)
    requires TameHooks(w) && w.size.None?
    ensures Leads([w, Claimed(w), Claimed(w).(owner := owner)], [Claim(w.id), Mark(w.id, owner)], n)
  {
    ClaimRuns(w, n);
    MarkRuns(Claimed(w), owner, n);
    TwoSteps(w, Claimed(w), Claimed(w).(owner := owner), Claim(w.id), Mark(w.id, owner), n);
  }

  lemma Watches(w: Window, k0: HookKey, k1: HookKey, n: nat)
    ensures Leads([w, Watched(w, k0), Watched(Watched(w, k0), k1)], [Watch(w.id, k0), Watch(w.id, k1)], n)
  {
    WatchRuns(w, k0, n);
    WatchRuns(Watched(w, k0), k1, n);
    TwoSteps(w, Watched(w, k0), Watched(Watched(w, k0), k1), Watch(w.id, k0), Watch(w.id, k1), n);
  }

  lemma AroundTheResize(w: Window, w1: Window, w2: Window, w3: Window, w4: Window, w5: Window,
                        c0: seq<string>, c1: seq<string>, c2: seq<string>, c3: seq<string>, c4: seq<string>, n: nat)
    requires Leads([w, w1, w2], [c0, c1], n) && StepsTo(w2, c2, w3, Wrap, "", true, n) && Leads([w3, w4, w5], [c3, c4], n)
    ensures Leads([w, w1, w2, w3, w4, w5], [c0, c1, c2, c3, c4], n)
  {
    var (ws, cmds) := ([w, w1, w2, w3, w4, w5], [c0, c1, c2, c3, c4]);
    assert ws[3..] == [w3, w4, w5] && cmds[3..] == [c3, c4];
    OneMore(w2, c2, ws[3..], cmds[3..], n);
    assert ws[2..] == [w2] + ws[3..] && cmds[2..] == [c2] + cmds[3..];
    assert ws[..3] == [w, w1, w2] && cmds[..2] == [c0, c1];
    Joined(ws, cmds, 2, n);
  }

  lemma PinSteps(w: Window, owner: string, index: string, columns: string, rows: string, n: nat)
    requires TameHooks(w) && w.size.None?
    ensures Leads(PinTrace(w, owner, index, columns, rows), PinScript(w.id, owner, index, columns, rows), n)
  {
    Claims(w, owner, n);
    var w2 := Claimed(w).(owner := owner);
    var w3 := Resized(w2, columns, rows);
    ResizeRuns(w2, columns, rows, n);
    var (k0, k1) := (Keys(index)[0], Keys(index)[1]);
    Watches(w3, k0, k1, n);
    AroundTheResize(w, Claimed(w), w2, w3, Watched(w3, k0), Watched(Watched(w3, k0), k1),
                    Claim(w.id), Mark(w.id, owner), Resizing(w.id, columns, rows), Watch(w.id, k0), Watch(w.id, k1), n);
  }

  lemma PinLeads(w: Window, owner: string, index: string, columns: string, rows: string)
    requires TameHooks(w) && w.size.None?
    ensures LeadsTo(w, PinScript(w.id, owner, index, columns, rows), PinEffect(w, owner, index, columns, rows))
  {
    PinSteps(w, owner, index, columns, rows, |Script(PinScript(w.id, owner, index, columns, rows))|);
    PinTraceEnds(w, owner, index, columns, rows);
  }

  /** The printed pin script, run on a window without a local size, has exactly PinEffect. */
  lemma PinScriptRuns(w: Window, owner: string, index: string, columns: string, rows: string)
    requires TameHooks(w) && w.size.None?
    ensures RunText(w, Script(PinScript(w.id, owner, index, columns, rows)), Wrap, "", true) ==
            Result(PinEffect(w, owner, index, columns, rows), Done, "")
  {
    PinLeads(w, owner, index, columns, rows);
    RunScript(w, PinScript(w.id, owner, index, columns, rows), PinEffect(w, owner, index, columns, rows));
  }

  /** On a window the host has sized, the claim is refused before anything is touched. */
  lemma PinScriptConflicts(w: Window, owner: string, index: string, columns: string, rows: string)
    requires w.size.Some?
    ensures RunText(w, Script(PinScript(w.id, owner, index, columns, rows)), Wrap, "", true) == Result(w, AlreadySet, "")
  {
    var cmds := PinScript(w.id, owner, index, columns, rows);
    ScriptReadRoundTrip(cmds);
    ReadShorter(Script(cmds));
    ReadSetters(w.id, owner, columns, rows, "");
    RunStops(w, cmds, Wrap, "", true, |Script(cmds)|);
  }

  lemma UnwatchRuns(w: Window, key: HookKey, n: nat)
    ensures StepsTo(w, Unwatch(w.id, key), w.(hooks := w.hooks - {key}), Wrap, "", true, n)
  {
    ReadHook(key);
    ReadSetHook(w.id, HookName(key), key, "");
  }

  function Unsized(w: Window): Window {
    w.(size := None, owner := if Armed(w, AfterSetOption) then "" else w.owner)
  }

  lemma ChoiceRuns(w: Window, words: seq<string>, g: Guard, yes: string, no: string, done: Window, n: nat)
    requires ReadCommand(words) == IfShell(PrintGuard(g), yes, no) && ReadableNames(g) && |yes| < n && |no| < n
    requires RunText(w, yes, Wrap, "", true) == Result(done, Done, "") && RunText(w, no, Wrap, "", true) == Result(w, Done, "")
    ensures StepsTo(w, words, if Holds(g, EnvOf(w, "")) then done else w, Wrap, "", true, n)
  {
    GuardMeansWhatItSays(g, EnvOf(w, ""));
  }

  lemma UnsetRuns(w: Window, option: string)
    requires TameHooks(w) && (option == "window-size" || option == OwnerOption)
    ensures RunText(w, Print(Unset(w.id, option)), Wrap, "", true) ==
            Result(if option == OwnerOption then w.(owner := "") else Unsized(w), Done, "")
  {
    RunUnset(w, option, Wrap, "", true);
    FireTame(Unassign(w, option), AfterSetOption, option);
    assert |OwnerOption| != |"window-size"|;
  }

  lemma GuardedRuns(w: Window, g: Guard, option: string, n: nat)
    requires TameHooks(w) && ReadableNames(g) && (option == "window-size" || option == OwnerOption)
    requires |Print(Unset(w.id, option))| < n && |Print(NoOp())| < n
    ensures StepsTo(w, Guarded(w.id, g, option),
                    if !Holds(g, EnvOf(w, "")) then w else if option == OwnerOption then w.(owner := "") else Unsized(w),
                    Wrap, "", true, n)
  {
    var (yes, no) := (Print(Unset(w.id, option)), Print(NoOp()));
    ReadIfShell(w.id, PrintGuard(g), yes, no);
    UnsetRuns(w, option);
    RunNoOp(w, Wrap, "", true);
    ChoiceRuns(w, Guarded(w.id, g, option), g, yes, no, if option == OwnerOption then w.(owner := "") else Unsized(w), n);
  }

  lemma OwnedHolds(w: Window, owner: string)
    ensures ReadableNames(OwnedGuard(owner)) && ReadableNames(Is(OwnerOption, owner))
    ensures Holds(OwnedGuard(owner), EnvOf(w, "")) == (Mode(w) == "manual" && w.owner == owner)
    ensures Holds(Is(OwnerOption, owner), EnvOf(w, "")) == (w.owner == owner)
  {
    NamesAreReadable();
    EnvLookups(w, "");
    var (a, b) := (Is("window-size", "manual"), Is(OwnerOption, owner));
    assert Holds(a, EnvOf(w, "")) == (Mode(w) == "manual") && Holds(b, EnvOf(w, "")) == (w.owner == owner);
    assert OwnedGuard(owner) == Both(a, b);
  }

  function Unwatched(w: Window, key: HookKey): Window {
    w.(hooks := w.hooks - {key})
  }

  function SizeDropped(w: Window, owner: string): Window {
    if w.owner == owner && Mode(w) == "manual" then Unsized(w) else w
  }

  function MarkDropped(w: Window, owner: string): Window {
    if w.owner == owner then w.(owner := "") else w
  }

  lemma Unwatches(w: Window, k0: HookKey, k1: HookKey, n: nat)
    ensures Leads([w, Unwatched(w, k0), Unwatched(Unwatched(w, k0), k1)], [Unwatch(w.id, k0), Unwatch(w.id, k1)], n)
  {
    UnwatchRuns(w, k0, n);
    UnwatchRuns(Unwatched(w, k0), k1, n);
    TwoSteps(w, Unwatched(w, k0), Unwatched(Unwatched(w, k0), k1), Unwatch(w.id, k0), Unwatch(w.id, k1), n);
  }

  lemma Drops(w: Window, owner: string, n: nat)
    requires TameHooks(w)
    requires |Print(Unset(w.id, "window-size"))| < n && |Print(Unset(w.id, OwnerOption))| < n && |Print(NoOp())| < n
    ensures Leads([w, SizeDropped(w, owner), MarkDropped(SizeDropped(w, owner), owner)],
                  [Guarded(w.id, OwnedGuard(owner), "window-size"), Guarded(w.id, Is(OwnerOption, owner), OwnerOption)], n)
  {
    var v := SizeDropped(w, owner);
    OwnedHolds(w, owner);
    OwnedHolds(v, owner);
    assert |OwnerOption| != |"window-size"|;
    GuardedRuns(w, OwnedGuard(owner), "window-size", n);
    GuardedRuns(v, Is(OwnerOption, owner), OwnerOption, n);
    TwoSteps(w, v, MarkDropped(v, owner),
             Guarded(w.id, OwnedGuard(owner), "window-size"), Guarded(w.id, Is(OwnerOption, owner), OwnerOption), n);
  }

  lemma ShortBranches(c0: seq<string>, c1: seq<string>, win: string, p: string, q: string, unset: string, clear: string, no: string, n: nat)
    requires Short([c0, c1, ["if-shell", "-F", "-t", win, p, unset, no], ["if-shell", "-F", "-t", win, q, clear, no]], n)
    ensures |unset| < n && |clear| < n && |no| < n
  {
    var (c, d) := (["if-shell", "-F", "-t", win, p, unset, no], ["if-shell", "-F", "-t", win, q, clear, no]);
    assert c[5] in c && c[6] in c && d[5] in d;
    assert [c0, c1, c, d][2] in [c0, c1, c, d] && [c0, c1, c, d][3] in [c0, c1, c, d];
  }

  lemma RestoreIsShort(win: string, owner: string, index: string, n: nat)
    requires Short(RestoreScript(win, owner, index), n)
    ensures |Print(Unset(win, "window-size"))| < n && |Print(Unset(win, OwnerOption))| < n && |Print(NoOp())| < n
  {
    ShortBranches(Unwatch(win, Keys(index)[0]), Unwatch(win, Keys(index)[1]), win,
                  PrintGuard(OwnedGuard(owner)), PrintGuard(Is(OwnerOption, owner)),
                  Print(Unset(win, "window-size")), Print(Unset(win, OwnerOption)), Print(NoOp()), n);
  }

  lemma TwoAndTwo(w: Window, w1: Window, w2: Window, w3: Window, w4: Window,
                  c0: seq<string>, c1: seq<string>, c2: seq<string>, c3: seq<string>, n: nat)
    requires Leads([w, w1, w2], [c0, c1], n) && Leads([w2, w3, w4], [c2, c3], n)
    ensures Leads([w, w1, w2, w3, w4], [c0, c1, c2, c3], n)
  {
    var (ws, cmds) := ([w, w1, w2, w3, w4], [c0, c1, c2, c3]);
    assert ws[..3] == [w, w1, w2] && cmds[..2] == [c0, c1];
    assert ws[2..] == [w2, w3, w4] && cmds[2..] == [c2, c3];
    Joined(ws, cmds, 2, n);
  }

  /** The windows a restore passes through. */
  function RestoreTrace(w: Window, owner: string, index: string): seq<Window> {
    var w1 := Unwatched(w, Keys(index)[0]);
    var w2 := Unwatched(w1, Keys(index)[1]);
    var w3 := SizeDropped(w2, owner);
    [w, w1, w2, w3, MarkDropped(w3, owner)]
  }

  lemma RestoreTraceEnds(w: Window, owner: string, index: string)
    ensures RestoreTrace(w, owner, index)[4] == RestoreEffect(w, owner, index)
  {
  }

  lemma RestoreSteps(w: Window, owner: string, index: string, n: nat)
    requires TameHooks(w) && Short(RestoreScript(w.id, owner, index), n)
    ensures Leads(RestoreTrace(w, owner, index), RestoreScript(w.id, owner, index), n)
  {
    RestoreIsShort(w.id, owner, index, n);
    var (k0, k1) := (Keys(index)[0], Keys(index)[1]);
    var w2 := Unwatched(Unwatched(w, k0), k1);
    Unwatches(w, k0, k1, n);
    Drops(w2, owner, n);
    TwoAndTwo(w, Unwatched(w, k0), w2, SizeDropped(w2, owner), MarkDropped(SizeDropped(w2, owner), owner),
              Unwatch(w.id, k0), Unwatch(w.id, k1), Guarded(w.id, OwnedGuard(owner), "window-size"),
              Guarded(w.id, Is(OwnerOption, owner), OwnerOption), n);
  }

  lemma RestoreLeads(w: Window, owner: string, index: string)
    requires TameHooks(w)
    ensures LeadsTo(w, RestoreScript(w.id, owner, index), RestoreEffect(w, owner, index))
  {
    var cmds := RestoreScript(w.id, owner, index);
    ScriptIsShort(cmds);
    RestoreSteps(w, owner, index, |Script(cmds)|);
    RestoreTraceEnds(w, owner, index);
    assert Leads(RestoreTrace(w, owner, index), cmds, |Script(cmds)|);
  }

  /** The printed restore script has exactly RestoreEffect. */
  lemma RestoreScriptRuns(w: Window, owner: string, index: string)
    requires TameHooks(w)
    ensures RunText(w, Script(RestoreScript(w.id, owner, index)), Wrap, "", true) ==
            Result(RestoreEffect(w, owner, index), Done, "")
  {
    RestoreLeads(w, owner, index);
    RunScript(w, RestoreScript(w.id, owner, index), RestoreEffect(w, owner, index));
  }
}
