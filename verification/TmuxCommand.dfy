/**
 Printing argument lists as tmux command strings (tmuxCommand in internal/tmux/tmux.go), and a
 reference reader for them.

 The reader knows bare words, single quotes, backslash escapes, blanks and semicolons, and refuses
 whatever tmux could read in another way outside quotes: other punctuation, a tilde at the start of
 a word, a dollar sign that is not followed by a digit. A string it accepts has one reading.
 */
module TmuxCommand {
  import opened Options

  // ----- character classes -----

  predicate IsDigit(c: char) {
    '0' <= c <= '9'
  }

  /** The characters a bare argument may hold anywhere; a tilde is allowed after the first position. */
  predicate IsBareChar(c: char) {
    'a' <= c <= 'z' || 'A' <= c <= 'Z' || IsDigit(c) || c in "@_-./\U{00B7}"
  }

  predicate IsBare(arg: string) {
    arg != "" && forall i :: 0 <= i < |arg| ==> IsBareChar(arg[i]) || (arg[i] == '~' && i > 0)
  }

  predicate IsSessionID(arg: string) {
    |arg| >= 2 && arg[0] == '$' && forall i :: 1 <= i < |arg| ==> IsDigit(arg[i])
  }

  // ----- the printer -----

  function EscapeQuotes(arg: string): string {
    if arg == "" then ""
    else (if arg[0] == '\'' then "'\\''" else [arg[0]]) + EscapeQuotes(arg[1..])
  }

  function Quote(arg: string): string {
    if IsSessionID(arg) || IsBare(arg) then arg else "'" + EscapeQuotes(arg) + "'"
  }

  function Join(parts: seq<string>, separator: string): string {
    if parts == [] then "" else if |parts| == 1 then parts[0] else parts[0] + separator + Join(parts[1..], separator)
  }

  function Quoted(args: seq<string>): (r: seq<string>)
    ensures |r| == |args| && forall i :: 0 <= i < |r| ==> r[i] == Quote(args[i])
  {
    if args == [] then [] else [Quote(args[0])] + Quoted(args[1..])
  }

  function Print(args: seq<string>): string {
    Join(Quoted(args), " ")
  }

  function Printed(cmds: seq<seq<string>>): (r: seq<string>)
    ensures |r| == |cmds| && forall i :: 0 <= i < |r| ==> r[i] == Print(cmds[i])
  {
    if cmds == [] then [] else [Print(cmds[0])] + Printed(cmds[1..])
  }

  /** Commands put one after another in a single command string. */
  function Script(cmds: seq<seq<string>>): string {
    Join(Printed(cmds), " ; ")
  }

  /** Exactly tmux's session IDs and non-empty words of letters, digits, and `@ _ - . / ·`, or `~` inside, are printed as they are. */
  lemma UnquotedExactly(arg: string)
    ensures Quote(arg) == arg <==>
            (|arg| >= 2 && arg[0] == '$' && forall i :: 1 <= i < |arg| ==> '0' <= arg[i] <= '9') ||
            (arg != "" && forall i :: 0 <= i < |arg| ==>
               || 'a' <= arg[i] <= 'z' || 'A' <= arg[i] <= 'Z' || '0' <= arg[i] <= '9' || arg[i] in "@_-./\U{00B7}"
               || (arg[i] == '~' && i > 0))
  {
    if !IsSessionID(arg) && !IsBare(arg) {
      QuotesGrow(arg);
    }
  }

  lemma {:induction false} QuotesGrow(s: string)
    ensures |EscapeQuotes(s)| >= |s|
  {
    if s != "" {
      QuotesGrow(s[1..]);
    }
  }

  method IsBareTmuxCommandArg(arg: string) returns (bare: bool)
    ensures bare == IsBare(arg)
  {
    if arg == "" {
      return false;
    }
    for i := 0 to |arg|
      invariant forall j :: 0 <= j < i ==> IsBareChar(arg[j]) || (arg[j] == '~' && j > 0)
    {
      if IsBareChar(arg[i]) || (arg[i] == '~' && i > 0) {
        continue;
      }
      return false;
    }
    bare := true;
  }

  method TmuxCommand(args: seq<string>) returns (command: string)
    ensures command == Print(args)
  {
    var quoted := [];
    for i := 0 to |args|
      invariant |quoted| == i && forall j :: 0 <= j < i ==> quoted[j] == Quote(args[j])
    {
      var bare := IsBareTmuxCommandArg(args[i]);
      if IsSessionID(args[i]) || bare {
        quoted := quoted + [args[i]];
      } else {
        quoted := quoted + ["'" + EscapeQuotes(args[i]) + "'"];
      }
    }
    assert quoted == Quoted(args);
    command := Join(quoted, " ");
  }

  // ----- the reader -----

  /** `word` is the word being read, if one has begun; `words` the command so far; `done` the finished commands. */
  datatype Reading = Reading(word: Option<string>, words: seq<string>, done: seq<seq<string>>)

  const Fresh := Reading(None, [], [])

  function EndWord(r: Reading): Reading {
    if r.word.None? then r else Reading(None, r.words + [r.word.value], r.done)
  }

  function EndCommand(r: Reading): Reading {
    Reading(None, [], r.done + [EndWord(r).words])
  }

  function Extend(r: Reading, c: char): Reading {
    r.(word := Some((if r.word.Some? then r.word.value else "") + [c]))
  }

  function ReadFrom(s: string, r: Reading): Option<Reading> {
    if s == "" then Some(r)
    else if s[0] == ' ' then ReadFrom(s[1..], EndWord(r))
    else if s[0] == ';' then ReadFrom(s[1..], EndCommand(r))
    else if s[0] == '\'' then ReadQuoted(s[1..], r.(word := Some(if r.word.Some? then r.word.value else "")))
    else if s[0] == '\\' then
      if |s| < 2 || IsBareChar(s[1]) then None else ReadFrom(s[2..], Extend(r, s[1]))
    else if IsBareChar(s[0]) || (s[0] == '~' && r.word.Some?) || (s[0] == '$' && |s| > 1 && IsDigit(s[1]))
    then ReadFrom(s[1..], Extend(r, s[0]))
    else None
  }

  function ReadQuoted(s: string, r: Reading): Option<Reading> {
    if s == "" then None
    else if s[0] == '\'' then ReadFrom(s[1..], r)
    else ReadQuoted(s[1..], Extend(r, s[0]))
  }

  /** The commands a string denotes. */
  function Read(s: string): Option<seq<seq<string>>> {
    var r := ReadFrom(s, Fresh);
    if r.None? then None else Some(EndCommand(r.value).done)
  }

  // ----- reading undoes printing -----

  lemma {:induction false} ReadEscaped(arg: string, rest: string, r: Reading)
    requires r.word.Some?
    ensures ReadQuoted(EscapeQuotes(arg) + "'" + rest, r) == ReadFrom(rest, r.(word := Some(r.word.value + arg)))
  {
    if arg == "" {
      assert EscapeQuotes(arg) + "'" + rest == "'" + rest;
      assert r.word.value + arg == r.word.value;
    } else {
      var more := EscapeQuotes(arg[1..]) + "'" + rest;
      var next := Extend(r, arg[0]);
      if arg[0] == '\'' {
        assert EscapeQuotes(arg) + "'" + rest == "'\\''" + more;
        assert ("'\\''" + more)[1..] == "\\''" + more;
        assert ("\\''" + more)[2..] == "'" + more;
        assert ("'" + more)[1..] == more;
        assert ReadQuoted("'\\''" + more, r) == ReadFrom("\\''" + more, r);
        assert ReadFrom("\\''" + more, r) == ReadFrom("'" + more, next);
      } else {
        assert EscapeQuotes(arg) + "'" + rest == [arg[0]] + more;
        assert ([arg[0]] + more)[1..] == more;
      }
      ReadEscaped(arg[1..], rest, next);
      assert r.word.value + [arg[0]] + arg[1..] == r.word.value + arg;
    }
  }

  lemma {:induction false} ReadBare(arg: string, rest: string, r: Reading)
    requires r.word.Some? && forall i :: 0 <= i < |arg| ==> IsBareChar(arg[i]) || arg[i] == '~'
    ensures ReadFrom(arg + rest, r) == ReadFrom(rest, r.(word := Some(r.word.value + arg)))
  {
    if arg == "" {
      assert arg + rest == rest;
      assert r.word.value + arg == r.word.value;
    } else {
      assert (arg + rest)[0] == arg[0] && (arg + rest)[1..] == arg[1..] + rest;
      ReadBare(arg[1..], rest, Extend(r, arg[0]));
      assert r.word.value + [arg[0]] + arg[1..] == r.word.value + arg;
    }
  }

  lemma ReadStart(c: char, tail: string, r: Reading)
    requires IsBareChar(c) || (c == '$' && tail != "" && IsDigit(tail[0]))
    ensures ReadFrom([c] + tail, r) == ReadFrom(tail, Extend(r, c))
  {
    assert ([c] + tail)[1..] == tail;
  }

  lemma Regroup<T>(a: seq<T>, b: seq<T>, c: seq<T>)
    ensures a + b + c == a + (b + c)
  {
  }

  lemma ReadBareArg(arg: string, rest: string, r: Reading)
    requires r.word.None? && (IsSessionID(arg) || IsBare(arg))
    ensures ReadFrom(arg + rest, r) == ReadFrom(rest, r.(word := Some(arg)))
  {
    var (first, tail) := (arg[..1], arg[1..]);
    assert arg == first + tail && first == [arg[0]];
    Regroup(first, tail, rest);
    assert IsSessionID(arg) ==> (tail + rest)[0] == arg[1];
    ReadStart(arg[0], tail + rest, r);
    var begun := r.(word := Some(first));
    assert "" + [arg[0]] == first && Extend(r, arg[0]) == begun;
    assert forall i :: 0 <= i < |tail| ==> tail[i] == arg[i + 1];
    ReadBare(tail, rest, begun);
  }

  lemma ReadQuotedArg(arg: string, rest: string, r: Reading)
    requires r.word.None?
    ensures ReadFrom("'" + EscapeQuotes(arg) + "'" + rest, r) == ReadFrom(rest, r.(word := Some(arg)))
  {
    var tail := EscapeQuotes(arg) + "'" + rest;
    assert "'" + EscapeQuotes(arg) + "'" + rest == "'" + tail && ("'" + tail)[1..] == tail;
    ReadEscaped(arg, rest, r.(word := Some("")));
    assert "" + arg == arg;
  }

  lemma ReadArg(arg: string, rest: string, r: Reading)
    requires r.word.None?
    ensures ReadFrom(Quote(arg) + rest, r) == ReadFrom(rest, r.(word := Some(arg)))
  {
    if IsSessionID(arg) || IsBare(arg) {
      ReadBareArg(arg, rest, r);
    } else {
      ReadQuotedArg(arg, rest, r);
    }
  }

  lemma ReadBlank(rest: string, r: Reading)
    ensures ReadFrom(" " + rest, r) == ReadFrom(rest, EndWord(r))
  {
    assert (" " + rest)[1..] == rest;
  }

  lemma ReadSeparator(rest: string, r: Reading)
    ensures ReadFrom(" ; " + rest, r) == ReadFrom(rest, EndCommand(r))
  {
    assert " ; " + rest == " " + ("; " + rest);
    ReadBlank("; " + rest, r);
    assert ("; " + rest)[1..] == " " + rest;
    assert EndCommand(EndWord(r)) == EndCommand(r);
    ReadBlank(rest, EndCommand(r));
  }

  /** Where the reader stands after the arguments of one command, just before whatever ends it. */
  function After(args: seq<string>, r: Reading): Reading {
    if args == [] then r else Reading(Some(args[|args| - 1]), r.words + args[..|args| - 1], r.done)
  }

  lemma AfterFirst(args: seq<string>, r: Reading)
    requires |args| > 1
    ensures After(args, r) == After(args[1..], Reading(None, r.words + [args[0]], r.done))
  {
    assert r.words + [args[0]] + args[1..][..|args| - 2] == r.words + args[..|args| - 1];
  }

  lemma PrintFirst(args: seq<string>)
    requires |args| > 1
    ensures Print(args) == Quote(args[0]) + (" " + Print(args[1..]))
  {
    assert Quoted(args)[1..] == Quoted(args[1..]);
  }

  lemma ReadArgAndBlank(arg: string, rest: string, r: Reading)
    requires r.word.None?
    ensures ReadFrom(Quote(arg) + (" " + rest), r) == ReadFrom(rest, Reading(None, r.words + [arg], r.done))
  {
    ReadArg(arg, " " + rest, r);
    ReadBlank(rest, r.(word := Some(arg)));
  }

  /** Reading a printed command adds its arguments to the command being read. */
  lemma {:induction false} ReadPrinted(args: seq<string>, rest: string, r: Reading)
    requires r.word.None?
    ensures ReadFrom(Print(args) + rest, r) == ReadFrom(rest, After(args, r))
  {
    if args == [] {
      assert Print(args) + rest == rest;
    } else if |args| == 1 {
      ReadArg(args[0], rest, r);
      assert r.words + args[..0] == r.words;
    } else {
      PrintFirst(args);
      var tail := Print(args[1..]) + rest;
      Regroup(Quote(args[0]), " " + Print(args[1..]), rest);
      Regroup(" ", Print(args[1..]), rest);
      ReadArgAndBlank(args[0], tail, r);
      ReadPrinted(args[1..], rest, Reading(None, r.words + [args[0]], r.done));
      AfterFirst(args, r);
    }
  }

  lemma EndAfter(args: seq<string>, done: seq<seq<string>>)
    ensures EndCommand(After(args, Reading(None, [], done))) == Reading(None, [], done + [args])
  {
    if args != [] {
      assert [] + args[..|args| - 1] + [args[|args| - 1]] == args;
    }
  }

  /** One command and its separator. */
  lemma ReadCommandAndSeparator(args: seq<string>, rest: string, done: seq<seq<string>>)
    ensures ReadFrom(Print(args) + (" ; " + rest), Reading(None, [], done)) == ReadFrom(rest, Reading(None, [], done + [args]))
  {
    var r := Reading(None, [], done);
    ReadPrinted(args, " ; " + rest, r);
    ReadSeparator(rest, After(args, r));
    EndAfter(args, done);
  }

  lemma ReadLastCommand(args: seq<string>, done: seq<seq<string>>)
    ensures ReadFrom(Print(args), Reading(None, [], done)) == Some(After(args, Reading(None, [], done)))
  {
    assert Print(args) + "" == Print(args);
    ReadPrinted(args, "", Reading(None, [], done));
  }

  lemma {:induction false} ReadScript(cmds: seq<seq<string>>, done: seq<seq<string>>)
    requires cmds != []
    ensures ReadFrom(Script(cmds), Reading(None, [], done)).Some?
    ensures EndCommand(ReadFrom(Script(cmds), Reading(None, [], done)).value).done == done + cmds
  {
    if |cmds| == 1 {
      ScriptLast(cmds);
      ReadLastCommand(cmds[0], done);
      EndAfter(cmds[0], done);
    } else {
      ScriptFirst(cmds);
      ReadCommandAndSeparator(cmds[0], Script(cmds[1..]), done);
      ReadScript(cmds[1..], done + [cmds[0]]);
      Regroup(done, [cmds[0]], cmds[1..]);
      assert [cmds[0]] + cmds[1..] == cmds;
    }
  }

  lemma ScriptLast(cmds: seq<seq<string>>)
    requires |cmds| == 1
    ensures Script(cmds) == Print(cmds[0]) && [cmds[0]] == cmds
  {
  }

  lemma ScriptFirst(cmds: seq<seq<string>>)
    requires |cmds| > 1
    ensures Script(cmds) == Print(cmds[0]) + (" ; " + Script(cmds[1..]))
  {
    assert Printed(cmds)[1..] == Printed(cmds[1..]);
  }

  /** For every argument list, reading the printed command gives back that one command and nothing else. */
  lemma PrintReadRoundTrip(args: seq<string>)
    ensures Read(Print(args)) == Some([args])
  {
    assert Script([args]) == Print(args);
    ReadScript([args], []);
    assert [] + [args] == [args];
  }

  /** Commands joined with " ; " split back into the same commands. */
  lemma ScriptReadRoundTrip(cmds: seq<seq<string>>)
    requires cmds != []
    ensures Read(Script(cmds)) == Some(cmds)
  {
    ReadScript(cmds, []);
    assert [] + cmds == cmds;
  }

  /** Distinct argument lists print differently. */
  lemma PrintInjective(a: seq<string>, b: seq<string>)
    ensures Print(a) == Print(b) ==> a == b
  {
    PrintReadRoundTrip(a);
    PrintReadRoundTrip(b);
    assert [a][0] == a && [b][0] == b;
  }

  // ----- what is read is shorter than what it was read from -----

  /** Bounds on every word read so far, after `n` characters. */
  ghost predicate Within(r: Reading, n: nat) {
    && (forall w :: w in r.words ==> |w| < n)
    && (forall c, w :: c in r.done && w in c && |c| >= 2 ==> |w| < n)
    && (r.word.Some? ==> |r.word.value| <= n && (r.words != [] ==> |r.word.value| < n))
  }

  lemma EndWithin(r: Reading, n: nat)
    requires Within(r, n)
    ensures Within(EndWord(r), n + 1) && Within(EndCommand(r), n + 1)
    ensures forall w :: w in EndWord(r).words && |EndWord(r).words| >= 2 ==> |w| < n
  {
    var e := EndWord(r);
    forall w | w in e.words && |e.words| >= 2 ensures |w| < n {
      if r.word.Some? && w == r.word.value {
        assert r.words != [];
      }
    }
  }

  lemma {:induction false} ReadWithin(s: string, r: Reading, n: nat)
    requires Within(r, n)
    ensures ReadFrom(s, r).Some? ==> Within(ReadFrom(s, r).value, n + |s|)
    decreases |s|
  {
    if s != "" {
      EndWithin(r, n);
      var quoting := r.(word := Some(if r.word.Some? then r.word.value else ""));
      assert r.words != [] ==> |r.words[0]| < n;
      if s[0] == ' ' {
        ReadWithin(s[1..], EndWord(r), n + 1);
      } else if s[0] == ';' {
        ReadWithin(s[1..], EndCommand(r), n + 1);
      } else if s[0] == '\'' {
        QuotedWithin(s[1..], quoting, n + 1);
      } else if s[0] == '\\' {
        if |s| >= 2 {
          ReadWithin(s[2..], Extend(r, s[1]), n + 2);
        }
      } else {
        ReadWithin(s[1..], Extend(r, s[0]), n + 1);
      }
    }
  }

  lemma {:induction false} QuotedWithin(s: string, r: Reading, n: nat)
    requires Within(r, n)
    ensures ReadQuoted(s, r).Some? ==> Within(ReadQuoted(s, r).value, n + |s|)
    decreases |s|
  {
    if s != "" {
      assert r.words != [] ==> |r.words[0]| < n;
      if s[0] == '\'' {
        ReadWithin(s[1..], r, n + 1);
      } else {
        QuotedWithin(s[1..], Extend(r, s[0]), n + 1);
      }
    }
  }

  /** Every word of a command of two words or more is shorter than the whole string. */
  lemma ReadShorter(s: string)
    ensures Read(s).Some? ==> forall c, w :: c in Read(s).value && w in c && |c| >= 2 ==> |w| < |s|
  {
    ReadWithin(s, Fresh, 0);
    var r := ReadFrom(s, Fresh);
    if r.Some? {
      EndWithin(r.value, |s|);
    }
  }

  // ----- commands as arguments of commands -----

  /** An argument is a plain word or, as in if-shell and set-hook, a whole script of its own. */
  datatype Arg = Word(text: string) | Nested(script: seq<Command>)
  datatype Command = Command(args: seq<Arg>)

  function PrintArg(a: Arg): string
    decreases a
  {
    match a case Word(text) => text case Nested(script) => Script(Lines(script))
  }

  function Line(args: seq<Arg>): (r: seq<string>)
    ensures |r| == |args|
    decreases args
  {
    if args == [] then [] else [PrintArg(args[0])] + Line(args[1..])
  }

  function Lines(script: seq<Command>): (r: seq<seq<string>>)
    ensures |r| == |script|
    decreases script
  {
    if script == [] then [] else [Line(script[0].args)] + Lines(script[1..])
  }

  /** `text` reads back, at every depth, as the argument it is meant to be. */
  predicate Unwraps(text: string, a: Arg)
    decreases a
  {
    match a
    case Word(w) => text == w
    case Nested(script) => Read(text).Some? && ScriptUnwraps(Read(text).value, script)
  }

  predicate LineUnwraps(words: seq<string>, args: seq<Arg>)
    decreases args
  {
    |words| == |args| && (args != [] ==> Unwraps(words[0], args[0]) && LineUnwraps(words[1..], args[1..]))
  }

  predicate ScriptUnwraps(cmds: seq<seq<string>>, script: seq<Command>)
    decreases script
  {
    && |cmds| == |script|
    && (script != [] ==> LineUnwraps(cmds[0], script[0].args) && ScriptUnwraps(cmds[1..], script[1..]))
  }

  /** Every nested script holds at least one command. */
  predicate Proper(a: Arg)
    decreases a
  {
    a.Nested? ==> a.script != [] && ProperScript(a.script)
  }

  predicate ProperScript(script: seq<Command>)
    decreases script
  {
    script != [] ==> ProperLine(script[0].args) && ProperScript(script[1..])
  }

  predicate ProperLine(args: seq<Arg>)
    decreases args
  {
    args != [] ==> Proper(args[0]) && ProperLine(args[1..])
  }

  /** Nesting commands as arguments loses nothing, at any depth. */
  lemma {:induction false} NestedRoundTrip(a: Arg)
    requires Proper(a)
    ensures Unwraps(PrintArg(a), a)
    decreases a
  {
    match a
    case Word(text) =>
    case Nested(script) =>
      ScriptReadRoundTrip(Lines(script));
      LinesUnwrap(script);
  }

  lemma {:induction false} LineUnwrap(args: seq<Arg>)
    requires ProperLine(args)
    ensures LineUnwraps(Line(args), args)
    decreases args
  {
    if args != [] {
      NestedRoundTrip(args[0]);
      LineUnwrap(args[1..]);
      assert Line(args)[1..] == Line(args[1..]);
    }
  }

  lemma {:induction false} LinesUnwrap(script: seq<Command>)
    requires ProperScript(script)
    ensures ScriptUnwraps(Lines(script), script)
    decreases script
  {
    if script != [] {
      LineUnwrap(script[0].args);
      LinesUnwrap(script[1..]);
      assert Lines(script)[1..] == Lines(script[1..]);
    }
  }
}
