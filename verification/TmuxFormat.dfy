/**
 The format guards of internal/tmux/tmux.go and a reference reader for tmux formats.

 The reader follows tmux's own: a hash before `,`, `#` or `}` makes that character literal, `#{...}`
 runs to its matching brace, commas split operands only outside braces, `==` compares two expanded
 operands, `&&` joins two truths, and any other body names a variable. Its value is not read again.
 */
module TmuxFormat {
  import opened Options

  type Env = map<string, string>

  // ----- escaping -----

  function ReplaceAll(s: string, c: char, sub: string): string {
    if s == "" then "" else (if s[0] == c then sub else [s[0]]) + ReplaceAll(s[1..], c, sub)
  }

  function EscapeFormatLiteral(value: string): string {
    ReplaceAll(ReplaceAll(ReplaceAll(value, '#', "##"), ',', "#,"), '}', "#}")
  }

  predicate Special(c: char) {
    c == '#' || c == ',' || c == '}'
  }

  /** What the three replacements amount to, character by character. */
  function Escaped(value: string): string {
    if value == "" then "" else (if Special(value[0]) then ['#', value[0]] else [value[0]]) + Escaped(value[1..])
  }

  lemma {:induction false} ReplaceAppend(a: string, b: string, c: char, sub: string)
    ensures ReplaceAll(a + b, c, sub) == ReplaceAll(a, c, sub) + ReplaceAll(b, c, sub)
  {
    if a == "" {
      assert a + b == b;
    } else {
      assert (a + b)[1..] == a[1..] + b;
      ReplaceAppend(a[1..], b, c, sub);
    }
  }

  lemma ReplaceOne(x: char, c: char, sub: string)
    ensures ReplaceAll([x], c, sub) == if x == c then sub else [x]
  {
    assert [x][1..] == "";
  }

  lemma ReplaceTwo(x: char, y: char, c: char, sub: string)
    requires x != c
    ensures ReplaceAll([x, y], c, sub) == [x] + (if y == c then sub else [y])
  {
    assert [x, y] == [x] + [y];
    ReplaceAppend([x], [y], c, sub);
    ReplaceOne(x, c, sub);
    ReplaceOne(y, c, sub);
  }

  lemma {:induction false} EscapeIsCharwise(value: string)
    ensures EscapeFormatLiteral(value) == Escaped(value)
  {
    if value != "" {
      var (c, rest) := (value[0], value[1..]);
      var one := ReplaceAll([c], '#', "##");
      var two := ReplaceAll(one, ',', "#,");
      ReplaceOne(c, '#', "##");
      ReplaceOne(c, ',', "#,");
      ReplaceOne(c, '}', "#}");
      ReplaceTwo('#', '#', ',', "#,");
      ReplaceTwo('#', '#', '}', "#}");
      ReplaceTwo('#', ',', '}', "#}");
      assert value == [c] + rest;
      ReplaceAppend([c], rest, '#', "##");
      ReplaceAppend(one, ReplaceAll(rest, '#', "##"), ',', "#,");
      ReplaceAppend(two, ReplaceAll(ReplaceAll(rest, '#', "##"), ',', "#,"), '}', "#}");
      assert ReplaceAll(two, '}', "#}") == if Special(c) then ['#', c] else [c];
      EscapeIsCharwise(rest);
    }
  }

  /** Values the callers validate themselves, such as hexadecimal generations and window IDs, need no escaping. */
  lemma {:induction false} EscapeLeavesPlain(value: string)
    requires forall i :: 0 <= i < |value| ==> !Special(value[i])
    ensures EscapeFormatLiteral(value) == value
  {
    EscapeIsCharwise(value);
    if value != "" {
      EscapeLeavesPlain(value[1..]);
      EscapeIsCharwise(value[1..]);
    }
  }

  // ----- the reader -----

  /** The position of the first `stop` outside every brace opened from here, starting `depth` braces deep. */
  function Skip(s: string, stop: char, depth: int): (n: nat)
    ensures n <= |s|
  {
    if s == "" then 0
    else if s[0] == '#' && |s| > 1 && s[1] in ",#{}:" then
      2 + Skip(s[2..], stop, if s[1] == '{' then depth + 1 else depth)
    else
      var d := if s[0] == '}' then depth - 1 else depth;
      if s[0] == stop && d == 0 then 0 else 1 + Skip(s[1..], stop, d)
  }

  function Lookup(env: Env, name: string): string {
    if name in env then env[name] else ""
  }

  predicate Truthy(s: string) {
    s != "" && s != "0"
  }

  function Truth(b: bool): string {
    if b then "1" else "0"
  }

  predicate IsOperation(body: string) {
    |body| >= 3 && (body[..3] == "==:" || body[..3] == "&&:")
  }

  function Expand(s: string, env: Env): string
    decreases |s|, 0
  {
    if s == "" then ""
    else if s[0] == '#' && |s| > 1 && Special(s[1]) then [s[1]] + Expand(s[2..], env)
    else if s[0] == '#' && |s| > 1 && s[1] == '{' then
      var n := Skip(s[2..], '}', 1);
      if 2 + n == |s| then "" else ExpandBody(s[2..2 + n], env) + Expand(s[3 + n..], env)
    else [s[0]] + Expand(s[1..], env)
  }

  function ExpandBody(body: string, env: Env): string
    decreases |body|, 1
  {
    if IsOperation(body) then
      var operands := body[3..];
      var n := Skip(operands, ',', 0);
      if n == |operands| then ""
      else
        var (l, r) := (Expand(operands[..n], env), Expand(operands[n + 1..], env));
        Truth(if body[..3] == "==:" then l == r else Truthy(l) && Truthy(r))
    else Lookup(env, body)
  }

  // ----- guards -----

  datatype Guard = Is(name: string, value: string) | Both(a: Guard, b: Guard)

  function PrintGuard(g: Guard): string {
    match g
    case Is(name, value) => "#{==:#{" + name + "}," + EscapeFormatLiteral(value) + "}"
    case Both(a, b) => "#{&&:" + PrintGuard(a) + "," + PrintGuard(b) + "}"
  }

  /** The braces open after reading `name` inside `depth` of them; None if one too many closes, or a last hash swallows what follows. */
  function Net(name: string, depth: nat): Option<nat> {
    if name == "" then Some(depth)
    else if name == "#" then None
    else if name[0] == '#' && name[1] in ",#{}:" then Net(name[2..], if name[1] == '{' then depth + 1 else depth)
    else if name[0] == '}' then if depth == 0 then None else Net(name[1..], depth - 1)
    else Net(name[1..], depth)
  }

  /** A name that `#{...}` reads back whole: its braces balance and it does not start like an operation. */
  predicate Readable(name: string) {
    Net(name, 0) == Some(0) && !IsOperation(name)
  }

  /** The names Wrap prints hold no character that could end a name early, or start an operation. */
  predicate PlainName(name: string) {
    forall c :: c in name ==> c != '#' && c != '}' && c != ':'
  }

  lemma {:induction false} PlainNet(name: string, depth: nat)
    requires PlainName(name)
    ensures Net(name, depth) == Some(depth)
  {
    if name != "" {
      assert name[0] in name && forall c :: c in name[1..] ==> c in name;
      PlainNet(name[1..], depth);
    }
  }

  lemma PlainIsReadable(name: string)
    requires PlainName(name)
    ensures Readable(name)
  {
    PlainNet(name, 0);
    assert |name| >= 3 ==> name[..3][2] == name[2] && name[2] in name;
  }

  predicate ReadableNames(g: Guard) {
    match g case Is(name, _) => Readable(name) case Both(a, b) => ReadableNames(a) && ReadableNames(b)
  }

  predicate Holds(g: Guard, env: Env) {
    match g case Is(name, value) => Lookup(env, name) == value case Both(a, b) => Holds(a, env) && Holds(b, env)
  }

  // ----- nothing printed stops the reader early -----

  /** Reading past a character that neither opens, closes, escapes nor stops here. */
  lemma SkipOne(c: char, rest: string, stop: char, depth: int)
    requires c != '#' && c != '}' && (c != stop || depth != 0)
    ensures Skip([c] + rest, stop, depth) == 1 + Skip(rest, stop, depth)
  {
    assert ([c] + rest)[1..] == rest;
  }

  lemma SkipPair(c: char, rest: string, stop: char, depth: int)
    requires Special(c)
    ensures Skip(['#', c] + rest, stop, depth) == 2 + Skip(rest, stop, depth)
  {
    assert (['#', c] + rest)[2..] == rest;
  }

  lemma {:induction false} SkipEscaped(value: string, rest: string, stop: char, depth: int)
    requires stop == ',' || stop == '}'
    ensures Skip(Escaped(value) + rest, stop, depth) == |Escaped(value)| + Skip(rest, stop, depth)
  {
    if value == "" {
      assert Escaped(value) + rest == rest;
    } else {
      var more := Escaped(value[1..]) + rest;
      SkipEscaped(value[1..], rest, stop, depth);
      if Special(value[0]) {
        Regroup(['#', value[0]], Escaped(value[1..]), rest);
        SkipPair(value[0], more, stop, depth);
      } else {
        Regroup([value[0]], Escaped(value[1..]), rest);
        SkipOne(value[0], more, stop, depth);
      }
    }
  }

  lemma SkipHash(c: char, rest: string, stop: char, depth: int)
    requires stop == ',' || stop == '}'
    ensures c in ",#{}:" ==> Skip(['#', c] + rest, stop, depth) == 2 + Skip(rest, stop, if c == '{' then depth + 1 else depth)
    ensures c !in ",#{}:" ==> Skip(['#', c] + rest, stop, depth) == 1 + Skip([c] + rest, stop, depth)
  {
    assert (['#', c] + rest)[2..] == rest && (['#', c] + rest)[1..] == [c] + rest;
  }

  lemma Uncons(s: string, rest: string)
    requires s != ""
    ensures s + rest == [s[0]] + (s[1..] + rest)
    ensures |s| > 1 ==> s + rest == [s[0], s[1]] + (s[2..] + rest) && s[1..] + rest == [s[1]] + (s[2..] + rest)
  {
  }

  /** How far one step reads into a name, and the braces open after it. */
  function Stride(name: string): nat
    requires name != "" && name != "#"
  {
    if name[0] == '#' && name[1] in ",#{}:" then 2 else 1
  }

  function Depth(name: string, more: nat): int
    requires name != "" && name != "#"
  {
    if Stride(name) == 2 then if name[1] == '{' then more + 1 else more else if name[0] == '}' then more - 1 else more
  }

  lemma SkipStride(name: string, rest: string, stop: char, depth: nat, more: nat)
    requires name != "" && Net(name, more).Some? && (stop == ',' || stop == '}') && depth >= 1
    ensures Depth(name, more) >= 0 && Net(name[Stride(name)..], Depth(name, more)) == Net(name, more)
    ensures Skip(name + rest, stop, depth + more) ==
            Stride(name) + Skip(name[Stride(name)..] + rest, stop, depth + Depth(name, more))
  {
    Uncons(name, rest);
    if name[0] == '#' {
      SkipHash(name[1], name[2..] + rest, stop, depth + more);
    } else if name[0] == '}' {
      SkipClose(name[1..] + rest, stop, depth + more);
    } else {
      SkipOne(name[0], name[1..] + rest, stop, depth + more);
    }
  }

  /** Reading past a name inside at least one brace, as long as its own braces never close that one. */
  lemma {:induction false} SkipName(name: string, rest: string, stop: char, depth: nat, more: nat)
    requires Net(name, more).Some? && (stop == ',' || stop == '}') && depth >= 1
    ensures Skip(name + rest, stop, depth + more) == |name| + Skip(rest, stop, depth + Net(name, more).value)
    decreases |name|
  {
    if name == "" {
      assert name + rest == rest;
    } else {
      var tail := name[Stride(name)..];
      SkipStride(name, rest, stop, depth, more);
      assert |name| == Stride(name) + |tail|;
      SkipName(tail, rest, stop, depth, Depth(name, more));
    }
  }

  lemma SkipReadable(name: string, rest: string, stop: char, depth: nat)
    requires Readable(name) && (stop == ',' || stop == '}') && depth >= 1
    ensures Skip(name + rest, stop, depth) == |name| + Skip(rest, stop, depth)
  {
    SkipName(name, rest, stop, depth, 0);
  }

  /** Reading past an opening brace. */
  lemma SkipOpen(rest: string, stop: char, depth: int)
    ensures Skip("#{" + rest, stop, depth) == 2 + Skip(rest, stop, depth + 1)
  {
    assert ("#{" + rest)[2..] == rest;
  }

  lemma SkipClose(rest: string, stop: char, depth: int)
    requires depth > 1 || stop != '}'
    ensures Skip("}" + rest, stop, depth) == 1 + Skip(rest, stop, depth - 1)
  {
    assert ("}" + rest)[1..] == rest;
  }

  lemma SkipOperator(op: string, rest: string, stop: char, depth: int)
    requires op == "==:" || op == "&&:"
    requires stop == ',' || stop == '}'
    ensures Skip(op + rest, stop, depth) == 3 + Skip(rest, stop, depth)
  {
    assert op + rest == [op[0]] + ([op[1]] + ([op[2]] + rest));
    SkipOne(op[0], [op[1]] + ([op[2]] + rest), stop, depth);
    SkipOne(op[1], [op[2]] + rest, stop, depth);
    SkipOne(op[2], rest, stop, depth);
  }

  function Variable(name: string): string {
    "#{" + name + "}"
  }

  lemma VariableShape(name: string, rest: string)
    ensures Variable(name) + rest == "#{" + (name + ("}" + rest))
  {
  }

  lemma SkipVariable(name: string, rest: string, stop: char, depth: int)
    requires Readable(name) && (stop == ',' || (stop == '}' && depth >= 1)) && depth >= 0
    ensures Skip(Variable(name) + rest, stop, depth) == |Variable(name)| + Skip(rest, stop, depth)
  {
    VariableShape(name, rest);
    SkipOpen(name + ("}" + rest), stop, depth);
    SkipReadable(name, "}" + rest, stop, depth + 1);
    SkipClose(rest, stop, depth + 1);
  }

  /** The two operands of a printed guard, and its operator. */
  function Left(g: Guard): string {
    match g case Is(name, _) => Variable(name) case Both(a, _) => PrintGuard(a)
  }

  function Right(g: Guard): string {
    match g case Is(_, value) => Escaped(value) case Both(_, b) => PrintGuard(b)
  }

  function Operator(g: Guard): string {
    match g case Is(_, _) => "==:" case Both(_, _) => "&&:"
  }

  function Body(g: Guard): string {
    Operator(g) + (Left(g) + ("," + Right(g)))
  }

  lemma IsShape(name: string, value: string)
    ensures "#{==:#{" + name + "}," + value + "}" == "#{" + ("==:" + (Variable(name) + ("," + value)) + "}")
  {
  }

  lemma BothShape(a: string, b: string)
    ensures "#{&&:" + a + "," + b + "}" == "#{" + ("&&:" + (a + ("," + b)) + "}")
  {
  }

  lemma GuardShape(g: Guard)
    ensures PrintGuard(g) == "#{" + (Body(g) + "}")
  {
    match g
    case Is(name, value) =>
      EscapeIsCharwise(value);
      IsShape(name, Escaped(value));
    case Both(a, b) => BothShape(PrintGuard(a), PrintGuard(b));
  }

  lemma Regroup(a: string, b: string, c: string)
    ensures a + b + c == a + (b + c)
  {
  }

  lemma RegroupBody(op: string, l: string, r: string, rest: string)
    ensures op + (l + ("," + r)) + rest == op + (l + ("," + (r + rest)))
  {
  }

  lemma SkipLeft(g: Guard, rest: string, stop: char, depth: int)
    requires ReadableNames(g) && (stop == ',' || (stop == '}' && depth >= 1)) && depth >= 0
    ensures Skip(Left(g) + rest, stop, depth) == |Left(g)| + Skip(rest, stop, depth)
    decreases g, 0
  {
    match g
    case Is(name, _) => SkipVariable(name, rest, stop, depth);
    case Both(a, _) => SkipGuard(a, rest, stop, depth);
  }

  lemma SkipRight(g: Guard, rest: string, stop: char, depth: int)
    requires ReadableNames(g) && (stop == ',' || (stop == '}' && depth >= 1)) && depth >= 0
    ensures Skip(Right(g) + rest, stop, depth) == |Right(g)| + Skip(rest, stop, depth)
    decreases g, 0
  {
    match g
    case Is(_, value) => SkipEscaped(value, rest, stop, depth);
    case Both(_, b) => SkipGuard(b, rest, stop, depth);
  }

  lemma SkipBody(g: Guard, rest: string, stop: char, depth: int)
    requires ReadableNames(g) && (stop == ',' || stop == '}') && depth >= 1
    ensures Skip(Body(g) + rest, stop, depth) == |Body(g)| + Skip(rest, stop, depth)
    decreases g, 1
  {
    RegroupBody(Operator(g), Left(g), Right(g), rest);
    SkipOperator(Operator(g), Left(g) + ("," + (Right(g) + rest)), stop, depth);
    SkipLeft(g, "," + (Right(g) + rest), stop, depth);
    SkipOne(',', Right(g) + rest, stop, depth);
    SkipRight(g, rest, stop, depth);
  }

  /** A printed guard is passed over whole: no comma or brace inside it is seen from outside. */
  lemma {:induction false} SkipGuard(g: Guard, rest: string, stop: char, depth: int)
    requires ReadableNames(g) && (stop == ',' || (stop == '}' && depth >= 1)) && depth >= 0
    ensures Skip(PrintGuard(g) + rest, stop, depth) == |PrintGuard(g)| + Skip(rest, stop, depth)
    decreases g, 2
  {
    GuardShape(g);
    Regroup("#{", Body(g) + "}", rest);
    Regroup(Body(g), "}", rest);
    SkipOpen(Body(g) + ("}" + rest), stop, depth);
    SkipBody(g, "}" + rest, stop, depth + 1);
    SkipClose(rest, stop, depth + 1);
  }

  // ----- what printed guards mean -----

  /** Escaping a value is undone by the reader, whatever the value holds. */
  lemma {:induction false} EscapeRoundTrip(value: string, env: Env)
    ensures Expand(Escaped(value), env) == value
  {
    if value != "" {
      EscapeRoundTrip(value[1..], env);
      if Special(value[0]) {
        assert Escaped(value)[2..] == Escaped(value[1..]);
      } else {
        assert Escaped(value)[1..] == Escaped(value[1..]);
      }
    }
  }

  /** Expanding one balanced `#{...}` yields the value of its body. */
  lemma ExpandBraces(body: string, env: Env)
    requires Skip(body + "}", '}', 1) == |body|
    ensures Expand("#{" + (body + "}"), env) == ExpandBody(body, env)
  {
    var s := "#{" + (body + "}");
    assert s[2..] == body + "}";
    assert s[2..2 + |body|] == body;
    assert s[3 + |body|..] == "";
    assert Expand("", env) == "";
  }

  lemma SkipToClose(rest: string)
    ensures Skip("}" + rest, '}', 1) == 0
  {
  }

  lemma ExpandVariable(name: string, env: Env)
    requires Readable(name)
    ensures Expand(Variable(name), env) == Lookup(env, name)
  {
    SkipReadable(name, "}", '}', 1);
    assert Variable(name) == "#{" + (name + "}");
    ExpandBraces(name, env);
  }

  lemma ExpandOperands(op: string, l: string, r: string, env: Env)
    requires op == "==:" || op == "&&:"
    requires Skip(l + ("," + r), ',', 0) == |l|
    ensures ExpandBody(op + (l + ("," + r)), env) ==
            Truth(if op == "==:" then Expand(l, env) == Expand(r, env)
                  else Truthy(Expand(l, env)) && Truthy(Expand(r, env)))
  {
    var operands := l + ("," + r);
    var body := op + operands;
    assert body[..3] == op && body[3..] == operands;
    assert operands[..|l|] == l && operands[|l| + 1..] == r;
  }

  lemma ExpandGuardBody(g: Guard, env: Env)
    requires ReadableNames(g)
    ensures ExpandBody(Body(g), env) ==
            var (l, r) := (Expand(Left(g), env), Expand(Right(g), env));
            Truth(if g.Is? then l == r else Truthy(l) && Truthy(r))
  {
    SkipLeft(g, "," + Right(g), ',', 0);
    assert Skip("," + Right(g), ',', 0) == 0;
    ExpandOperands(Operator(g), Left(g), Right(g), env);
    assert "==:"[0] != "&&:"[0];
  }

  /**
   A printed guard evaluates to true exactly when every live value equals the expected one, for
   expected values that are any strings at all.
   */
  lemma {:induction false} GuardMeansWhatItSays(g: Guard, env: Env)
    requires ReadableNames(g)
    ensures Expand(PrintGuard(g), env) == Truth(Holds(g, env))
  {
    GuardShape(g);
    SkipBody(g, "}", '}', 1);
    SkipToClose("");
    assert "}" + "" == "}";
    ExpandBraces(Body(g), env);
    ExpandGuardBody(g, env);
    match g
    case Is(name, value) =>
      ExpandVariable(name, env);
      EscapeRoundTrip(value, env);
    case Both(a, b) =>
      GuardMeansWhatItSays(a, env);
      GuardMeansWhatItSays(b, env);
  }

  /** The guard-building loop: conditions joined pairwise from the left. */
  function Conjunction(guards: seq<Guard>): Guard
    requires guards != []
  {
    if |guards| == 1 then guards[0] else Both(Conjunction(guards[..|guards| - 1]), guards[|guards| - 1])
  }

  lemma {:induction false} ConjunctionHolds(guards: seq<Guard>, env: Env)
    requires guards != []
    ensures Holds(Conjunction(guards), env) <==> forall i :: 0 <= i < |guards| ==> Holds(guards[i], env)
    ensures (forall i :: 0 <= i < |guards| ==> ReadableNames(guards[i])) ==> ReadableNames(Conjunction(guards))
  {
    if |guards| > 1 {
      ConjunctionHolds(guards[..|guards| - 1], env);
    }
  }

  method JoinConditions(conditions: seq<string>, ghost guards: seq<Guard>) returns (condition: string)
    requires |conditions| == |guards| > 0 && forall i :: 0 <= i < |guards| ==> conditions[i] == PrintGuard(guards[i])
    ensures condition == PrintGuard(Conjunction(guards))
  {
    condition := conditions[0];
    assert guards[..1] == [guards[0]];
    for i := 1 to |conditions|
      invariant condition == PrintGuard(Conjunction(guards[..i]))
    {
      assert guards[..i + 1][..i] == guards[..i];
      condition := "#{&&:" + condition + "," + conditions[i] + "}";
    }
    assert guards[..|guards|] == guards;
  }

  const GenerationOption := "@wrap_server_generation"

  /** The guard on killing a helper session: generation, session name and ownership mark all match. */
  function KillGuard(generation: string, name: string, option: string, mark: string): Guard {
    Both(Is(GenerationOption, generation), Both(Is("session_name", name), Is(option, mark)))
  }

  lemma GenerationIsReadable()
    ensures Readable(GenerationOption)
  {
    PlainIsReadable(GenerationOption);
  }

  lemma SessionNameIsReadable()
    ensures Readable("session_name")
  {
    PlainIsReadable("session_name");
  }

  lemma KillNamesAreReadable()
    ensures Readable(GenerationOption) && Readable("session_name") && GenerationOption != "session_name"
  {
    GenerationIsReadable();
    SessionNameIsReadable();
    assert |GenerationOption| != |"session_name"|;
  }

  predicate KillHolds(generation: string, name: string, option: string, mark: string, env: Env) {
    Lookup(env, GenerationOption) == generation && Lookup(env, "session_name") == name && Lookup(env, option) == mark
  }

  lemma KillGuardIsExact(generation: string, name: string, option: string, mark: string, env: Env)
    requires Readable(option)
    ensures Expand(PrintGuard(KillGuard(generation, name, option, mark)), env) ==
            Truth(KillHolds(generation, name, option, mark, env))
  {
    var g := KillGuard(generation, name, option, mark);
    KillNamesAreReadable();
    GuardMeansWhatItSays(g, env);
    assert Holds(g, env) == (Holds(g.a, env) && Holds(g.b, env));
    assert Holds(g.b, env) == (Holds(g.b.a, env) && Holds(g.b.b, env));
  }

  // ----- names the reader never sees -----

  lemma NetCons(c: char, rest: string, depth: nat)
    requires c != '#' && (c != '}' || depth > 0)
    ensures Net([c] + rest, depth) == Net(rest, if c == '}' then depth - 1 else depth)
  {
    assert ([c] + rest)[1..] == rest;
  }

  lemma NetHash(c: char, rest: string, depth: nat)
    ensures c in ",#{}:" ==> Net(['#', c] + rest, depth) == Net(rest, if c == '{' then depth + 1 else depth)
    ensures c !in ",#{}:" ==> Net(['#', c] + rest, depth) == Net([c] + rest, depth)
  {
    assert (['#', c] + rest)[2..] == rest && (['#', c] + rest)[1..] == [c] + rest;
  }

  /** What lies before a closing brace has balanced braces. */
  lemma {:induction false} SkipBalances(s: string, depth: nat)
    requires Skip(s, '}', depth + 1) < |s|
    ensures Net(s[..Skip(s, '}', depth + 1)], depth) == Some(0)
    decreases |s|
  {
    var n := Skip(s, '}', depth + 1);
    if s[0] == '#' && |s| > 1 && s[1] in ",#{}:" {
      SkipBalances(s[2..], if s[1] == '{' then depth + 1 else depth);
      EscapedHash(s, n, depth);
    } else if s[0] == '}' {
      if depth > 0 {
        SkipBalances(s[1..], depth - 1);
        PlainChar(s, n, depth, depth - 1);
      }
    } else {
      SkipBalances(s[1..], depth);
      if s[0] != '#' {
        PlainChar(s, n, depth, depth);
      } else {
        PlainHash(s, n, depth);
      }
    }
  }

  lemma EscapedHash(s: string, n: nat, depth: nat)
    requires 2 <= n < |s| && s[0] == '#' && s[1] in ",#{}:"
    requires Net(s[2..][..n - 2], if s[1] == '{' then depth + 1 else depth) == Some(0)
    ensures Net(s[..n], depth) == Some(0)
  {
    assert s[..n] == ['#', s[1]] + s[2..][..n - 2];
    NetHash(s[1], s[2..][..n - 2], depth);
  }

  lemma PlainChar(s: string, n: nat, depth: nat, more: nat)
    requires 1 <= n < |s| && s[0] != '#' && more == (if s[0] == '}' then depth - 1 else depth)
    requires Net(s[1..][..n - 1], more) == Some(0)
    ensures Net(s[..n], depth) == Some(0)
  {
    assert s[..n] == [s[0]] + s[1..][..n - 1];
    NetCons(s[0], s[1..][..n - 1], depth);
  }

  /** A hash that escapes nothing is a character like any other. */
  lemma PlainHash(s: string, n: nat, depth: nat)
    requires s != "" && s[0] == '#' && n == Skip(s, '}', depth + 1) && 0 < n < |s|
    requires s[1] !in ",#{}:" && Net(s[1..][..n - 1], depth) == Some(0)
    ensures Net(s[..n], depth) == Some(0)
  {
    assert n != 1;
    assert s[..n] == ['#', s[1]] + s[2..n] && s[1..][..n - 1] == [s[1]] + s[2..n];
    NetHash(s[1], s[2..n], depth);
  }

  /** A name that is not readable is never looked up, so its value makes no difference to any format. */
  lemma {:induction false} UnreadIsIrrelevant(s: string, env: Env, name: string, value: string)
    requires !Readable(name)
    ensures Expand(s, env) == Expand(s, env[name := value])
    decreases |s|, 0
  {
    if s == "" {
    } else if s[0] == '#' && |s| > 1 && Special(s[1]) {
      UnreadIsIrrelevant(s[2..], env, name, value);
    } else if s[0] == '#' && |s| > 1 && s[1] == '{' {
      var n := Skip(s[2..], '}', 1);
      if 2 + n < |s| {
        SkipBalances(s[2..], 0);
        assert s[2..][..n] == s[2..2 + n];
        UnreadBody(s[2..2 + n], env, name, value);
        UnreadIsIrrelevant(s[3 + n..], env, name, value);
      }
    } else {
      UnreadIsIrrelevant(s[1..], env, name, value);
    }
  }

  lemma {:induction false} UnreadBody(body: string, env: Env, name: string, value: string)
    requires !Readable(name) && Net(body, 0) == Some(0)
    ensures ExpandBody(body, env) == ExpandBody(body, env[name := value])
    decreases |body|, 1
  {
    if IsOperation(body) {
      var operands := body[3..];
      var n := Skip(operands, ',', 0);
      if n < |operands| {
        UnreadIsIrrelevant(operands[..n], env, name, value);
        UnreadIsIrrelevant(operands[n + 1..], env, name, value);
      }
    } else {
      assert body != name;
    }
  }

  lemma Lookups(k1: string, k2: string, k3: string, a: string, b: string, c: string, d: string)
    requires k1 != k2 && k1 != k3 && k2 != k3
    ensures var env := map[k1 := a, k2 := b, k3 := c];
            && Lookup(env, k1) == a && Lookup(env, k2) == b && Lookup(env, k3) == c
            && Lookup(env[k3 := d], k1) == a && Lookup(env[k3 := d], k2) == b && Lookup(env[k3 := d], k3) == d
  {
  }

  lemma BlindTo(text: string, k1: string, k2: string, option: string, a: string, b: string, mark: string) returns (env: Env)
    requires mark != "" && !Readable(option) && Readable(k1) && Readable(k2) && k1 != k2
    ensures Expand(text, env) != Truth(Lookup(env, k1) == a && Lookup(env, k2) == b && Lookup(env, option) == mark)
  {
    Lookups(k1, k2, option, a, b, "", mark);
    env := map[k1 := a, k2 := b, option := ""];
    UnreadIsIrrelevant(text, env, option, mark);
    if Expand(text, env) == Truth(false) {
      env := env[option := mark];
    }
  }

  /** No text at all can guard on an unreadable option. */
  lemma NothingGuardsUnreadable(text: string, generation: string, name: string, option: string, mark: string)
    requires mark != "" && !Readable(option)
    ensures exists env :: Expand(text, env) != Truth(KillHolds(generation, name, option, mark, env))
  {
    KillNamesAreReadable();
    var env := BlindTo(text, GenerationOption, "session_name", option, generation, name, mark);
    assert Expand(text, env) != Truth(KillHolds(generation, name, option, mark, env));
  }

  /**
   Exactly the readable options can be guarded on: for any other, what the printed guard yields does not
   depend on the option at all, so it is wrong for some live values.
   */
  lemma KillGuardNeedsReadable(generation: string, name: string, option: string, mark: string)
    requires mark != ""
    ensures Readable(option) <==>
            forall env :: Expand(PrintGuard(KillGuard(generation, name, option, mark)), env) ==
                          Truth(KillHolds(generation, name, option, mark, env))
  {
    if Readable(option) {
      forall env ensures Expand(PrintGuard(KillGuard(generation, name, option, mark)), env) ==
                         Truth(KillHolds(generation, name, option, mark, env)) {
        KillGuardIsExact(generation, name, option, mark, env);
      }
    } else {
      NothingGuardsUnreadable(PrintGuard(KillGuard(generation, name, option, mark)), generation, name, option, mark);
    }
  }
}
