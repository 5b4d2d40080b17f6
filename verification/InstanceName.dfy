/**
 Choosing an instance's name (ValidateName, ChooseName and derivedName in internal/instance/name.go).
 Strings are decoded: sequences of Unicode scalar values, each invalid byte read as U+FFFD, with a flag
 saying whether there was one. What counts as printable or as a space is a parameter.
 */
module InstanceName {
  import opened Decimals
  import opened Paths

  datatype Unicode = Unicode(printable: char -> bool, space: char -> bool)

  /** What is used of the Unicode tables: the only printable space is ' ', and the characters Wrap itself writes are plain. */
  ghost predicate Standard(u: Unicode) {
    && (forall c :: u.printable(c) && u.space(c) ==> c == ' ')
    && (forall c :: '0' <= c <= '9' || 'a' <= c <= 'z' || c == '-' || c == '_' ==> u.printable(c) && !u.space(c))
  }

  // ----- trimming -----

  function TrimLeft(u: Unicode, s: string): string {
    if s != "" && u.space(s[0]) then TrimLeft(u, s[1..]) else s
  }

  function TrimRight(u: Unicode, s: string): string {
    if s != "" && u.space(s[|s| - 1]) then TrimRight(u, s[..|s| - 1]) else s
  }

  function TrimSpace(u: Unicode, s: string): string {
    TrimRight(u, TrimLeft(u, s))
  }

  predicate Trimmed(u: Unicode, s: string) {
    s == "" || (!u.space(s[0]) && !u.space(s[|s| - 1]))
  }

  lemma {:induction false} TrimLeftKeeps(u: Unicode, s: string)
    ensures var t := TrimLeft(u, s); |t| <= |s| && (t != "" ==> !u.space(t[0])) && (forall c :: c in t ==> c in s)
    ensures TrimLeft(u, s) == s <==> s == "" || !u.space(s[0])
  {
    if s != "" && u.space(s[0]) {
      TrimLeftKeeps(u, s[1..]);
    }
  }

  lemma {:induction false} TrimRightKeeps(u: Unicode, s: string)
    ensures var t := TrimRight(u, s); |t| <= |s| && t == s[..|t|] && (t != "" ==> !u.space(t[|t| - 1])) && (forall c :: c in t ==> c in s)
    ensures TrimRight(u, s) == s <==> s == "" || !u.space(s[|s| - 1])
  {
    if s != "" && u.space(s[|s| - 1]) {
      TrimRightKeeps(u, s[..|s| - 1]);
    }
  }

  lemma TrimKeeps(u: Unicode, s: string)
    ensures var t := TrimSpace(u, s); |t| <= |s| && Trimmed(u, t) && (forall c :: c in t ==> c in s)
    ensures TrimSpace(u, s) == s <==> Trimmed(u, s)
  {
    TrimLeftKeeps(u, s);
    TrimRightKeeps(u, TrimLeft(u, s));
    TrimRightKeeps(u, s);
  }

  // ----- validation -----

  predicate SafeChar(u: Unicode, c: char) {
    c != '/' && c != '\\' && u.printable(c)
  }

  predicate ValidName(u: Unicode, s: string) {
    s != "" && Trimmed(u, s) && |s| <= 64 && forall c :: c in s ==> SafeChar(u, c)
  }

  method ValidateName(u: Unicode, value: string, validUTF8: bool) returns (ok: bool)
    ensures ok <==> validUTF8 && ValidName(u, value)
    ensures ok ==> 0 < |value| <= 64 && '/' !in value && '\\' !in value && forall c :: c in value ==> u.printable(c)
    ensures ok ==> !u.space(value[0]) && !u.space(value[|value| - 1])
  {
    TrimKeeps(u, value);
    if value == "" || TrimSpace(u, value) != value {
      return false;
    }
    if !validUTF8 || |value| > 64 {
      return false;
    }
    for i := 0 to |value|
      invariant forall j :: 0 <= j < i ==> SafeChar(u, value[j])
    {
      if value[i] == '/' || value[i] == '\\' || !u.printable(value[i]) {
        assert value[i] in value;
        return false;
      }
    }
    return true;
  }

  // ----- the name of a directory -----

  /** The first 48 characters, each unsafe one replaced. */
  function Cleaned(u: Unicode, value: string): (r: string)
    ensures |r| == if |value| < 48 then |value| else 48
    ensures forall i :: 0 <= i < |r| ==> r[i] == if SafeChar(u, value[i]) then value[i] else '_'
  {
    seq(if |value| < 48 then |value| else 48, i requires 0 <= i < |value| => if SafeChar(u, value[i]) then value[i] else '_')
  }

  lemma CleanedIsSafe(u: Unicode, value: string)
    requires Standard(u)
    ensures forall c :: c in Cleaned(u, value) ==> SafeChar(u, c)
    ensures ValidName(u, value) && |value| <= 48 ==> Cleaned(u, value) == value
  {
    assert forall i :: 0 <= i < |value| ==> value[i] in value;
  }

  /** The directory's base name, or the window's where that says nothing, cleaned and trimmed. */
  function Derived(u: Unicode, directory: string, window: string): string {
    var last := BaseName(directory);
    var value := if last == "." || last == "/" || last == "" then window else last;
    var name := TrimSpace(u, Cleaned(u, value));
    if name == "" then "wrap" else name
  }

  /** The derived name is valid; a base name that is already safe and short is kept. */
  method DerivedName(u: Unicode, directory: string, window: string) returns (name: string)
    requires Standard(u)
    ensures name == Derived(u, directory, window)
    ensures ValidName(u, name) && |name| <= 48
    ensures var last := BaseName(directory);
            && (ValidName(u, last) && |last| <= 48 && last != "." ==> name == last)
            && (last == "." || last == "/" ==> ValidName(u, window) && |window| <= 48 ==> name == window)
            && (last == "." || last == "/" ==> window == "" ==> name == "wrap")
  {
    var last := BaseName(directory);
    var value := if last == "." || last == "/" || last == "" then window else last;
    assert '/' in "/";
    var builder := "";
    for i := 0 to |value|
      invariant i == |builder| < 48 && builder == Cleaned(u, value)[..i]
    {
      if value[i] == '/' || value[i] == '\\' || !u.printable(value[i]) {
        builder := builder + "_";
      } else {
        builder := builder + [value[i]];
      }
      assert builder == Cleaned(u, value)[..i + 1];
      if |builder| == 48 {
        break;
      }
    }
    assert Cleaned(u, value)[..|builder|] == Cleaned(u, value);
    CleanedIsSafe(u, value);
    TrimKeeps(u, builder);
    assert value == "" ==> TrimSpace(u, builder) == "";
    name := TrimSpace(u, builder);
    if name == "" {
      name := "wrap";
    }
  }

  // ----- choosing -----

  function Candidate(name: string, suffix: nat): string {
    name + "-" + Decimal(suffix)
  }

  lemma CandidatesDiffer(name: string, m: nat, n: nat)
    ensures Candidate(name, m) == Candidate(name, n) ==> m == n
    ensures Candidate(name, m) != name
  {
    if Candidate(name, m) == Candidate(name, n) {
      assert Candidate(name, m)[|name| + 1..] == Decimal(m) && Candidate(name, n)[|name| + 1..] == Decimal(n);
      DecimalInjective(m, n);
    }
    assert |Candidate(name, m)| > |name|;
  }

  /** The name itself and its first candidates, when all are used, are that many used names. */
  lemma {:induction false} Pigeonhole(name: string, used: set<string>, suffix: nat)
    requires suffix >= 2 && name in used && forall j :: 2 <= j < suffix ==> Candidate(name, j) in used
    ensures suffix - 1 <= |used|
  {
    if suffix == 2 {
      assert |used| >= 1;
    } else {
      var last := Candidate(name, suffix - 1);
      forall j | 2 <= j < suffix - 1 ensures Candidate(name, j) in used - {last} {
        CandidatesDiffer(name, j, suffix - 1);
      }
      CandidatesDiffer(name, suffix - 1, suffix - 1);
      Pigeonhole(name, used - {last}, suffix - 1);
    }
  }

  lemma CandidateIsValid(u: Unicode, name: string, suffix: nat)
    requires Standard(u) && ValidName(u, name) && |name| <= 48
    ensures ValidName(u, Candidate(name, suffix)) <==> |name| + 1 + |Decimal(suffix)| <= 64
  {
    var s := Candidate(name, suffix);
    assert s[0] == name[0] && s[|s| - 1] == Decimal(suffix)[|Decimal(suffix)| - 1];
    assert forall c :: c in Decimal(suffix) ==> '0' <= c <= '9';
  }

  function Used(names: seq<string>): set<string> {
    {"all"} + set n | n in names
  }

  /** Without a requested name, the first of the derived name and its numbered candidates that is free. */
  predicate FirstFree(derived: string, name: string, used: set<string>, bound: nat) {
    name !in used
    && (name == derived
        || (derived in used
            && exists k :: 2 <= k <= bound && name == Candidate(derived, k) && forall j :: 2 <= j < k ==> Candidate(derived, j) in used))
  }

  datatype Choice = Chosen(name: string) | Refused

  lemma {:induction false} FewUsed(names: seq<string>)
    ensures |Used(names)| <= |names| + 1
  {
    if names != [] {
      var n := |names| - 1;
      FewUsed(names[..n]);
      assert names == names[..n] + [names[n]];
      assert Used(names) == Used(names[..n]) + {names[n]};
    }
  }

  method FirstCandidate(u: Unicode, derived: string, used: set<string>, bound: nat) returns (name: string)
    requires Standard(u) && ValidName(u, derived) && |derived| <= 48 && |used| < bound
    ensures FirstFree(derived, name, used, bound)
    ensures bound < Power10(15) ==> ValidName(u, name)
  {
    if derived !in used {
      return derived;
    }
    var suffix: nat := 2;
    Pigeonhole(derived, used, suffix);
    while Candidate(derived, suffix) in used
      invariant suffix >= 2 && forall j :: 2 <= j < suffix ==> Candidate(derived, j) in used
      invariant suffix - 1 <= |used|
      decreases |used| + 1 - suffix
    {
      Pigeonhole(derived, used, suffix + 1);
      suffix := suffix + 1;
    }
    CandidateIsValid(u, derived, suffix);
    DecimalLength(suffix, 15);
    return Candidate(derived, suffix);
  }

  /**
   A requested name is taken exactly when it is valid, not "all" and unused. Otherwise the search ends
   by suffix |names| + 2 with a free name, valid while that suffix has at most 15 digits.
   */
  method ChooseName(u: Unicode, requested: string, validUTF8: bool, directory: string, window: string, names: seq<string>)
    returns (choice: Choice)
    requires Standard(u)
    ensures requested != "" ==>
              choice == if validUTF8 && ValidName(u, requested) && requested !in Used(names) then Chosen(requested) else Refused
    ensures requested == "" ==>
              choice.Chosen? && FirstFree(Derived(u, directory, window), choice.name, Used(names), |names| + 2)
    ensures choice.Chosen? && |names| + 2 < Power10(15) ==> ValidName(u, choice.name)
    ensures choice.Chosen? ==> choice.name != "all" && choice.name !in names
    ensures var derived := Derived(u, directory, window);
            requested == "" && choice.name != derived ==> exists k: nat :: 2 <= k && choice.name == derived + "-" + Decimal(k)
  {
    var used := {"all"};
    for i := 0 to |names|
      invariant used == Used(names[..i])
    {
      assert names[..i + 1] == names[..i] + [names[i]];
      used := used + {names[i]};
    }
    assert names[..|names|] == names;
    if requested != "" {
      var ok := ValidateName(u, requested, validUTF8);
      if !ok || requested == "all" || requested in used {
        return Refused;
      }
      return Chosen(requested);
    }
    FewUsed(names);
    var derived := DerivedName(u, directory, window);
    var name := FirstCandidate(u, derived, used, |names| + 2);
    return Chosen(name);
  }
}
