/** The last element of a cleaned slash-separated path, as filepath.Base(filepath.Clean(path)) gives it. */
module Paths {
  /** The stretches between slashes; `current` is the one being read. */
  function Split(path: string, current: string): seq<string> {
    if path == "" then [current]
    else if path[0] == '/' then [current] + Split(path[1..], "")
    else Split(path[1..], current + [path[0]])
  }

  /** Cleaning drops empty elements and dots, and lets two dots take the element before them. */
  function Descend(stack: seq<string>, rooted: bool, element: string): seq<string> {
    if element == "" || element == "." then stack
    else if element != ".." then stack + [element]
    else if stack != [] && stack[|stack| - 1] != ".." then stack[..|stack| - 1]
    else if rooted then stack
    else stack + [element]
  }

  function Walk(elements: seq<string>, rooted: bool): seq<string> {
    if elements == [] then []
    else Descend(Walk(elements[..|elements| - 1], rooted), rooted, elements[|elements| - 1])
  }

  predicate IsRooted(path: string) {
    path != "" && path[0] == '/'
  }

  function BaseName(path: string): string {
    var stack := Walk(Split(path, ""), IsRooted(path));
    if stack != [] then stack[|stack| - 1] else if IsRooted(path) then "/" else "."
  }

  predicate IsElement(s: string) {
    s != "" && s != "." && s != ".." && '/' !in s
  }

  lemma {:induction false} SplitPlain(name: string, current: string)
    requires '/' !in name
    ensures Split(name, current) == [current + name]
  {
    if name == "" {
      assert current + name == current;
    } else {
      assert name[0] in name;
      assert forall c :: c in name[1..] ==> c in name;
      SplitPlain(name[1..], current + [name[0]]);
      assert current + [name[0]] + name[1..] == current + name;
    }
  }

  lemma {:induction false} SplitSlash(path: string, rest: string, current: string)
    ensures Split(path + "/" + rest, current) == Split(path, current) + Split(rest, "")
  {
    var whole := path + "/" + rest;
    if path == "" {
      assert whole[0] == '/' && whole[1..] == rest;
    } else {
      assert whole[0] == path[0] && whole[1..] == path[1..] + "/" + rest;
      if path[0] == '/' {
        SplitSlash(path[1..], rest, "");
        assert [current] + (Split(path[1..], "") + Split(rest, "")) == [current] + Split(path[1..], "") + Split(rest, "");
      } else {
        SplitSlash(path[1..], rest, current + [path[0]]);
      }
    }
  }

  lemma WalkLast(elements: seq<string>, rooted: bool, last: string)
    ensures Walk(elements + [last], rooted) == Descend(Walk(elements, rooted), rooted, last)
  {
    assert (elements + [last])[..|elements|] == elements;
  }

  /** The base name of a path that ends in an element is that element. */
  lemma BaseOfElement(directory: string, name: string)
    requires IsElement(name)
    ensures BaseName(directory + "/" + name) == name && BaseName(name) == name
  {
    var whole := directory + "/" + name;
    SplitSlash(directory, name, "");
    SplitPlain(name, "");
    assert "" + name == name;
    WalkLast(Split(directory, ""), IsRooted(whole), name);
    WalkLast([], IsRooted(name), name);
    assert [] + [name] == [name];
  }

  /** Slashes at the end do not count. */
  lemma BaseIgnoresSlash(path: string)
    requires path != ""
    ensures BaseName(path + "/") == BaseName(path)
  {
    SplitSlash(path, "", "");
    assert path + "/" + "" == path + "/" && IsRooted(path + "/") == IsRooted(path);
    WalkLast(Split(path, ""), IsRooted(path), "");
  }

  /** A dot leads nowhere. */
  lemma BaseOfDot(path: string)
    requires path != ""
    ensures BaseName(path + "/.") == BaseName(path)
  {
    SplitPlain(".", "");
    assert "" + "." == "." && path + "/" + "." == path + "/.";
    SplitSlash(path, ".", "");
    WalkLast(Split(path, ""), IsRooted(path), ".");
  }

  lemma TakesBack(stack: seq<string>, rooted: bool, name: string)
    requires name != "" && name != "." && name != ".."
    ensures Descend(Descend(stack, rooted, name), rooted, "..") == stack
  {
    assert |".."| != |"."|;
    assert (stack + [name])[..|stack|] == stack;
  }

  lemma SplitParent(path: string, name: string)
    requires IsElement(name)
    ensures Split(path + "/" + name + "/..", "") == Split(path, "") + [name] + [".."]
  {
    SplitPlain("..", "");
    SplitPlain(name, "");
    assert "" + ".." == ".." && "" + name == name;
    SplitSlash(path, name, "");
    SplitSlash(path + "/" + name, "..", "");
    assert path + "/" + name + "/" + ".." == path + "/" + name + "/..";
  }

  /** Two dots take back the element before them. */
  lemma BaseOfParent(path: string, name: string)
    requires path != "" && IsElement(name)
    ensures BaseName(path + "/" + name + "/..") == BaseName(path)
  {
    SplitParent(path, name);
    assert IsRooted(path + "/" + name + "/..") == IsRooted(path);
    WalkBack(Split(path, ""), IsRooted(path), name);
  }

  lemma WalkBack(elements: seq<string>, rooted: bool, name: string)
    requires IsElement(name)
    ensures Walk(elements + [name] + [".."], rooted) == Walk(elements, rooted)
  {
    WalkLast(elements, rooted, name);
    WalkLast(elements + [name], rooted, "..");
    TakesBack(Walk(elements, rooted), rooted, name);
  }

  /** At the root there is nothing to take, and a relative path may lead up. */
  lemma RootAndParent()
    ensures BaseName("/..") == "/" && BaseName("..") == ".."
  {
    SplitPlain("..", "");
    assert "" + ".." == ".." && "" + "/" + ".." == "/..";
    SplitSlash("", "..", "");
    WalkLast([], false, "..");
    assert [] + [".."] == [".."];
    WalkLast([], true, "");
    WalkLast([""], true, "..");
    assert [""] + [".."] == ["", ".."];
  }

  lemma {:induction false} SplitHasNoSlash(path: string, current: string)
    requires '/' !in current
    ensures forall e :: e in Split(path, current) ==> '/' !in e
  {
    if path != "" {
      SplitHasNoSlash(path[1..], if path[0] == '/' then "" else current + [path[0]]);
    }
  }

  lemma DescendHolds(stack: seq<string>, rooted: bool, element: string)
    ensures forall e :: e in Descend(stack, rooted, element) ==> e in stack || (e == element && e != "" && e != ".")
  {
  }

  lemma {:induction false} WalkHolds(elements: seq<string>, rooted: bool)
    ensures forall e :: e in Walk(elements, rooted) ==> e in elements && e != "" && e != "."
  {
    if elements != [] {
      var n := |elements| - 1;
      WalkHolds(elements[..n], rooted);
      DescendHolds(Walk(elements[..n], rooted), rooted, elements[n]);
      forall e | e in Walk(elements, rooted) ensures e in elements && e != "" && e != "." {
        assert e in elements[..n] || e == elements[n];
      }
    }
  }

  /** A base name is never empty, and holds a slash only when it is the root itself. */
  lemma BaseIsOneElement(path: string)
    ensures BaseName(path) != "" && ('/' in BaseName(path) ==> BaseName(path) == "/")
  {
    var elements := Split(path, "");
    SplitHasNoSlash(path, "");
    WalkHolds(elements, IsRooted(path));
    var stack := Walk(elements, IsRooted(path));
    assert stack != [] ==> stack[|stack| - 1] in stack;
  }
}
