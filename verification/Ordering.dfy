/** Byte order on strings, and insertion into sorted sequences. */
module Ordering {
  /** Byte order on strings. */
  predicate Less(a: string, b: string) {
    b != "" && (a == "" || a[0] < b[0] || (a[0] == b[0] && Less(a[1..], b[1..])))
  }

  lemma {:induction false} LessIsTotal(a: string, b: string)
    ensures a != b ==> Less(a, b) || Less(b, a)
    ensures !(Less(a, b) && Less(b, a)) && !Less(a, a)
  {
    if a != "" && b != "" {
      LessIsTotal(a[1..], b[1..]);
      LessIsTotal(a[1..], a[1..]);
      assert a == [a[0]] + a[1..] && b == [b[0]] + b[1..];
    } else if a != "" {
      LessIsTotal(a[1..], a[1..]);
    }
  }

  lemma {:induction false} LessIsTransitive(a: string, b: string, c: string)
    requires Less(a, b) && Less(b, c)
    ensures Less(a, c)
  {
    if a != "" && a[0] == b[0] && b[0] == c[0] {
      LessIsTransitive(a[1..], b[1..], c[1..]);
    }
  }

  /** Strict, so that sorted sequences hold nothing twice. */
  ghost predicate IsOrder<T(!new)>(before: (T, T) -> bool) {
    && (forall a, b, c :: before(a, b) && before(b, c) ==> before(a, c))
    && (forall a :: !before(a, a))
  }

  predicate Sorted<T>(s: seq<T>, before: (T, T) -> bool) {
    forall i, j :: 0 <= i < j < |s| ==> before(s[i], s[j])
  }

  function Insert<T>(s: seq<T>, a: T, before: (T, T) -> bool): seq<T> {
    if s == [] || before(a, s[0]) then [a] + s else [s[0]] + Insert(s[1..], a, before)
  }

  lemma {:induction false} InsertHolds<T>(s: seq<T>, a: T, before: (T, T) -> bool)
    ensures forall x :: x in Insert(s, a, before) <==> x == a || x in s
  {
    if s != [] && !before(a, s[0]) {
      InsertHolds(s[1..], a, before);
      assert s == [s[0]] + s[1..];
    }
  }

  lemma {:induction false} InsertSorts<T(!new)>(s: seq<T>, a: T, before: (T, T) -> bool)
    requires IsOrder(before) && Sorted(s, before) && forall x :: x in s ==> before(a, x) || before(x, a)
    ensures Sorted(Insert(s, a, before), before)
  {
    if s != [] {
      if before(a, s[0]) {
        forall j | 0 <= j < |s| ensures before(a, s[j]) {
          assert j > 0 ==> before(s[0], s[j]);
        }
      } else {
        assert s[0] in s;
        InsertSorts(s[1..], a, before);
        InsertHolds(s[1..], a, before);
        forall j | 0 <= j < |Insert(s[1..], a, before)| ensures before(s[0], Insert(s[1..], a, before)[j]) {
          assert Insert(s[1..], a, before)[j] in Insert(s[1..], a, before);
        }
      }
    }
  }
}
