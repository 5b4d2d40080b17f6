/**
 Keeping the newest completed artifacts (PruneCompletedArtifacts and pruneCompletedArtifact in
 internal/instance/store.go). File operations may fail; a failure on one instance does not spare another.
 */
module ArtifactPruning {
  import opened Options
  import opened Ordering

  // ----- artifacts -----

  /** A directory entry: a diagnostics file or a lease of an instance, or (None) something else. */
  datatype Entry = Entry(name: string, id: Option<string>, modified: nat)

  datatype Artifact = Artifact(id: string, modified: nat)

  /** Newest first, and among equally new ones the greater ID first. */
  predicate Before(a: Artifact, b: Artifact) {
    a.modified > b.modified || (a.modified == b.modified && Less(b.id, a.id))
  }

  lemma BeforeIsAnOrder(a: Artifact, b: Artifact, c: Artifact)
    ensures a != b ==> Before(a, b) || Before(b, a)
    ensures !(Before(a, b) && Before(b, a)) && !Before(a, a)
    ensures Before(a, b) && Before(b, c) ==> Before(a, c)
  {
    LessIsTotal(a.id, b.id);
    LessIsTotal(a.id, a.id);
    if Less(b.id, a.id) && Less(c.id, b.id) {
      LessIsTransitive(c.id, b.id, a.id);
    }
  }

  predicate IsFrom(e: Entry, id: string, t: nat) {
    e.id == Some(id) && e.modified == t
  }

  /** `t` is the newest modification among the entries of `id`. */
  predicate IsNewest(entries: set<Entry>, id: string, t: nat) {
    (exists e :: e in entries && IsFrom(e, id, t)) && forall e :: e in entries && e.id == Some(id) ==> e.modified <= t
  }

  /** The completed instances and how new each is. */
  function Completed(entries: set<Entry>, protected: set<string>): (done: set<Artifact>)
    ensures forall a :: a in done <==> IsNewest(entries, a.id, a.modified) && a.id !in protected
  {
    var done := set e | e in entries && e.id.Some? && e.id.value !in protected && IsNewest(entries, e.id.value, e.modified)
                :: Artifact(e.id.value, e.modified);
    forall a: Artifact | IsNewest(entries, a.id, a.modified) && a.id !in protected ensures a in done {
      var e :| e in entries && IsFrom(e, a.id, a.modified);
      assert a == Artifact(e.id.value, e.modified);
    }
    done
  }

  /** How many completed instances come before this one. */
  function Rank(done: set<Artifact>, a: Artifact): nat {
    |set b | b in done && Before(b, a)|
  }

  /** What must go: completed, ranked at or after `retain`, and not held by anyone. */
  predicate MustGo(done: set<Artifact>, held: set<string>, retain: nat, id: string) {
    id !in held && exists a :: a in done && a.id == id && Rank(done, a) >= retain
  }

  function Elements<T>(s: seq<T>): set<T> {
    set x | x in s
  }

  // ----- sorting -----

  lemma BeforeIsOrder()
    ensures IsOrder(Before)
  {
    forall a, b, c | Before(a, b) && Before(b, c) ensures Before(a, c) {
      BeforeIsAnOrder(a, b, c);
    }
    forall a ensures !Before(a, a) {
      BeforeIsAnOrder(a, a, a);
    }
  }

  lemma InsertArtifact(s: seq<Artifact>, a: Artifact)
    requires Sorted(s, Before) && a !in s
    ensures Sorted(Insert(s, a, Before), Before)
    ensures forall x :: x in Insert(s, a, Before) <==> x == a || x in s
  {
    BeforeIsOrder();
    forall x | x in s ensures Before(a, x) || Before(x, a) {
      BeforeIsAnOrder(a, x, x);
    }
    InsertSorts(s, a, Before);
    InsertHolds(s, a, Before);
  }

  /** In sorted order an artifact's rank is its index, so ranks do not depend on any listing order. */
  lemma RankIsIndex(s: seq<Artifact>, done: set<Artifact>, i: nat)
    requires Sorted(s, Before) && i < |s| && forall a :: a in done <==> a in s
    ensures Rank(done, s[i]) == i
  {
    var earlier := set b | b in done && Before(b, s[i]);
    forall b ensures b in earlier <==> b in s[..i] {
      if b in earlier {
        var j :| 0 <= j < |s| && s[j] == b;
        BeforeIsAnOrder(s[i], s[j], s[i]);
        assert j < i;
        assert b == s[..i][j];
      }
    }
    CountSorted(s[..i]);
    assert earlier == Elements(s[..i]);
  }

  lemma {:induction false} CountSorted(s: seq<Artifact>)
    requires Sorted(s, Before)
    ensures |Elements(s)| == |s|
  {
    if s != [] {
      var n := |s| - 1;
      CountSorted(s[..n]);
      assert Elements(s) == Elements(s[..n]) + {s[n]};
      if s[n] in s[..n] {
        var j :| 0 <= j < n && s[j] == s[n];
        BeforeIsAnOrder(s[n], s[n], s[n]);
        assert false;
      }
    } else {
      assert Elements(s) == {};
    }
  }

  // ----- pruning -----

  /** What can go wrong: listing, taking a lease, removing a file, and inspecting, unlinking or closing the lease at the end. */
  datatype Faults = Faults(unlistable: bool, unlockable: set<string>, stuck: set<Entry>, unreleased: set<string>)

  /** The entry is one of these instances', and can be removed. */
  predicate Goes(e: Entry, ids: set<string>, stuck: set<Entry>) {
    e.id.Some? && e.id.value in ids && e !in stuck
  }

  function Without(entries: seq<Entry>, ids: set<string>, stuck: set<Entry>): seq<Entry> {
    if entries == [] then []
    else
      var (rest, last) := (Without(entries[..|entries| - 1], ids, stuck), entries[|entries| - 1]);
      if Goes(last, ids, stuck) then rest else rest + [last]
  }

  lemma {:induction false} WithoutMore(entries: seq<Entry>, ids: set<string>, id: string, stuck: set<Entry>)
    ensures Without(Without(entries, ids, stuck), {id}, stuck) == Without(entries, ids + {id}, stuck)
  {
    if entries != [] {
      var (rest, last) := (entries[..|entries| - 1], entries[|entries| - 1]);
      WithoutMore(rest, ids, id, stuck);
      if !Goes(last, ids, stuck) {
        assert (Without(rest, ids, stuck) + [last])[..|Without(rest, ids, stuck)|] == Without(rest, ids, stuck);
      }
    }
  }

  lemma {:induction false} WithoutNothing(entries: seq<Entry>, stuck: set<Entry>)
    ensures Without(entries, {}, stuck) == entries
  {
    if entries != [] {
      WithoutNothing(entries[..|entries| - 1], stuck);
    }
  }

  /** Entries of other instances, and stuck ones, are never removed. */
  lemma {:induction false} WithoutSpares(entries: seq<Entry>, ids: set<string>, stuck: set<Entry>)
    ensures forall e :: e in Without(entries, ids, stuck) <==> e in entries && !Goes(e, ids, stuck)
  {
    if entries != [] {
      WithoutSpares(entries[..|entries| - 1], ids, stuck);
      assert entries == entries[..|entries| - 1] + [entries[|entries| - 1]];
    }
  }

  /** Some file of these instances could not be removed. */
  predicate Sticks(entries: seq<Entry>, ids: set<string>, stuck: set<Entry>) {
    exists e :: e in entries && e.id.Some? && e.id.value in ids && e in stuck
  }

  /** Every file of these instances was removed, and every lease closed again. */
  predicate Settled(entries: seq<Entry>, ids: set<string>, faults: Faults) {
    !Sticks(entries, ids, faults.stuck) && ids !! faults.unreleased
  }

  /** The diagnostics and lease directories, listed in whatever order. */
  class Artifacts {
    var entries: seq<Entry>

    constructor (entries: seq<Entry>)
      ensures this.entries == entries
    {
      this.entries := entries;
    }

    /** The newest modification per instance. */
    method Collect() returns (candidates: map<string, nat>)
      ensures forall id :: id in candidates ==> IsNewest(Elements(entries), id, candidates[id])
      ensures forall e :: e in entries && e.id.Some? ==> e.id.value in candidates && e.modified <= candidates[e.id.value]
      ensures forall id :: id in candidates ==> exists e :: e in entries && e.id == Some(id) && e.modified == candidates[id]
    {
      candidates := map[];
      for i := 0 to |entries|
        invariant forall id :: id in candidates ==> IsNewest(Elements(entries[..i]), id, candidates[id])
        invariant forall e :: e in entries[..i] && e.id.Some? ==> e.id.value in candidates
      {
        var entry := entries[i];
        assert entries[..i + 1] == entries[..i] + [entry];
        assert Elements(entries[..i + 1]) == Elements(entries[..i]) + {entry};
        if entry.id.Some? {
          assert IsFrom(entry, entry.id.value, entry.modified);
          if entry.id.value !in candidates || entry.modified > candidates[entry.id.value] {
            candidates := candidates[entry.id.value := entry.modified];
          }
        }
      }
      assert entries[..|entries|] == entries;
    }

    /** Removes the instance's files unless someone holds its lease; reports what could not be done. */
    method PruneOne(id: string, held: set<string>, faults: Faults) returns (ok: bool)
      modifies this
      ensures entries == if id in held || id in faults.unlockable then old(entries) else Without(old(entries), {id}, faults.stuck)
      ensures ok <==> id in held || (id !in faults.unlockable && Settled(old(entries), {id}, faults))
    {
      if id in held {
        return true;
      }
      if id in faults.unlockable {
        return false;
      }
      ok := Settled(entries, {id}, faults);
      entries := Without(entries, {id}, faults.stuck);
    }

    /** Prunes, one by one, what `sorted` lists from `first` on, whatever fails on the way. */
    method PruneFrom(sorted: seq<Artifact>, first: nat, held: set<string>, faults: Faults) returns (ok: bool, gone: set<string>)
      requires first <= |sorted|
      modifies this
      ensures entries == Without(old(entries), gone, faults.stuck)
      ensures forall id :: id in gone <==> id !in held && id !in faults.unlockable && Due(sorted, first, |sorted|, id)
      ensures ok <==> Settled(old(entries), gone, faults)
                      && forall id :: Due(sorted, first, |sorted|, id) ==> id in held || id !in faults.unlockable
    {
      ok, gone := true, {};
      WithoutNothing(entries, faults.stuck);
      for i := first to |sorted|
        invariant entries == Without(old(entries), gone, faults.stuck)
        invariant forall id :: id in gone <==> id !in held && id !in faults.unlockable && Due(sorted, first, i, id)
        invariant ok <==> Settled(old(entries), gone, faults)
                          && forall id :: Due(sorted, first, i, id) ==> id in held || id !in faults.unlockable
      {
        var id := sorted[i].id;
        var done := PruneOne(id, held, faults);
        DueNext(sorted, first, i);
        StillSticks(old(entries), gone, id, faults.stuck);
        if id !in held && id !in faults.unlockable {
          WithoutMore(old(entries), gone, id, faults.stuck);
          gone := gone + {id};
        }
        ok := ok && done;
      }
    }

    /**
     Exactly the completed, unheld instances ranked at or after `retain` go, except for what could not be
     locked or removed, which is reported; instances with a record, valid or malformed, and everything that
     is not an artifact stay. What goes depends on the listed entries only as a set.
     */
    method PruneCompletedArtifacts(retain: int, records: seq<string>, malformed: seq<string>, held: set<string>, faults: Faults)
      returns (ok: bool, gone: set<string>)
      modifies this
      ensures entries == Without(old(entries), gone, faults.stuck)
      ensures retain < 0 || faults.unlistable ==> !ok && gone == {}
      ensures retain >= 0 && !faults.unlistable ==>
                var done := Completed(Elements(old(entries)), Elements(records) + Elements(malformed));
                && (forall id :: id in gone <==> MustGo(done, held, retain, id) && id !in faults.unlockable)
                && (ok <==> Settled(old(entries), gone, faults)
                            && forall id :: MustGo(done, held, retain, id) ==> id !in faults.unlockable)
    {
      WithoutNothing(entries, faults.stuck);
      if retain < 0 || faults.unlistable {
        return false, {};
      }
      var protected := Elements(records) + Elements(malformed);
      var candidates := Collect();
      ghost var all := Elements(entries);
      var sorted := SortUnprotected(candidates, protected);
      var first := if retain < |sorted| then retain else |sorted|;
      ok, gone := PruneFrom(sorted, first, held, faults);
      Selected(sorted, candidates, all, protected, retain, held);
      assert forall id :: Due(sorted, first, |sorted|, id) <==> exists j :: retain <= j < |sorted| && sorted[j].id == id;
    }

    /** The candidates without a record, newest first. */
    method SortUnprotected(candidates: map<string, nat>, protected: set<string>) returns (sorted: seq<Artifact>)
      ensures Sorted(sorted, Before)
      ensures forall a :: a in sorted <==> a.id in candidates && candidates[a.id] == a.modified && a.id !in protected
    {
      sorted := [];
      var left := candidates.Keys;
      while left != {}
        invariant left <= candidates.Keys && Sorted(sorted, Before)
        invariant forall a :: a in sorted <==>
                    a.id in candidates && a.id !in left && candidates[a.id] == a.modified && a.id !in protected
        decreases left
      {
        var id :| id in left;
        left := left - {id};
        if id !in protected {
          InsertArtifact(sorted, Artifact(id, candidates[id]));
          sorted := Insert(sorted, Artifact(id, candidates[id]), Before);
        }
      }
    }
  }

  /** The instance is listed in this stretch. */
  predicate Due(sorted: seq<Artifact>, first: nat, end: nat, id: string)
    requires end <= |sorted|
  {
    exists j :: first <= j < end && sorted[j].id == id
  }

  lemma DueNext(sorted: seq<Artifact>, first: nat, i: nat)
    requires first <= i < |sorted|
    ensures forall id :: Due(sorted, first, i + 1, id) <==> id == sorted[i].id || Due(sorted, first, i, id)
  {
    forall id ensures Due(sorted, first, i + 1, id) <==> id == sorted[i].id || Due(sorted, first, i, id) {
      if id == sorted[i].id {
        assert first <= i < i + 1 && sorted[i].id == id;
      }
    }
  }

  /** Removing some instances' files changes nothing about which of another's are stuck. */
  lemma StillSticks(entries: seq<Entry>, gone: set<string>, id: string, stuck: set<Entry>)
    ensures Sticks(Without(entries, gone, stuck), {id}, stuck) <==> Sticks(entries, {id}, stuck)
    ensures Sticks(entries, gone + {id}, stuck) <==> Sticks(entries, gone, stuck) || Sticks(entries, {id}, stuck)
  {
    WithoutSpares(entries, gone, stuck);
  }

  lemma NewestIsUnique(entries: set<Entry>, id: string, s: nat, t: nat)
    requires IsNewest(entries, id, s) && IsNewest(entries, id, t)
    ensures s == t
  {
    var d :| d in entries && IsFrom(d, id, s);
    var e :| e in entries && IsFrom(e, id, t);
  }

  lemma SortedIsCompleted(sorted: seq<Artifact>, candidates: map<string, nat>, all: set<Entry>, protected: set<string>)
    requires forall a :: a in sorted <==> a.id in candidates && candidates[a.id] == a.modified && a.id !in protected
    requires forall x :: x in candidates ==> IsNewest(all, x, candidates[x])
    requires forall e :: e in all && e.id.Some? ==> e.id.value in candidates
    ensures forall a :: a in Completed(all, protected) <==> a in sorted
  {
    forall a ensures a in Completed(all, protected) <==> a in sorted {
      if a in Completed(all, protected) {
        var e :| e in all && IsFrom(e, a.id, a.modified);
        NewestIsUnique(all, a.id, a.modified, candidates[a.id]);
      }
    }
  }

  /** The tail of the sorted list is what must go. */
  lemma Selected(sorted: seq<Artifact>, candidates: map<string, nat>, all: set<Entry>, protected: set<string>,
                 retain: nat, held: set<string>)
    requires Sorted(sorted, Before)
    requires forall a :: a in sorted <==> a.id in candidates && candidates[a.id] == a.modified && a.id !in protected
    requires forall x :: x in candidates ==> IsNewest(all, x, candidates[x])
    requires forall e :: e in all && e.id.Some? ==> e.id.value in candidates
    ensures forall id :: MustGo(Completed(all, protected), held, retain, id) <==>
              id !in held && exists j :: retain <= j < |sorted| && sorted[j].id == id
  {
    SortedIsCompleted(sorted, candidates, all, protected);
    forall id ensures MustGo(Completed(all, protected), held, retain, id) <==>
              id !in held && exists j :: retain <= j < |sorted| && sorted[j].id == id
    {
      TailGoes(sorted, Completed(all, protected), retain, held, id);
    }
  }

  lemma TailGoes(sorted: seq<Artifact>, done: set<Artifact>, retain: nat, held: set<string>, id: string)
    requires Sorted(sorted, Before) && forall a :: a in done <==> a in sorted
    ensures MustGo(done, held, retain, id) <==>
            id !in held && exists j :: retain <= j < |sorted| && sorted[j].id == id
  {
    if MustGo(done, held, retain, id) {
      var a :| a in done && a.id == id && Rank(done, a) >= retain;
      var j :| 0 <= j < |sorted| && sorted[j] == a;
      RankIsIndex(sorted, done, j);
    }
    if j :| retain <= j < |sorted| && sorted[j].id == id {
      RankIsIndex(sorted, done, j);
      assert sorted[j] in done;
    }
  }

  lemma {:induction false} CanBeSorted(done: set<Artifact>) returns (sorted: seq<Artifact>)
    ensures Sorted(sorted, Before) && forall a :: a in done <==> a in sorted
    decreases done
  {
    sorted := [];
    if done != {} {
      var a :| a in done;
      var rest := CanBeSorted(done - {a});
      InsertArtifact(rest, a);
      sorted := Insert(rest, a, Before);
    }
  }

  lemma Smaller<T>(a: set<T>, b: set<T>)
    requires a <= b
    ensures |a| <= |b|
  {
    assert b == a + (b - a);
  }

  /** What survives is the newest: where an instance must go, so must every unheld one that is older, or as old with a smaller ID. */
  lemma OlderGoFirst(done: set<Artifact>, held: set<string>, retain: nat, a: Artifact, b: Artifact)
    requires a in done && b in done && forall x, y :: x in done && y in done && x.id == y.id ==> x == y
    requires b.modified < a.modified || (b.modified == a.modified && Less(b.id, a.id))
    requires MustGo(done, held, retain, a.id) && b.id !in held
    ensures MustGo(done, held, retain, b.id)
  {
    forall c | c in done && Before(c, a) ensures Before(c, b) {
      BeforeIsAnOrder(c, a, b);
    }
    Smaller(set c | c in done && Before(c, a), set c | c in done && Before(c, b));
    assert Rank(done, a) <= Rank(done, b);
  }

  /** Up to `retain` completed instances, nothing goes. */
  lemma FewAllStay(done: set<Artifact>, held: set<string>, retain: nat, id: string)
    requires |done| <= retain
    ensures !MustGo(done, held, retain, id)
  {
    forall a | a in done ensures Rank(done, a) < |done| {
      var before := set b | b in done && Before(b, a);
      BeforeIsAnOrder(a, a, a);
      Smaller(before + {a}, done);
    }
  }

  /** Whatever was completed, no more than `retain` unheld instances survive. */
  lemma AtMostRetained(done: set<Artifact>, held: set<string>, retain: nat)
    ensures |set a | a in done && a.id !in held && !MustGo(done, held, retain, a.id)| <= retain
  {
    var sorted := CanBeSorted(done);
    var n := if retain < |sorted| then retain else |sorted|;
    var kept := set a | a in done && a.id !in held && !MustGo(done, held, retain, a.id);
    forall a | a in kept ensures a in Elements(sorted[..n]) {
      var j :| 0 <= j < |sorted| && sorted[j] == a;
      RankIsIndex(sorted, done, j);
      assert a == sorted[..n][j];
    }
    CountSorted(sorted[..n]);
    FewerIn(kept, Elements(sorted[..n]));
  }

  lemma {:induction false} FewerIn<T>(a: set<T>, b: set<T>)
    requires a <= b
    ensures |a| <= |b|
  {
    if a != {} {
      var x :| x in a;
      FewerIn(a - {x}, b - {x});
    }
  }
}
