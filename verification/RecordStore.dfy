/**
 The instance records and the selectors that name them (Create, RenameIfPID, RemoveIfPID, Resolve and the
 reading they share, in internal/instance/store.go). Every operation holds the store's lock. A record lives
 in a file named by its ID; files may hold something else, and are then reported and otherwise ignored.
 */
module RecordStore {
  import opened Options
  import opened Ordering

  datatype Record = Record(id: string, name: string, pid: nat, target: string) // the target by its key

  /** What a file holds: a record that decodes and validates, or something that does not. */
  datatype File = Holds(record: Record) | Malformed

  type Files = map<string, File>

  datatype Error = Invalid | IdExists | NameExists | NameIsAnId | IdIsAName | TargetTaken | FileExists | Unreadable | StorageFails
    | NotFound | Ambiguous(count: nat)
  datatype Result<T> = Ok(value: T) | Err(error: Error)

  /** What Record.Validate, the ID pattern and ValidateName accept. */
  datatype Rules = Rules(id: string -> bool, name: string -> bool, record: Record -> bool)

  ghost predicate Coherent(rules: Rules) {
    forall r :: rules.record(r) ==> rules.id(r.id) && rules.name(r.name) && r.pid > 0
  }

  // ----- the records of a store -----

  predicate IsListed(files: Files, r: Record) {
    r.id in files && files[r.id] == Holds(r)
  }

  predicate Compatible(a: Record, b: Record) {
    a.id != b.id && a.name != b.name && a.target != b.target && a.name != b.id && b.name != a.id
  }

  /** IDs, names and target keys are pairwise distinct, and no name is another record's ID. */
  ghost predicate Distinct(files: Files) {
    forall a, b :: IsListed(files, a) && IsListed(files, b) && a.id != b.id ==> Compatible(a, b)
  }

  /** The order in which records are read: by name, then by ID. */
  predicate Before(a: Record, b: Record) {
    Less(a.name, b.name) || (a.name == b.name && Less(a.id, b.id))
  }

  lemma BeforeIsOrder()
    ensures IsOrder(Before)
  {
    forall a, b, c | Before(a, b) && Before(b, c) ensures Before(a, c) {
      if Less(a.name, b.name) && Less(b.name, c.name) {
        LessIsTransitive(a.name, b.name, c.name);
      } else if a.name == b.name && b.name == c.name {
        LessIsTransitive(a.id, b.id, c.id);
      }
    }
    forall a ensures !Before(a, a) {
      LessIsTotal(a.name, a.name);
      LessIsTotal(a.id, a.id);
    }
  }

  lemma BeforeIsTotal(a: Record, b: Record)
    ensures a.id != b.id ==> Before(a, b) || Before(b, a)
  {
    LessIsTotal(a.name, b.name);
    LessIsTotal(a.id, b.id);
  }

  /** `records` is what reading the store yields. */
  ghost predicate Listing(files: Files, records: seq<Record>) {
    Sorted(records, Before) && forall r :: r in records <==> IsListed(files, r)
  }

  // ----- selecting -----

  predicate Exact(r: Record, selector: string) {
    r.name == selector || r.id == selector
  }

  predicate HasPrefix(r: Record, selector: string) {
    selector <= r.id
  }

  function Where(records: seq<Record>, p: Record -> bool): seq<Record> {
    if records == [] then []
    else Where(records[..|records| - 1], p) + if p(records[|records| - 1]) then [records[|records| - 1]] else []
  }

  lemma {:induction false} WhereIn(records: seq<Record>, p: Record -> bool)
    ensures forall r :: r in Where(records, p) <==> r in records && p(r)
  {
    if records != [] {
      var n := |records| - 1;
      WhereIn(records[..n], p);
      assert records == records[..n] + [records[n]];
    }
  }

  lemma {:induction false} WhereSorted(records: seq<Record>, p: Record -> bool)
    requires Sorted(records, Before)
    ensures Sorted(Where(records, p), Before)
  {
    if records != [] {
      var n := |records| - 1;
      WhereSorted(records[..n], p);
      WhereIn(records[..n], p);
      forall i | 0 <= i < |Where(records[..n], p)| ensures Before(Where(records[..n], p)[i], records[n]) {
        assert Where(records[..n], p)[i] in records[..n];
      }
    }
  }

  function Outcome(records: seq<Record>, selector: string): Result<Record> {
    var exact := Where(records, r => Exact(r, selector));
    if |exact| == 1 then Ok(exact[0])
    else if |exact| > 1 then Err(Ambiguous(|exact|))
    else
      var matches := Where(records, r => HasPrefix(r, selector));
      if |matches| == 0 then Err(NotFound) else if |matches| == 1 then Ok(matches[0]) else Err(Ambiguous(|matches|))
  }

  /** The records in the store. */
  function Listed(files: Files): set<Record> {
    set id | id in files && files[id].Holds? && files[id].record.id == id :: files[id].record
  }

  lemma ListedIsListed(files: Files)
    ensures forall r :: r in Listed(files) <==> IsListed(files, r)
  {
    forall r | IsListed(files, r) ensures r in Listed(files) {
      assert files[r.id].record == r;
    }
  }

  lemma {:induction false} WhereCounts(records: seq<Record>, p: Record -> bool)
    requires Sorted(records, Before)
    ensures |Where(records, p)| == |set r | r in records && p(r)|
  {
    var all := set r | r in records && p(r);
    if records == [] {
      assert all == {};
    } else {
      var (rest, last) := (records[..|records| - 1], records[|records| - 1]);
      WhereCounts(rest, p);
      BeforeIsOrder();
      assert records == rest + [last];
      assert last !in rest;
      var few := set r | r in rest && p(r);
      assert all == if p(last) then few + {last} else few;
    }
  }

  /** An ambiguous selector is reported with the number of IDs it begins, when it is nobody's name or ID. */
  lemma AmbiguityCounts(files: Files, records: seq<Record>, selector: string, n: nat)
    requires Listing(files, records) && Distinct(files)
    ensures Outcome(records, selector) == Err(Ambiguous(n)) <==>
            n > 1 && n == |set r | r in Listed(files) && HasPrefix(r, selector)|
            && forall r :: IsListed(files, r) ==> !Exact(r, selector)
  {
    var exact := Where(records, q => Exact(q, selector));
    ExactIsUnique(files, records, selector);
    WhereIn(records, q => Exact(q, selector));
    var begins := (q: Record) => HasPrefix(q, selector);
    WhereCounts(records, begins);
    ListedIsListed(files);
    assert (set r | r in records && begins(r)) == set r | r in Listed(files) && HasPrefix(r, selector);
    assert Where(records, begins) == Where(records, q => HasPrefix(q, selector));
    if |exact| > 0 {
      assert exact[0] in exact;
      assert IsListed(files, exact[0]) && Exact(exact[0], selector);
    } else {
      forall r | IsListed(files, r) ensures !Exact(r, selector) {
        assert r !in exact;
      }
    }
  }

  lemma FirstTwo(s: seq<Record>)
    requires Sorted(s, Before)
    ensures |s| > 0 ==> s[0] in s
    ensures |s| > 1 ==> s[1] in s && s[0] != s[1]
  {
    BeforeIsOrder();
  }

  lemma SameExact(files: Files, a: Record, b: Record, selector: string)
    requires Distinct(files) && IsListed(files, a) && IsListed(files, b) && Exact(a, selector) && Exact(b, selector)
    ensures a == b
  {
  }

  lemma ExactIsUnique(files: Files, records: seq<Record>, selector: string)
    requires Listing(files, records) && Distinct(files)
    ensures |Where(records, r => Exact(r, selector))| <= 1
  {
    var exact := Where(records, r => Exact(r, selector));
    WhereSorted(records, r => Exact(r, selector));
    WhereIn(records, r => Exact(r, selector));
    FirstTwo(exact);
    forall a, b | a in exact && b in exact ensures a == b {
      SameExact(files, a, b, selector);
    }
  }

  /** The one element of a selection is the one record that satisfies the predicate. */
  lemma OnlyOne(records: seq<Record>, p: Record -> bool, r: Record)
    requires Sorted(records, Before)
    ensures Where(records, p) == [r] <==> r in records && p(r) && forall q :: q in records && p(q) ==> q == r
  {
    var s := Where(records, p);
    WhereIn(records, p);
    WhereSorted(records, p);
    FirstTwo(s);
    assert s == [r] ==> r in s && forall q :: q in s ==> q == r;
    assert r in s && (forall q :: q in s ==> q == r) ==> s == [r];
  }

  ghost predicate Selects(files: Files, selector: string, r: Record) {
    && IsListed(files, r)
    && (Exact(r, selector)
        || (HasPrefix(r, selector)
            && forall q :: IsListed(files, q) ==> !Exact(q, selector) && (HasPrefix(q, selector) ==> q == r)))
  }

  /**
   A selector resolves to a record exactly when it is that record's name or ID, or when it is nobody's
   name or ID and a prefix of that one's ID alone.
   */
  lemma ResolveIsSound(files: Files, records: seq<Record>, selector: string, r: Record)
    requires Listing(files, records) && Distinct(files)
    ensures Outcome(records, selector) == Ok(r) <==> Selects(files, selector, r)
  {
    ExactIsUnique(files, records, selector);
    var exact := Where(records, q => Exact(q, selector));
    WhereIn(records, q => Exact(q, selector));
    OnlyOne(records, q => HasPrefix(q, selector), r);
    var matches := Where(records, q => HasPrefix(q, selector));
    if |exact| == 1 {
      assert exact == [exact[0]] && exact[0] in exact;
      OnlyOne(records, q => Exact(q, selector), exact[0]);
      assert IsListed(files, exact[0]);
    } else {
      assert exact == [];
      assert forall q :: q in records ==> !Exact(q, selector) by {
        assert forall q :: q !in exact;
      }
      assert |matches| == 1 ==> matches == [matches[0]];
    }
  }

  /** This selector is nobody's name or ID and begins the ID of `r` alone. */
  ghost predicate BeginsOnly(files: Files, selector: string, r: Record) {
    && selector <= r.id
    && forall q :: IsListed(files, q) ==> q.name != selector && q.id != selector && (selector <= q.id ==> q == r)
  }

  /** Every record is found by its own name and its own ID, and by any beginning of its ID that is nobody's name or ID and begins no other. */
  lemma FindsItsOwn(files: Files, records: seq<Record>, r: Record, selector: string)
    requires Listing(files, records) && Distinct(files) && IsListed(files, r)
    ensures Outcome(records, r.name) == Ok(r) && Outcome(records, r.id) == Ok(r)
    ensures BeginsOnly(files, selector, r) ==> Outcome(records, selector) == Ok(r)
  {
    ResolveIsSound(files, records, r.name, r);
    ResolveIsSound(files, records, r.id, r);
    ResolveIsSound(files, records, selector, r);
  }

  // ----- the store -----

  /** Why a new record is refused by an existing one, checked ID first, target last. */
  function Clash(existing: Record, r: Record): Option<Error> {
    if existing.id == r.id then Some(IdExists)
    else if existing.name == r.name then Some(NameExists)
    else if existing.id == r.name then Some(NameIsAnId)
    else if existing.name == r.id then Some(IdIsAName)
    else if existing.target == r.target then Some(TargetTaken)
    else None
  }

  /** Which clash is reported: the ID's before the name's, those before a name meeting an ID, and the target's last. */
  lemma ClashIsExactly(q: Record, r: Record)
    ensures Clash(q, r) == Some(IdExists) <==> q.id == r.id
    ensures Clash(q, r) == Some(NameExists) <==> q.id != r.id && q.name == r.name
    ensures Clash(q, r) == Some(NameIsAnId) <==> q.id != r.id && q.name != r.name && q.id == r.name
    ensures Clash(q, r) == Some(IdIsAName) <==> q.id != r.id && q.name != r.name && q.id != r.name && q.name == r.id
    ensures Clash(q, r) == Some(TargetTaken) <==> Compatible(q, r.(target := q.target + "#")) && q.target == r.target
  {
    assert |q.target + "#"| > |q.target|;
  }

  lemma ClashIsIncompatibility(a: Record, b: Record)
    ensures Clash(a, b).None? <==> Compatible(a, b)
  {
  }

  /** How a file is written: entirely; not at all; or with an error after it was put in place. */
  datatype Writing = Written | Lost | Unsynced

  /** What the file system will do: let the store be locked and listed, let a file be removed, and how it writes. */
  datatype Storage = Storage(lists: bool, removes: bool, writing: Writing)

  /** Nothing in the store clashes with the record, and its file name is free. */
  ghost predicate Admissible(files: Files, r: Record) {
    r.id !in files && forall q :: IsListed(files, q) ==> Compatible(q, r)
  }

  class Store {
    const rules: Rules
    var files: Files

    ghost predicate Valid()
      reads this
    {
      Distinct(files) && Coherent(rules)
    }

    constructor (rules: Rules, files: Files)
      requires Coherent(rules) && Distinct(files)
      ensures Valid() && this.files == files && this.rules == rules
    {
      this.rules := rules;
      this.files := files;
    }

    /** The records by name and then ID, and the files that hold none of their own. */
    method ReadAll() returns (records: seq<Record>, problems: set<string>)
      ensures Listing(files, records)
      ensures problems == set id | id in files && !(files[id].Holds? && files[id].record.id == id)
    {
      records, problems := [], {};
      BeforeIsOrder();
      var left := files.Keys;
      while left != {}
        invariant left <= files.Keys && Sorted(records, Before)
        invariant forall r :: r in records <==> IsListed(files, r) && r.id !in left
        invariant problems == set id | id in files && id !in left && !(files[id].Holds? && files[id].record.id == id)
        decreases left
      {
        var id :| id in left;
        left := left - {id};
        if files[id].Malformed? || files[id].record.id != id {
          problems := problems + {id};
        } else {
          var r := files[id].record;
          forall x | x in records ensures Before(r, x) || Before(x, r) {
            BeforeIsTotal(r, x);
          }
          InsertSorts(records, r, Before);
          InsertHolds(records, r, Before);
          records := Insert(records, r, Before);
        }
      }
    }

    /**
     Refuses whatever would make a selector mean two things, reporting the first clash in reading order. A
     record can be in place even though its writing reported an error.
     */
    method Create(r: Record, io: Storage) returns (error: Option<Error>)
      requires Valid()
      modifies this
      ensures Valid()
      ensures var admitted := rules.record(r) && io.lists && Admissible(old(files), r);
              && (error.None? <==> admitted && io.writing.Written?)
              && files == if admitted && !io.writing.Lost? then old(files)[r.id := Holds(r)] else old(files)
      ensures !rules.record(r) ==> error == Some(Invalid)
      ensures error.None? ==> forall q :: IsListed(old(files), q) ==>
                q.id != r.id && q.name != r.name && q.target != r.target && q.name != r.id && q.id != r.name
      ensures error == Some(StorageFails) ==> !io.lists || !io.writing.Written?
      ensures error == Some(FileExists) ==> r.id in old(files) && !IsListed(old(files), r)
      ensures error.Some? && error.value !in {Invalid, FileExists, StorageFails} ==>
                exists q :: IsListed(old(files), q) && Clash(q, r) == error
                            && forall p :: IsListed(old(files), p) && Before(p, q) ==> Compatible(p, r)
    {
      if !rules.record(r) {
        return Some(Invalid);
      }
      if !io.lists {
        return Some(StorageFails);
      }
      var records, problems := ReadAll();
      for i := 0 to |records|
        invariant files == old(files)
        invariant forall j :: 0 <= j < i ==> Compatible(records[j], r)
      {
        ClashIsIncompatibility(records[i], r);
        if Clash(records[i], r).Some? {
          assert records[i] in records;
          EarlierOnly(files, records, i);
          return Clash(records[i], r);
        }
      }
      if r.id in files {
        return Some(FileExists);
      }
      AddKeepsDistinct(files, r);
      if !io.writing.Lost? {
        files := files[r.id := Holds(r)];
      }
      return if io.writing.Written? then None else Some(StorageFails);
    }

    /** The record of that ID and process, if reading finds it and nobody else answers to the name. */
    method Find(id: string, pid: nat, name: string) returns (found: Result<Option<Record>>)
      requires Valid()
      ensures found.Err? <==> exists q :: IsListed(files, q) && q.id != id && Exact(q, name)
      ensures found == Err(NameExists) ==> exists q :: IsListed(files, q) && q.id != id && q.name == name
      ensures found == Err(NameIsAnId) ==> exists q :: IsListed(files, q) && q.id != id && q.id == name
      ensures found.Err? ==> found.error in {NameExists, NameIsAnId}
      ensures found.Ok? && found.value.Some? ==> var r := found.value.value; IsListed(files, r) && r.id == id && r.pid == pid
      ensures found.Ok? && found.value.None? ==> forall q :: IsListed(files, q) ==> !(q.id == id && q.pid == pid)
    {
      var records, problems := ReadAll();
      var current: Option<Record> := None;
      for i := 0 to |records|
        invariant forall j :: 0 <= j < i ==> !(records[j].id != id && Exact(records[j], name))
        invariant current.None? ==> forall j :: 0 <= j < i ==> !(records[j].id == id && records[j].pid == pid)
        invariant current.Some? ==> IsListed(files, current.value) && current.value.id == id && current.value.pid == pid
      {
        assert records[i] in records;
        if records[i].name == name && records[i].id != id {
          return Err(NameExists);
        }
        if records[i].id == name && records[i].id != id {
          return Err(NameIsAnId);
        }
        if records[i].id == id && records[i].pid == pid {
          current := Some(records[i]);
        }
      }
      assert forall q :: IsListed(files, q) ==> q in records;
      return Ok(current);
    }

    /** Renames in place; a record may take its own ID as its name. */
    method RenameIfPID(id: string, pid: nat, name: string, io: Storage) returns (result: Result<bool>)
      requires Valid()
      modifies this
      ensures Valid()
      ensures var asked := rules.id(id) && pid > 0 && rules.name(name);
              var free := forall q :: IsListed(old(files), q) && q.id != id ==> !Exact(q, name);
              var owned := exists q :: IsListed(old(files), q) && q.id == id && q.pid == pid;
              && (result == Ok(true) <==> asked && io.lists && free && owned && io.writing.Written?)
              && (result == Ok(false) <==> asked && io.lists && free && !owned)
              && (result == Err(Invalid) <==> !asked)
              && (asked && io.lists && free && owned && !io.writing.Lost? ==> Renamed(old(files), files, id, pid, name))
              && (!(asked && io.lists && free && owned && !io.writing.Lost?) ==> files == old(files))
      ensures result == Ok(true) ==> forall q :: IsListed(old(files), q) && q.id != id ==> q.name != name && q.id != name
      ensures result == Err(NameExists) ==> exists q :: IsListed(old(files), q) && q.id != id && q.name == name
      ensures result == Err(NameIsAnId) ==> exists q :: IsListed(old(files), q) && q.id != id && q.id == name
      ensures result == Err(StorageFails) ==> !io.lists || !io.writing.Written?
      ensures result.Err? ==> result.error in {Invalid, NameExists, NameIsAnId, StorageFails}
    {
      if !rules.id(id) || pid == 0 || !rules.name(name) {
        return Err(Invalid);
      }
      if !io.lists {
        return Err(StorageFails);
      }
      var found := Find(id, pid, name);
      if found.Err? {
        return Err(found.error);
      }
      if found.value.None? {
        return Ok(false);
      }
      RenameKeepsDistinct(files, found.value.value, name);
      if !io.writing.Lost? {
        files := files[id := Holds(found.value.value.(name := name))];
      }
      return if io.writing.Written? then Ok(true) else Err(StorageFails);
    }

    /** Removes a record only when the file holds it for that process; a file it cannot read is an error. */
    method RemoveIfPID(id: string, pid: nat, io: Storage) returns (result: Result<bool>)
      requires Valid()
      modifies this
      ensures Valid()
      ensures var asked := rules.id(id) && pid > 0;
              var owned := exists q :: IsListed(old(files), q) && q.id == id && q.pid == pid;
              && (result == Err(Invalid) <==> !asked)
              && (result == Err(Unreadable) <==> asked && io.lists && id in old(files) && old(files)[id].Malformed?)
              && (result == Ok(true) <==> asked && io.lists && owned && io.removes)
              && (result == Err(StorageFails) <==> asked && (!io.lists || (owned && !io.removes)))
      ensures result.Err? ==> result.error in {Invalid, Unreadable, StorageFails}
      ensures files == if result == Ok(true) then old(files) - {id} else old(files)
    {
      if !rules.id(id) || pid == 0 {
        return Err(Invalid);
      }
      if !io.lists {
        return Err(StorageFails);
      }
      if id !in files {
        return Ok(false);
      }
      if files[id].Malformed? {
        return Err(Unreadable);
      }
      var r := files[id].record;
      if r.id != id || r.pid != pid {
        return Ok(false);
      }
      assert IsListed(files, r);
      if !io.removes {
        return Err(StorageFails);
      }
      RemoveKeepsDistinct(files, id);
      files := files - {id};
      return Ok(true);
    }

    method Resolve(selector: string, lists: bool) returns (result: Result<Record>)
      requires Valid()
      ensures forall r :: result == Ok(r) <==> lists && Selects(files, selector, r)
      ensures result == Err(NotFound) <==>
              lists && forall r :: IsListed(files, r) ==> !Exact(r, selector) && !HasPrefix(r, selector)
      ensures result == Err(StorageFails) <==> !lists
      ensures forall n :: result == Err(Ambiguous(n)) <==>
                lists && n > 1 && n == |set r | r in Listed(files) && HasPrefix(r, selector)|
                && forall r :: IsListed(files, r) ==> !Exact(r, selector)
      ensures result.Err? && lists ==> result.error.NotFound? || result.error.Ambiguous?
    {
      if !lists {
        return Err(StorageFails);
      }
      var records, problems := ReadAll();
      var exact := [];
      for i := 0 to |records|
        invariant exact == Where(records[..i], r => Exact(r, selector))
      {
        assert records[..i + 1][..i] == records[..i];
        if records[i].name == selector || records[i].id == selector {
          exact := exact + [records[i]];
        }
      }
      assert records[..|records|] == records;
      var matches := [];
      for i := 0 to |records|
        invariant matches == Where(records[..i], r => HasPrefix(r, selector))
      {
        assert records[..i + 1][..i] == records[..i];
        if selector <= records[i].id {
          matches := matches + [records[i]];
        }
      }
      result := if |exact| == 1 then Ok(exact[0])
                else if |exact| > 1 then Err(Ambiguous(|exact|))
                else if |matches| == 0 then Err(NotFound)
                else if |matches| == 1 then Ok(matches[0])
                else Err(Ambiguous(|matches|));
      assert result == Outcome(records, selector);
      forall r ensures result == Ok(r) <==> Selects(files, selector, r) {
        ResolveIsSound(files, records, selector, r);
      }
      Found(files, records, selector);
      forall n: nat ensures result == Err(Ambiguous(n)) <==>
                            n > 1 && n == |set r | r in Listed(files) && HasPrefix(r, selector)|
                            && forall r :: IsListed(files, r) ==> !Exact(r, selector) {
        AmbiguityCounts(files, records, selector, n);
      }
    }
  }

  /** That record, and nothing else, bears a new name. */
  ghost predicate Renamed(before: Files, after: Files, id: string, pid: nat, name: string) {
    exists r :: IsListed(before, r) && r.id == id && r.pid == pid && after == before[id := Holds(r.(name := name))]
  }

  lemma InOrder(records: seq<Record>, i: nat, j: nat)
    requires Sorted(records, Before)
    ensures i < j < |records| ==> !Before(records[j], records[i])
    ensures i < |records| ==> !Before(records[i], records[i])
  {
    BeforeIsOrder();
  }

  lemma EarlierOnly(files: Files, records: seq<Record>, i: nat)
    requires Listing(files, records) && i < |records|
    ensures forall p :: IsListed(files, p) && Before(p, records[i]) ==> p in records[..i]
  {
    forall p | IsListed(files, p) && Before(p, records[i]) ensures p in records[..i] {
      assert p in records;
      var j :| 0 <= j < |records| && records[j] == p;
      InOrder(records, i, j);
      assert p == records[..i][j];
    }
  }

  lemma AddKeepsDistinct(files: Files, r: Record)
    requires Distinct(files) && forall q :: IsListed(files, q) ==> Compatible(q, r)
    ensures Distinct(files[r.id := Holds(r)])
  {
    forall a, b | IsListed(files[r.id := Holds(r)], a) && IsListed(files[r.id := Holds(r)], b) && a.id != b.id ensures Compatible(a, b) {
      assert a.id != r.id ==> IsListed(files, a);
      assert b.id != r.id ==> IsListed(files, b);
    }
  }

  lemma RenameKeepsDistinct(files: Files, r: Record, name: string)
    requires Distinct(files) && IsListed(files, r) && forall q :: IsListed(files, q) && q.id != r.id ==> !Exact(q, name)
    ensures Distinct(files[r.id := Holds(r.(name := name))])
  {
    var renamed := files[r.id := Holds(r.(name := name))];
    forall a, b | IsListed(renamed, a) && IsListed(renamed, b) && a.id != b.id ensures Compatible(a, b) {
      assert a.id != r.id ==> IsListed(files, a);
      assert b.id != r.id ==> IsListed(files, b);
      assert a.id == r.id ==> Compatible(r, b);
      assert b.id == r.id ==> Compatible(a, r);
    }
  }

  lemma RemoveKeepsDistinct(files: Files, id: string)
    requires Distinct(files)
    ensures Distinct(files - {id})
  {
    forall a | IsListed(files - {id}, a) ensures IsListed(files, a) {}
  }

  lemma Found(files: Files, records: seq<Record>, selector: string)
    requires Listing(files, records)
    ensures Outcome(records, selector) == Err(NotFound) <==>
            forall r :: IsListed(files, r) ==> !Exact(r, selector) && !HasPrefix(r, selector)
  {
    var exact := Where(records, q => Exact(q, selector));
    var matches := Where(records, q => HasPrefix(q, selector));
    WhereIn(records, q => Exact(q, selector));
    WhereIn(records, q => HasPrefix(q, selector));
    assert |exact| > 0 ==> exact[0] in exact;
    assert |matches| > 0 ==> matches[0] in matches;
  }
}
