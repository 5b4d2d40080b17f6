/**
 Waiting for an attached tmux client to take the captured geometry (verifyViewerGeometry in
 internal/mirror/viewer.go). The counter is reset once, after the one correction, so discovery and
 convergence are each bounded.
 */
module ViewerGeometry {
  const Attempts: nat := 200 // viewerGeometryAttempts, two seconds of ten-millisecond polls

  datatype Geometry = Geometry(columns: nat, rows: nat, statusRows: nat)

  datatype Client = Client(
    window: string, flags: seq<string>, columns: nat, rows: nat, windowColumns: nat, windowRows: nat,
    windowBigger: bool, statusRows: nat)

  datatype Reply = Unattached | QueryFails | Attached(client: Client)

  /** What tmux and the clock will answer; queries and waits are numbered as they happen. */
  datatype World = World(reply: nat -> Reply, waits: nat -> bool, resizes: bool, refreshes: bool)

  datatype Outcome = Verified | Stopped | WrongWindow | NotCorrected | NoConvergence

  predicate Matches(g: Geometry, win: string, c: Client) {
    && c.window == win && "ignore-size" in c.flags && c.columns == g.columns && c.rows == g.rows
    && c.windowColumns == g.columns && !c.windowBigger && c.statusRows == g.statusRows
    && c.windowRows + g.statusRows == g.rows
  }

  /** The client shows this window, leaves its size alone, and window and status lines together fill the captured rows. */
  predicate Fits(g: Geometry, win: string, reply: Reply) {
    && reply.Attached? && reply.client.window == win && (exists i :: 0 <= i < |reply.client.flags| && reply.client.flags[i] == "ignore-size")
    && reply.client.columns == reply.client.windowColumns == g.columns && reply.client.rows == g.rows
    && reply.client.statusRows == g.statusRows && reply.client.windowRows + reply.client.statusRows == reply.client.rows
    && !reply.client.windowBigger
  }

  lemma FitsIsHit(w: World, g: Geometry, win: string, k: nat)
    ensures Hit(w, g, win, k) <==> Fits(g, win, w.reply(k))
  {
  }

  predicate Hit(w: World, g: Geometry, win: string, k: nat) {
    w.reply(k).Attached? && Matches(g, win, w.reply(k).client)
  }

  /** A query that neither settles the matter nor ends the attempt. */
  predicate Quiet(w: World, g: Geometry, win: string, k: nat) {
    && w.waits(k) && !Hit(w, g, win, k)
    && (w.reply(k).Unattached? || (w.reply(k).Attached? && w.reply(k).client.window == win))
  }

  /** The first query that found the client attached, if it is query `d`. */
  predicate FirstSeen(w: World, d: nat) {
    w.reply(d).Attached? && forall j: nat :: j < d ==> !w.reply(j).Attached?
  }

  /** Query `k` is one the two bounded phases reach. */
  predicate InBudget(w: World, k: nat) {
    if forall j: nat :: j < k ==> !w.reply(j).Attached? then k < Attempts
    else exists d: nat :: d < k && d < Attempts && FirstSeen(w, d) && k <= d + Attempts && w.resizes && w.refreshes
  }

  predicate Settles(w: World, g: Geometry, win: string, k: nat) {
    Hit(w, g, win, k) && InBudget(w, k) && forall j: nat :: j < k ==> Quiet(w, g, win, j)
  }

  /** At most one query settles. */
  lemma SettlesOnce(w: World, g: Geometry, win: string, j: nat, k: nat)
    requires Settles(w, g, win, j) && Settles(w, g, win, k)
    ensures j == k
  {
    assert j < k ==> Quiet(w, g, win, j);
    assert k < j ==> Quiet(w, g, win, k);
  }

  method VerifyViewerGeometry(w: World, g: Geometry, win: string) returns (outcome: Outcome, queries: nat, corrections: nat)
    ensures queries <= 2 * Attempts && corrections <= 1
    ensures outcome.Verified? ==> queries > 0 && Settles(w, g, win, queries - 1) && Fits(g, win, w.reply(queries - 1))
    ensures !outcome.Verified? ==> forall k: nat :: !Settles(w, g, win, k)
    ensures outcome.WrongWindow? ==>
              queries > 0 && w.reply(queries - 1).Attached? && w.reply(queries - 1).client.window != win
    ensures outcome.Stopped? ==> queries > 0 && (w.reply(queries - 1).QueryFails? || !w.waits(queries - 1))
    ensures outcome.NotCorrected? ==> queries > 0 && FirstSeen(w, queries - 1) && corrections == 0 && !(w.resizes && w.refreshes)
    ensures corrections == 1 ==> w.resizes && w.refreshes && exists d: nat :: d < queries && FirstSeen(w, d)
    ensures corrections == 0 ==> forall j: nat :: j < queries - 1 ==> !w.reply(j).Attached?
    ensures outcome.NoConvergence? ==> queries >= Attempts && forall j: nat :: j < queries ==> Quiet(w, g, win, j)
  {
    queries, corrections := 0, 0;
    var corrected, attempt := false, 0;
    ghost var seen: nat := 0;
    while attempt < Attempts
      invariant 0 <= attempt <= Attempts
      invariant corrections == if corrected then 1 else 0
      invariant !corrected ==> queries == attempt && forall j: nat :: j < queries ==> !w.reply(j).Attached?
      invariant corrected ==>
                  seen < Attempts && FirstSeen(w, seen) && queries == seen + 1 + attempt && w.resizes && w.refreshes
      invariant forall j: nat :: j < queries ==> Quiet(w, g, win, j)
      decreases !corrected, Attempts - attempt
    {
      ghost var k := queries;
      var reply := w.reply(queries);
      queries := queries + 1;
      match reply {
        case QueryFails =>
          NeverAfter(w, g, win, k);
          return Stopped, queries, corrections;
        case Unattached =>
          if !w.waits(queries - 1) {
            NeverAfter(w, g, win, k);
            return Stopped, queries, corrections;
          }
        case Attached(client) =>
          if client.window != win {
            NeverAfter(w, g, win, k);
            return WrongWindow, queries, corrections;
          }
          if Matches(g, win, client) {
            FitsIsHit(w, g, win, k);
            return Verified, queries, corrections;
          }
          if !corrected {
            if !w.resizes || !w.refreshes {
              NeverUncorrected(w, g, win, k);
              return NotCorrected, queries, corrections;
            }
            corrected, corrections, seen := true, 1, k;
            assert FirstSeen(w, seen);
            attempt := -1;
          }
          if !w.waits(queries - 1) {
            NeverAfter(w, g, win, k);
            return Stopped, queries, corrections;
          }
      }
      attempt := attempt + 1;
    }
    OutOfBudget(w, g, win, queries, corrected, seen);
    return NoConvergence, queries, corrections;
  }

  /** After a query that ends the attempt nothing settles. */
  lemma NeverAfter(w: World, g: Geometry, win: string, k: nat)
    requires forall j: nat :: j < k ==> Quiet(w, g, win, j)
    requires !Quiet(w, g, win, k) && !Hit(w, g, win, k)
    ensures forall j: nat :: !Settles(w, g, win, j)
  {
    forall j: nat ensures !Settles(w, g, win, j) {
      if j < k {
        assert Quiet(w, g, win, j);
      } else if k < j {
        assert !Quiet(w, g, win, k);
      }
    }
  }

  lemma NeverUncorrected(w: World, g: Geometry, win: string, k: nat)
    requires forall j: nat :: j < k ==> Quiet(w, g, win, j)
    requires w.reply(k).Attached? && !Hit(w, g, win, k) && !(w.resizes && w.refreshes)
    ensures forall j: nat :: !Settles(w, g, win, j)
  {
    forall j: nat ensures !Settles(w, g, win, j) {
      if j < k {
        assert Quiet(w, g, win, j);
      } else if k < j {
        assert !InBudget(w, j);
      }
    }
  }

  lemma OutOfBudget(w: World, g: Geometry, win: string, n: nat, corrected: bool, seen: nat)
    requires forall j: nat :: j < n ==> Quiet(w, g, win, j)
    requires if corrected then FirstSeen(w, seen) && n == seen + 1 + Attempts
             else n == Attempts && forall j: nat :: j < n ==> !w.reply(j).Attached?
    ensures forall j: nat :: !Settles(w, g, win, j)
  {
    forall j: nat ensures !Settles(w, g, win, j) {
      if j < n {
        assert Quiet(w, g, win, j);
      } else {
        FirstSeenOnce(w, seen);
        assert corrected ==> w.reply(seen).Attached?;
        assert !InBudget(w, j);
      }
    }
  }

  lemma FirstSeenOnce(w: World, d: nat)
    ensures FirstSeen(w, d) ==> forall e: nat :: FirstSeen(w, e) ==> e == d
  {
    if FirstSeen(w, d) {
      forall e: nat | FirstSeen(w, e) ensures e == d {
        assert e < d ==> !w.reply(e).Attached?;
      }
    }
  }
}
