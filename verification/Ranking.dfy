/** The order entries wait in, and what selection takes from it. */
module Ranking {
  import opened Vocabulary
  import opened States
  import opened Tables

  /** ORDER BY priority DESC, id ASC. */
  predicate Before(es: seq<EntryRow>, a: EntryId, b: EntryId) {
    a < |es| && b < |es| &&
    (es[a].priority > es[b].priority || (es[a].priority == es[b].priority && a < b))
  }

  ghost predicate Ranked(es: seq<EntryRow>, ids: seq<EntryId>) {
    && (forall i :: 0 <= i < |ids| ==> ids[i] < |es|)
    && (forall i, j :: 0 <= i < j < |ids| ==> Before(es, ids[i], ids[j]))
  }

  function Insert(es: seq<EntryRow>, ids: seq<EntryId>, n: EntryId): (r: seq<EntryId>)
    requires n < |es| && Ranked(es, ids) && forall e :: e in ids ==> e < n
    ensures Ranked(es, r)
    ensures forall e :: e in r <==> e == n || e in ids
  {
    if ids == [] then [n]
    else if Before(es, n, ids[0]) then [n] + ids
    else
      assert forall e :: e in ids[1..] ==> e in ids;
      var rest := Insert(es, ids[1..], n);
      assert forall i :: 0 <= i < |rest| ==> rest[i] in rest;
      assert forall e :: e in ids[1..] ==> Before(es, ids[0], e);
      assert ids[0] in ids;
      assert Before(es, ids[0], n);
      assert forall e :: e in rest ==> Before(es, ids[0], e);
      [ids[0]] + rest
  }

  function Rank(es: seq<EntryRow>, keep: set<EntryId>, n: nat): (r: seq<EntryId>)
    requires n <= |es|
    ensures Ranked(es, r)
    ensures forall e :: e in r <==> e in keep && e < n
  {
    if n == 0 then []
    else
      var before := Rank(es, keep, n - 1);
      if n - 1 in keep then Insert(es, before, n - 1) else before
  }

  predicate Lives(db: Db, q: Queue, e: EntryId) {
    e < |db.entries| && db.entries[e].queue == q && db.entries[e].state.IsLive()
  }

  /** Every live entry of a queue, in the order it is owed. */
  function Line(db: Db, q: Queue): (r: seq<EntryId>)
    ensures Ranked(db.entries, r)
    ensures forall e :: e in r <==> Lives(db, q, e)
  {
    Rank(db.entries, set e: nat | e < |db.entries| && Lives(db, q, e), |db.entries|)
  }

  /** The queued rows in order. */
  function Waiting(db: Db, q: Queue): (r: seq<EntryId>)
    ensures Ranked(db.entries, r)
    ensures forall e :: e in r <==> Waits(db, q, e)
  {
    Rank(db.entries, set e: nat | e < |db.entries| && Waits(db, q, e), |db.entries|)
  }

  /** The longest front of the line without a failure in it. */
  function FreshRun(es: seq<EntryRow>, ids: seq<EntryId>): (r: seq<EntryId>)
    requires forall i :: 0 <= i < |ids| ==> ids[i] < |es|
    ensures r <= ids
    ensures forall e :: e in r ==> e < |es| && es[e].attempts == 0
    ensures |r| < |ids| ==> es[ids[|r|]].attempts > 0
  {
    if ids == [] || es[ids[0]].attempts > 0 then []
    else [ids[0]] + FreshRun(es, ids[1..])
  }

  /** Whoever has failed before is batched with nobody. */
  function SelectBatch(db: Db, q: Queue, limit: nat): (r: seq<EntryId>)
    ensures r <= Waiting(db, q) && |r| <= limit
    ensures r == [] <==> Waiting(db, q) == [] || limit == 0
    ensures |r| == 1 || forall e :: e in r ==> e < |db.entries| && db.entries[e].attempts == 0
  {
    var all := Waiting(db, q);
    var queued := if limit < |all| then all[..limit] else all;
    if queued == [] then []
    else if db.entries[queued[0]].attempts > 0 then [queued[0]]
    else FreshRun(db.entries, queued)
  }

  /** A batch stops short of the limit only at a retry: its own first entry, or the next in line. */
  lemma StopsShortAtRetry(db: Db, q: Queue, limit: nat)
    ensures var r, waiting := SelectBatch(db, q, limit), Waiting(db, q);
            0 < |r| < |waiting| && |r| < limit ==>
              db.entries[waiting[0]].attempts > 0 || db.entries[waiting[|r|]].attempts > 0
  {
    var all := Waiting(db, q);
    var queued := if limit < |all| then all[..limit] else all;
    assert forall i :: 0 <= i < |queued| ==> queued[i] == all[i];
  }

  lemma RankedDistinct(es: seq<EntryRow>, ids: seq<EntryId>)
    requires Ranked(es, ids)
    ensures Distinct(ids)
  {
    forall i, j | 0 <= i < j < |ids| ensures ids[i] != ids[j] {
      assert Before(es, ids[i], ids[j]);
    }
  }

  /** Ranking depends on priorities alone. */
  lemma RankedStays(es: seq<EntryRow>, es': seq<EntryRow>, ids: seq<EntryId>)
    requires Ranked(es, ids)
    requires forall e :: e in ids ==> e < |es'| && es'[e].priority == es[e].priority
    ensures Ranked(es', ids)
  {
    assert forall i :: 0 <= i < |ids| ==> ids[i] in ids;
  }

  lemma RankedSlice(es: seq<EntryRow>, ids: seq<EntryId>, lo: nat, hi: nat)
    requires Ranked(es, ids) && lo <= hi <= |ids|
    ensures Ranked(es, ids[lo..hi])
    ensures forall e :: e in ids[lo..hi] ==> e in ids
  {
  }

  /** There is one way to rank a set of entries. */
  lemma {:induction false} RankedUnique(es: seq<EntryRow>, a: seq<EntryId>, b: seq<EntryId>)
    requires Ranked(es, a) && Ranked(es, b)
    requires forall e :: e in a <==> e in b
    ensures a == b
    decreases |a|
  {
    assert (a != [] ==> a[0] in b) && (b != [] ==> b[0] in a);
    if a != [] && b != [] {
      assert a[0] == b[0];
      RankedDistinct(es, a);
      RankedDistinct(es, b);
      forall e ensures e in a[1..] <==> e in b[1..] {
        assert e in a <==> e == a[0] || e in a[1..];
        assert e in b <==> e == b[0] || e in b[1..];
        assert a[0] !in a[1..] && b[0] !in b[1..];
      }
      RankedUnique(es, a[1..], b[1..]);
    }
  }

  lemma LineIs(db: Db, q: Queue, ids: seq<EntryId>)
    requires Ranked(db.entries, ids)
    requires forall e :: e in ids <==> Lives(db, q, e)
    ensures Line(db, q) == ids
  {
    RankedUnique(db.entries, Line(db, q), ids);
  }

  /** With nothing batched, everything live waits. */
  lemma WaitingIsLine(db: Db, q: Queue)
    requires forall e :: 0 <= e < |db.entries| && db.entries[e].queue == q ==> !db.entries[e].state.Batched?
    ensures Waiting(db, q) == Line(db, q)
  {
    RankedUnique(db.entries, Waiting(db, q), Line(db, q));
  }
}
