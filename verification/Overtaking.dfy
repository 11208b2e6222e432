/** A candidate in flight is always the front of its line, in line order. */
module Overtaking {
  import opened Vocabulary
  import opened States
  import opened Tables
  import opened Ranking
  import opened TableInvariant

  ghost predicate InOrder(db: Db) {
    forall c :: 0 <= c < |db.candidates| && db.candidates[c].state.IsActive() ==>
      Ids(db.candidates[c]) <= Line(db, db.candidates[c].queue)
  }

  /** The same of one queue. */
  ghost predicate Front(db: Db, q: Queue) {
    forall c: CandidateId :: ActiveIs(db, q, c) ==> Ids(db.candidates[c]) <= Line(db, q)
  }

  /** A line depends only on who lives and on priorities. */
  lemma LineStays(db: Db, db': Db, q: Queue)
    requires forall e: EntryId :: Lives(db', q, e) <==> Lives(db, q, e)
    requires forall e: EntryId :: Lives(db, q, e) && Lives(db', q, e) ==>
               db'.entries[e].priority == db.entries[e].priority
    ensures Line(db', q) == Line(db, q)
  {
    RankedStays(db.entries, db'.entries, Line(db, q));
    LineIs(db', q, Line(db, q));
  }

  lemma WithoutOne(es: seq<EntryRow>, ids: seq<EntryId>, j: nat, rest: seq<EntryId>)
    requires Ranked(es, ids) && j < |ids| && rest == ids[..j] + ids[j + 1..]
    ensures forall e :: e in rest <==> e in ids && e != ids[j]
  {
    RankedDistinct(es, ids);
    assert ids == ids[..j] + [ids[j]] + ids[j + 1..];
    assert forall i :: 0 <= i < |rest| ==> rest[i] == ids[if i < j then i else i + 1];
  }

  lemma StillRanked(es: seq<EntryRow>, ids: seq<EntryId>, j: nat, rest: seq<EntryId>)
    requires Ranked(es, ids) && j < |ids| && rest == ids[..j] + ids[j + 1..]
    ensures Ranked(es, rest)
  {
    forall a, b | 0 <= a < b < |rest| ensures Before(es, rest[a], rest[b]) {
      assert rest[a] == ids[if a < j then a else a + 1];
      assert rest[b] == ids[if b < j then b else b + 1];
    }
  }

  /** Dropping one entry from a ranked list leaves the others as they were. */
  lemma RankedWithout(es: seq<EntryRow>, es': seq<EntryRow>, ids: seq<EntryId>, j: nat, rest: seq<EntryId>)
    requires Ranked(es, ids) && j < |ids| && rest == ids[..j] + ids[j + 1..]
    requires forall e :: e in ids && e != ids[j] ==> e < |es'| && es'[e].priority == es[e].priority
    ensures Ranked(es', rest)
    ensures forall e :: e in rest <==> e in ids && e != ids[j]
  {
    WithoutOne(es, ids, j, rest);
    StillRanked(es, ids, j, rest);
    RankedStays(es, es', rest);
  }

  // ----- transactions that move no one in line

  lemma OpenKeepsLine(db: Db, q: Queue, base: Sha, batch: seq<EntryId>, parent: Option<CandidateId>, q': Queue)
    requires forall e :: e in batch ==> Waits(db, q, e)
    ensures Line(Opened(db, q, base, batch, parent), q') == Line(db, q')
  {
    LineStays(db, Opened(db, q, base, batch, parent), q');
  }

  lemma OpenKeepsOrder(db: Db, q: Queue, base: Sha, batch: seq<EntryId>, parent: Option<CandidateId>)
    requires TableInv(db) && InOrder(db) && Openable(db, q, batch) && batch <= Line(db, q)
    ensures InOrder(Opened(db, q, base, batch, parent))
    ensures forall q' :: Line(Opened(db, q, base, batch, parent), q') == Line(db, q')
  {
    var db' := Opened(db, q, base, batch, parent);
    forall q' {
      OpenKeepsLine(db, q, base, batch, parent, q');
    }
    assert Ids(db'.candidates[|db.candidates|]) == batch;
  }

  lemma UnderTestKeepsOrder(db: Db, c: CandidateId, commit: Sha)
    requires InOrder(db) && c < |db.candidates| && db.candidates[c].state.IsActive()
    ensures InOrder(UnderTest(db, c, commit))
    ensures forall q :: Line(UnderTest(db, c, commit), q) == Line(db, q)
  {
    var db' := UnderTest(db, c, commit);
    forall q ensures Line(db', q) == Line(db, q) {
      LineStays(db, db', q);
    }
    assert forall d :: 0 <= d < |db.candidates| ==> Ids(db'.candidates[d]) == Ids(db.candidates[d]);
  }

  lemma AbandonKeepsLine(db: Db, q: Queue, c: CandidateId, to: CandidateState)
    requires TableInv(db) && ActiveIs(db, q, c) && (to.Failed? || to.Superseded?)
    ensures forall q' :: Line(Abandoned(db, c, to), q') == Line(db, q')
  {
    var db' := Abandoned(db, c, to);
    AbandonCloses(db, q, c, to);
    forall e | e in Ids(db.candidates[c]) ensures db.entries[e].state.Batched? && db'.entries[e].state.Queued? {
      assert Holds(db.candidates[c], e);
    }
    forall q' ensures Line(db', q') == Line(db, q') {
      LineStays(db, db', q');
    }
  }

  // ----- closing leaves every other line alone

  lemma OtherLinesStay(db: Db, db': Db, q: Queue, q': Queue)
    requires TouchesOnly(db, db', q) && Written(db, db') && q' != q
    ensures Line(db', q') == Line(db, q')
  {
    forall e: EntryId | e < |db'.entries| && db'.entries[e].queue == q'
      ensures e < |db.entries| && db'.entries[e] == db.entries[e]
    {
    }
    LineStays(db, db', q');
  }

  lemma CloseKeepsOrder(db: Db, db': Db, q: Queue)
    requires InOrder(db) && TouchesOnly(db, db', q) && Written(db, db') && NoneActive(db', q)
    ensures InOrder(db')
  {
    forall c | 0 <= c < |db'.candidates| && db'.candidates[c].state.IsActive()
      ensures Ids(db'.candidates[c]) <= Line(db', db'.candidates[c].queue)
    {
      OtherLinesStay(db, db', q, db'.candidates[c].queue);
    }
  }

  // ----- commands given by hand

  /** A newcomer goes to the back. */
  lemma EnqueueAppends(db: Db, q: Queue, branch: string, sha: Sha)
    requires forall e :: 0 <= e < |db.entries| ==> db.entries[e].priority >= 0
    requires !LiveIdentityTaken(db.entries, q, branch, sha)
    ensures Line(Enqueued(db, q, branch, sha), q) == Line(db, q) + [|db.entries|]
  {
    var db' := Enqueued(db, q, branch, sha);
    var n := |db.entries|;
    RankedStays(db.entries, db'.entries, Line(db, q));
    assert forall i :: 0 <= i < |Line(db, q)| ==> Line(db, q)[i] in Line(db, q);
    LineIs(db', q, Line(db, q) + [n]);
  }

  lemma EnqueueKeepsOrder(db: Db, q: Queue, branch: string, sha: Sha)
    requires TableInv(db) && InOrder(db)
    ensures InOrder(Enqueued(db, q, branch, sha))
    ensures forall q' :: Line(db, q') <= Line(Enqueued(db, q, branch, sha), q')
  {
    var db' := Enqueued(db, q, branch, sha);
    if db' != db {
      EnqueueAppends(db, q, branch, sha);
      EnqueueKeeps(db, q, branch, sha);
      forall q' ensures Line(db, q') <= Line(db', q') {
        if q' != q { OtherLinesStay(db, db', q, q'); }
      }
    }
  }

  /** A removal by hand takes exactly the entry out of its line; every other line is as it was. */
  lemma DequeueLeavesLine(db: Db, q: Queue, e: EntryId, j: nat)
    requires j < |Line(db, q)| && Line(db, q)[j] == e && Waits(db, q, e)
    ensures Line(Dequeued(db, q, e), q) == Line(db, q)[..j] + Line(db, q)[j + 1..]
    ensures forall q' :: q' != q ==> Line(Dequeued(db, q, e), q') == Line(db, q')
  {
    var db', line := Dequeued(db, q, e), Line(db, q);
    RankedWithout(db.entries, db'.entries, line, j, line[..j] + line[j + 1..]);
    forall f: EntryId ensures Lives(db', q, f) <==> Lives(db, q, f) && f != e {}
    LineIs(db', q, line[..j] + line[j + 1..]);
    forall q' | q' != q ensures Line(db', q') == Line(db, q') {
      OtherLinesStay(db, db', q, q');
    }
  }

  /** Removing a waiting entry closes the gap behind the candidate in flight. */
  lemma DequeueKeepsOrder(db: Db, q: Queue, e: EntryId)
    requires TableInv(db) && InOrder(db)
    ensures InOrder(Dequeued(db, q, e))
  {
    var db' := Dequeued(db, q, e);
    if Waits(db, q, e) {
      DequeueKeeps(db, q, e);
      var line := Line(db, q);
      assert Lives(db, q, e);
      var j :| 0 <= j < |line| && line[j] == e;
      DequeueLeavesLine(db, q, e, j);
      forall c | 0 <= c < |db.candidates| && db.candidates[c].state.IsActive()
        ensures Ids(db'.candidates[c]) <= Line(db', db'.candidates[c].queue)
      {
        if db.candidates[c].queue == q {
          assert !InFlight(db.candidates, e) && !Holds(db.candidates[c], e);
          assert j >= |Ids(db.candidates[c])|;
        }
      }
    }
  }

  /** A promoted entry goes to the very front of what waits; the others keep their order. */
  lemma PromoteGoesFirst(db: Db, q: Queue, e: EntryId, j: nat)
    requires j < |Waiting(db, q)| && Waiting(db, q)[j] == e
    ensures Waiting(Promoted(db, q, e), q) == [e] + Waiting(db, q)[..j] + Waiting(db, q)[j + 1..]
  {
    var db', was := Promoted(db, q, e), Waiting(db, q);
    assert e in was;
    MaxPriorityIsMax(db.entries, q);
    var rest := was[..j] + was[j + 1..];
    RankedWithout(db.entries, db'.entries, was, j, rest);
    assert forall i :: 0 <= i < |rest| ==> rest[i] in rest;
    forall f | f in rest ensures Before(db'.entries, e, f) {
      assert f in was && Waits(db, q, f) && WaitsHere(db.entries[f], q);
    }
    forall f: EntryId ensures Waits(db', q, f) <==> Waits(db, q, f) {}
    assert Ranked(db'.entries, [e] + rest);
    RankedUnique(db'.entries, Waiting(db', q), [e] + rest);
    assert [e] + rest == [e] + was[..j] + was[j + 1..];
  }

  lemma PromoteKeepsOrder(db: Db, q: Queue, e: EntryId)
    requires TableInv(db) && InOrder(db) && NoneActive(db, q)
    ensures InOrder(Promoted(db, q, e))
  {
    PromoteKeeps(db, q, e);
    CloseKeepsOrder(db, Promoted(db, q, e), q);
  }

  /** Promoted, this entry would still rank behind the last of the candidate in flight. */
  ghost predicate StaysBehind(db: Db, q: Queue, e: EntryId, c: CandidateId)
    requires c < |db.candidates|
  {
    var ids := Ids(db.candidates[c]);
    var asked := TopPriority(db.entries, q) + 1;
    ids != [] && ids[|ids| - 1] < |db.entries| &&
    (var last := db.entries[ids[|ids| - 1]];
     last.priority > asked || (last.priority == asked && ids[|ids| - 1] < e))
  }

  /** Promoting past a candidate in flight keeps the order exactly when its last entry still ranks ahead. */
  lemma PromoteInFlight(db: Db, q: Queue, e: EntryId, c: CandidateId)
    requires TableInv(db) && InOrder(db) && Waits(db, q, e) && ActiveIs(db, q, c)
    ensures InOrder(Promoted(db, q, e)) <==> StaysBehind(db, q, e, c)
  {
    var db' := Promoted(db, q, e);
    PromoteKeeps(db, q, e);
    var ids := Ids(db.candidates[c]);
    var last := ids[|ids| - 1];
    var line := Line(db, q);
    assert !InFlight(db.candidates, e) && !Holds(db.candidates[c], e);
    assert last in ids && Lives(db, q, last) by { assert line[|ids| - 1] == last; }
    if Before(db'.entries, last, e) {
      PromoteBehind(db, q, e, ids);
      forall d | 0 <= d < |db.candidates| && db.candidates[d].state.IsActive()
        ensures Ids(db'.candidates[d]) <= Line(db', db'.candidates[d].queue)
      {
        if d != c { OtherLinesStay(db, db', q, db.candidates[d].queue); }
      }
    } else {
      assert Lives(db', q, e) && e in Line(db', q);
    }
  }

  /** A promotion that passes nothing in flight keeps every candidate at the front of its line. */
  lemma PromoteInTurn(db: Db, q: Queue, e: EntryId)
    requires TableInv(db) && InOrder(db)
    requires Waits(db, q, e) ==> forall c: CandidateId :: ActiveIs(db, q, c) ==> StaysBehind(db, q, e, c)
    ensures InOrder(Promoted(db, q, e))
  {
    if Waits(db, q, e) {
      var active := ActiveCandidate(db, q);
      if active.Some? {
        assert ActiveIs(db, q, active.value);
        PromoteInFlight(db, q, e, active.value);
      } else {
        PromoteKeepsOrder(db, q, e);
      }
    }
  }

  /** If the last of a front still ranks ahead of e, so does all of it. */
  lemma PromoteBehind(db: Db, q: Queue, e: EntryId, ids: seq<EntryId>)
    requires Waits(db, q, e) && e !in ids && ids != [] && ids <= Line(db, q)
    requires Before(Promoted(db, q, e).entries, ids[|ids| - 1], e)
    ensures ids <= Line(Promoted(db, q, e), q)
  {
    var db', line := Promoted(db, q, e), Line(db, q);
    var line' := Line(db', q);
    forall f ensures f in line' <==> f in line {}
    var front := ids + Behind(line', ids);
    BehindIs(db'.entries, line', ids);
    RankedSlice(db.entries, line, 0, |ids|);
    assert line[0..|ids|] == ids;
    RankedStays(db.entries, db'.entries, ids);
    forall i, f | 0 <= i < |ids| && f in line' && f !in ids ensures Before(db'.entries, ids[i], f) {
      if f == e {
        assert i < |ids| - 1 ==> Before(db'.entries, ids[i], ids[|ids| - 1]);
      } else {
        assert f in line;
        var j :| 0 <= j < |line| && line[j] == f;
        assert j >= |ids| && Before(db.entries, line[i], line[j]);
      }
    }
    assert forall i :: 0 <= i < |Behind(line', ids)| ==> Behind(line', ids)[i] in Behind(line', ids);
    assert Ranked(db'.entries, front);
    forall f | f in ids ensures f in line' { assert f in line; }
    RankedUnique(db'.entries, line', front);
  }

  ghost function Behind(line: seq<EntryId>, ids: seq<EntryId>): seq<EntryId> {
    if line == [] then []
    else if line[0] in ids then Behind(line[1..], ids) else [line[0]] + Behind(line[1..], ids)
  }

  lemma {:induction false} BehindIs(es: seq<EntryRow>, line: seq<EntryId>, ids: seq<EntryId>)
    requires Ranked(es, line)
    ensures Ranked(es, Behind(line, ids))
    ensures forall e :: e in Behind(line, ids) <==> e in line && e !in ids
  {
    if line != [] {
      var rest := line[1..];
      BehindIs(es, rest, ids);
      assert forall e :: e in line <==> e == line[0] || e in rest;
      assert forall i :: 0 <= i < |Behind(rest, ids)| ==> Behind(rest, ids)[i] in rest;
    }
  }

  // ----- what the order buys

  /** When a candidate lands, no live entry ranked ahead of any of its entries is left behind. */
  lemma NoneLeftBehind(db: Db, q: Queue, c: CandidateId, e: EntryId, f: EntryId)
    requires TableInv(db) && InOrder(db) && ActiveIs(db, q, c) && Holds(db.candidates[c], e)
    requires Lives(Landed(db, c), q, f)
    ensures Before(db.entries, e, f)
  {
    var ids, line := Ids(db.candidates[c]), Line(db, q);
    LandCloses(db, q, c);
    assert f in line && f !in ids;
    var i :| 0 <= i < |ids| && ids[i] == e;
    var j :| 0 <= j < |line| && line[j] == f;
    assert j >= |ids| && line[i] == e;
  }
}
