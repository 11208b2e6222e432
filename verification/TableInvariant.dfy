/** What every transaction keeps, and the only steps it lets rows take. */
module TableInvariant {
  import opened Vocabulary
  import opened States
  import opened Tables

  // ----- the invariant

  ghost predicate Sound(es: seq<EntryRow>, row: CandidateRow) {
    && row.members != []
    && Distinct(Ids(row))
    && forall e :: e in Ids(row) ==> e < |es| && es[e].queue == row.queue
  }

  ghost predicate OneActive(cs: seq<CandidateRow>) {
    forall a, b | 0 <= a < |cs| && 0 <= b < |cs| ::
      cs[a].state.IsActive() && cs[b].state.IsActive() && cs[a].queue == cs[b].queue ==> a == b
  }

  ghost predicate InFlight(cs: seq<CandidateRow>, e: EntryId) {
    exists c :: 0 <= c < |cs| && cs[c].state.IsActive() && Holds(cs[c], e)
  }

  ghost predicate InPassed(cs: seq<CandidateRow>, e: EntryId) {
    exists c :: 0 <= c < |cs| && cs[c].state.Passed? && Holds(cs[c], e)
  }

  ghost predicate PassedAreDisjoint(cs: seq<CandidateRow>) {
    forall a, b, e :: 0 <= a < b < |cs| && cs[a].state.Passed? && cs[b].state.Passed? && Holds(cs[a], e)
      ==> !Holds(cs[b], e)
  }

  ghost predicate AllPending(row: CandidateRow) {
    forall i :: 0 <= i < |row.members| ==> row.members[i].outcome == Pending
  }

  /** Exactly one member is the culprit and the rest were skipped. */
  ghost predicate OneCulprit(row: CandidateRow) {
    exists k :: 0 <= k < |row.members| && row.members[k].outcome == Culprit
      && forall i :: 0 <= i < |row.members| && i != k ==> row.members[i].outcome == Skipped
  }

  ghost predicate VerdictsFit(row: CandidateRow) {
    match row.state
    case Passed => forall i :: 0 <= i < |row.members| ==> row.members[i].outcome == Cleared
    case Failed => AllPending(row) || OneCulprit(row)
    case _ => AllPending(row)
  }

  /** Candidates in which an entry was found to be the culprit. */
  ghost function Convictions(cs: seq<CandidateRow>, e: EntryId): set<CandidateId> {
    set c: nat | c < |cs| && Member(e, Culprit) in cs[c].members
  }

  ghost predicate Quarantined(es: seq<EntryRow>, ids: seq<EntryId>) {
    |ids| == 1 || forall e :: e in ids ==> e < |es| && es[e].attempts == 0
  }

  ghost predicate DistinctLiveIdentities(es: seq<EntryRow>) {
    forall i, j | 0 <= i < j < |es| && es[i].state.IsLive() && es[j].state.IsLive() ::
      !(es[i].queue == es[j].queue && es[i].branch == es[j].branch && es[i].sha == es[j].sha)
  }

  ghost predicate AllSound(db: Db) {
    forall c :: 0 <= c < |db.candidates| ==> Sound(db.entries, db.candidates[c])
  }

  ghost predicate BatchedAreInFlight(db: Db) {
    forall e :: 0 <= e < |db.entries| ==> (db.entries[e].state.Batched? <==> InFlight(db.candidates, e))
  }

  ghost predicate MergedArePassed(db: Db) {
    forall e :: 0 <= e < |db.entries| ==> (db.entries[e].state.Merged? <==> InPassed(db.candidates, e))
  }

  ghost predicate Accounted(db: Db) {
    forall e :: 0 <= e < |db.entries| ==> db.entries[e].attempts == |Convictions(db.candidates, e)|
  }

  ghost predicate AllQuarantined(db: Db) {
    forall c :: 0 <= c < |db.candidates| && db.candidates[c].state.IsActive() ==>
      Quarantined(db.entries, Ids(db.candidates[c]))
  }

  ghost predicate CommitsKnown(cs: seq<CandidateRow>) {
    forall c :: 0 <= c < |cs| && (cs[c].state.Testing? || cs[c].state.Passed?) ==> cs[c].commit.Some?
  }

  ghost predicate TableInv(db: Db) {
    && AllSound(db)
    && OneActive(db.candidates)
    && BatchedAreInFlight(db)
    && MergedArePassed(db)
    && PassedAreDisjoint(db.candidates)
    && (forall c :: 0 <= c < |db.candidates| ==> VerdictsFit(db.candidates[c]))
    && Accounted(db)
    && AllQuarantined(db)
    && DistinctLiveIdentities(db.entries)
    && (forall e :: 0 <= e < |db.entries| ==> db.entries[e].priority >= 0)
    && CommitsKnown(db.candidates)
  }

  // ----- what a step may do to rows

  /** The relation candidates really follow: the documented one and conflicts found while building. */
  predicate CandidateMoves(from: CandidateState, to: CandidateState) {
    from == to || from.CanTransitionTo(to) || (from.Building? && to.Failed?)
  }

  predicate EntryMoves(from: EntryState, to: EntryState) {
    from == to || from.CanTransitionTo(to)
  }

  /** Every row takes a step of its lifecycle, and a finished one is never written again. */
  ghost predicate RowsEvolve(db: Db, db': Db) {
    var es, cs, es', cs' := db.entries, db.candidates, db'.entries, db'.candidates;
    && |es| <= |es'| && |cs| <= |cs'|
    && (forall e :: 0 <= e < |es| ==>
          es'[e] == es[e] || (es[e].state.IsLive() && EntryMoves(es[e].state, es'[e].state)))
    && (forall c :: 0 <= c < |cs| ==>
          cs'[c] == cs[c] || (cs[c].state.IsActive() && CandidateMoves(cs[c].state, cs'[c].state)))
  }

  /** What never changes once written: identities, bases and merge orders. */
  ghost predicate Written(db: Db, db': Db) {
    var es, cs, es', cs' := db.entries, db.candidates, db'.entries, db'.candidates;
    && |es| <= |es'| && |cs| <= |cs'|
    && (forall e :: 0 <= e < |es| ==>
          es'[e].queue == es[e].queue && es'[e].branch == es[e].branch && es'[e].sha == es[e].sha)
    && (forall c :: 0 <= c < |cs| ==>
          cs'[c].queue == cs[c].queue && cs'[c].base == cs[c].base && cs'[c].parent == cs[c].parent
          && Ids(cs'[c]) == Ids(cs[c]))
  }

  /** Rows of every other queue are as they were. */
  ghost predicate TouchesOnly(db: Db, db': Db, q: Queue) {
    var es, cs, es', cs' := db.entries, db.candidates, db'.entries, db'.candidates;
    && |es| <= |es'| && |cs| <= |cs'|
    && (forall e :: 0 <= e < |es| && es[e].queue != q ==> es'[e] == es[e])
    && (forall c :: 0 <= c < |cs| && cs[c].queue != q ==> cs'[c] == cs[c])
    && (forall e :: |es| <= e < |es'| ==> es'[e].queue == q)
    && (forall c :: |cs| <= c < |cs'| ==> cs'[c].queue == q)
  }

  ghost predicate KeptBy(db: Db, db': Db, q: Queue) {
    TableInv(db') && RowsEvolve(db, db') && Written(db, db') && TouchesOnly(db, db', q)
  }

  ghost predicate NoneActive(db: Db, q: Queue) {
    forall c :: 0 <= c < |db.candidates| && db.candidates[c].queue == q ==> !db.candidates[c].state.IsActive()
  }

  /** What a batch must be for opening it to keep the tables sound. */
  ghost predicate Openable(db: Db, q: Queue, batch: seq<EntryId>) {
    && CanOpen(db, batch)
    && (forall e :: e in batch ==> Waits(db, q, e))
    && NoneActive(db, q)
    && Quarantined(db.entries, batch)
  }

  ghost predicate ActiveIs(db: Db, q: Queue, c: CandidateId) {
    c < |db.candidates| && db.candidates[c].queue == q && db.candidates[c].state.IsActive()
  }

  // ----- opening a candidate

  lemma OpenMovesRows(db: Db, q: Queue, base: Sha, batch: seq<EntryId>, parent: Option<CandidateId>)
    requires TableInv(db) && Openable(db, q, batch)
    ensures var db' := Opened(db, q, base, batch, parent);
            RowsEvolve(db, db') && Written(db, db') && TouchesOnly(db, db', q)
  {
  }

  lemma OpenKeepsMembership(db: Db, q: Queue, base: Sha, batch: seq<EntryId>, parent: Option<CandidateId>)
    requires TableInv(db) && Openable(db, q, batch)
    ensures var db' := Opened(db, q, base, batch, parent);
            AllSound(db') && BatchedAreInFlight(db') && MergedArePassed(db')
  {
    var db' := Opened(db, q, base, batch, parent);
    var es, cs, es', cs' := db.entries, db.candidates, db'.entries, db'.candidates;
    assert Ids(cs'[|cs|]) == batch;
    forall e | 0 <= e < |es|
      ensures es'[e].state.Batched? <==> InFlight(cs', e)
      ensures es'[e].state.Merged? <==> InPassed(cs', e)
    {
      assert e in batch ==> Holds(cs'[|cs|], e);
      assert forall c :: 0 <= c < |cs| && Holds(cs[c], e) ==> Holds(cs'[c], e);
    }
  }

  lemma OpenKeepsVerdicts(db: Db, q: Queue, base: Sha, batch: seq<EntryId>, parent: Option<CandidateId>)
    requires TableInv(db) && Openable(db, q, batch)
    ensures var db' := Opened(db, q, base, batch, parent);
            && OneActive(db'.candidates) && PassedAreDisjoint(db'.candidates) && Accounted(db')
            && (forall c :: 0 <= c < |db'.candidates| ==> VerdictsFit(db'.candidates[c]))
  {
    var db' := Opened(db, q, base, batch, parent);
    forall e | 0 <= e < |db.entries| ensures Convictions(db'.candidates, e) == Convictions(db.candidates, e) {}
  }

  lemma OpenKeeps(db: Db, q: Queue, base: Sha, batch: seq<EntryId>, parent: Option<CandidateId>)
    requires TableInv(db) && Openable(db, q, batch)
    ensures KeptBy(db, Opened(db, q, base, batch, parent), q)
  {
    OpenMovesRows(db, q, base, batch, parent);
    OpenKeepsMembership(db, q, base, batch, parent);
    OpenKeepsVerdicts(db, q, base, batch, parent);
    assert Ids(Opened(db, q, base, batch, parent).candidates[|db.candidates|]) == batch;
  }

  // ----- gating it

  lemma UnderTestMovesRows(db: Db, q: Queue, c: CandidateId, commit: Sha)
    requires TableInv(db) && ActiveIs(db, q, c)
    ensures var db' := UnderTest(db, c, commit);
            RowsEvolve(db, db') && Written(db, db') && TouchesOnly(db, db', q)
  {
    var cs, cs' := db.candidates, UnderTest(db, c, commit).candidates;
    assert forall d :: 0 <= d < |cs| ==> Ids(cs'[d]) == Ids(cs[d]);
  }

  lemma UnderTestKeepsFacts(db: Db, c: CandidateId, commit: Sha, e: EntryId)
    requires c < |db.candidates| && db.candidates[c].state.IsActive()
    ensures var cs, cs' := db.candidates, UnderTest(db, c, commit).candidates;
            && (InFlight(cs', e) <==> InFlight(cs, e))
            && (InPassed(cs', e) <==> InPassed(cs, e))
            && Convictions(cs', e) == Convictions(cs, e)
  {
    var cs, cs' := db.candidates, UnderTest(db, c, commit).candidates;
    assert forall d :: 0 <= d < |cs| ==> Ids(cs'[d]) == Ids(cs[d]);
    assert forall d :: 0 <= d < |cs| ==> Holds(cs'[d], e) == Holds(cs[d], e);
  }

  lemma UnderTestKeeps(db: Db, q: Queue, c: CandidateId, commit: Sha)
    requires TableInv(db) && ActiveIs(db, q, c)
    ensures KeptBy(db, UnderTest(db, c, commit), q)
  {
    var db' := UnderTest(db, c, commit);
    UnderTestMovesRows(db, q, c, commit);
    assert forall d :: 0 <= d < |db.candidates| ==> Ids(db'.candidates[d]) == Ids(db.candidates[d]);
    forall e | 0 <= e < |db.entries| {
      UnderTestKeepsFacts(db, c, commit, e);
    }
  }

  // ----- closing it

  /** Candidate c reached an end: what landing, abandoning and blaming have in common. */
  ghost predicate Closes(db: Db, db': Db, c: CandidateId) {
    var es, cs, es', cs' := db.entries, db.candidates, db'.entries, db'.candidates;
    && c < |cs| == |cs'| && |es| == |es'|
    && (forall d :: 0 <= d < |cs| && d != c ==> cs'[d] == cs[d])
    && cs'[c].(state := cs[c].state, members := cs[c].members) == cs[c]
    && Ids(cs'[c]) == Ids(cs[c])
    && cs'[c].state.IsTerminal() && VerdictsFit(cs'[c])
    && (forall e :: 0 <= e < |es| && e !in Ids(cs[c]) ==> es'[e] == es[e])
    && (forall e :: e in Ids(cs[c]) && e < |es| ==> Settles(es[e], es'[e], cs'[c], e))
  }

  ghost predicate Settles(was: EntryRow, now: EntryRow, row: CandidateRow, e: EntryId) {
    && now.(state := was.state, attempts := was.attempts, reason := was.reason) == was
    && !now.state.Batched?
    && (now.state.Merged? <==> row.state.Passed?)
    && now.attempts == was.attempts + if Member(e, Culprit) in row.members then 1 else 0
  }

  lemma CloseMovesRows(db: Db, db': Db, q: Queue, c: CandidateId)
    requires TableInv(db) && ActiveIs(db, q, c) && Closes(db, db', c)
    requires CandidateMoves(db.candidates[c].state, db'.candidates[c].state)
    ensures RowsEvolve(db, db') && Written(db, db') && TouchesOnly(db, db', q)
  {
    forall e | e in Ids(db.candidates[c]) ensures db.entries[e].state.Batched? {
      assert Holds(db.candidates[c], e);
    }
  }

  lemma CloseKeepsMembership(db: Db, db': Db, q: Queue, c: CandidateId)
    requires TableInv(db) && ActiveIs(db, q, c) && Closes(db, db', c)
    ensures AllSound(db') && BatchedAreInFlight(db') && MergedArePassed(db')
  {
    var es, cs, es', cs' := db.entries, db.candidates, db'.entries, db'.candidates;
    assert forall d :: 0 <= d < |cs| ==> Ids(cs'[d]) == Ids(cs[d]);
    forall e | 0 <= e < |es|
      ensures es'[e].state.Batched? <==> InFlight(cs', e)
      ensures es'[e].state.Merged? <==> InPassed(cs', e)
    {
      assert forall d :: 0 <= d < |cs| ==> Holds(cs'[d], e) == Holds(cs[d], e);
      if e in Ids(cs[c]) {
        assert Holds(cs[c], e) && InFlight(cs, e);
      }
    }
  }

  lemma CloseKeepsPassedDisjoint(db: Db, db': Db, q: Queue, c: CandidateId)
    requires TableInv(db) && ActiveIs(db, q, c) && Closes(db, db', c)
    ensures PassedAreDisjoint(db'.candidates)
  {
    var es, cs, cs' := db.entries, db.candidates, db'.candidates;
    assert forall d :: 0 <= d < |cs| ==> Ids(cs'[d]) == Ids(cs[d]);
    forall e | Holds(cs[c], e) ensures !InPassed(cs, e) {
      assert InFlight(cs, e);
    }
  }

  /** Closing convicts an entry of the candidate at most once more. */
  lemma CloseConvicts(cs: seq<CandidateRow>, cs': seq<CandidateRow>, c: CandidateId, e: EntryId)
    requires c < |cs| == |cs'| && (forall d :: 0 <= d < |cs| && d != c ==> cs'[d] == cs[d])
             && Member(e, Culprit) !in cs[c].members
    ensures |Convictions(cs', e)| == |Convictions(cs, e)| + if Member(e, Culprit) in cs'[c].members then 1 else 0
  {
    if Member(e, Culprit) in cs'[c].members {
      assert Convictions(cs', e) == Convictions(cs, e) + {c};
    } else {
      assert Convictions(cs', e) == Convictions(cs, e);
    }
  }

  lemma CulpritIsMember(row: CandidateRow, e: EntryId)
    requires Member(e, Culprit) in row.members
    ensures e in Ids(row)
  {
    var i :| 0 <= i < |row.members| && row.members[i] == Member(e, Culprit);
    assert Ids(row)[i] == e;
  }

  lemma CloseKeepsAccounts(db: Db, db': Db, q: Queue, c: CandidateId)
    requires TableInv(db) && ActiveIs(db, q, c) && Closes(db, db', c)
    ensures Accounted(db')
  {
    var es, cs, cs' := db.entries, db.candidates, db'.candidates;
    forall e | 0 <= e < |es| ensures db'.entries[e].attempts == |Convictions(cs', e)| {
      assert Member(e, Culprit) !in cs[c].members;
      CloseConvicts(cs, cs', c, e);
      if Member(e, Culprit) in cs'[c].members { CulpritIsMember(cs'[c], e); }
    }
  }

  lemma CloseKeepsQuarantine(db: Db, db': Db, q: Queue, c: CandidateId)
    requires TableInv(db) && ActiveIs(db, q, c) && Closes(db, db', c)
    ensures AllQuarantined(db')
  {
    var es, cs, es', cs' := db.entries, db.candidates, db'.entries, db'.candidates;
    forall d | 0 <= d < |cs| && cs'[d].state.IsActive() ensures Quarantined(es', Ids(cs'[d])) {
      assert cs[d].queue != q;
      assert forall e :: e in Ids(cs[d]) ==> es[e].queue != q;
      assert forall e :: e in Ids(cs[c]) ==> es[e].queue == q;
    }
  }

  lemma CloseKeeps(db: Db, db': Db, q: Queue, c: CandidateId)
    requires TableInv(db) && ActiveIs(db, q, c) && Closes(db, db', c)
    requires CandidateMoves(db.candidates[c].state, db'.candidates[c].state)
    requires db'.candidates[c].state.Passed? ==> db.candidates[c].state.Testing?
    ensures KeptBy(db, db', q) && NoneActive(db', q)
  {
    CloseMovesRows(db, db', q, c);
    CloseKeepsMembership(db, db', q, c);
    CloseKeepsPassedDisjoint(db, db', q, c);
    CloseKeepsAccounts(db, db', q, c);
    CloseKeepsQuarantine(db, db', q, c);
  }

  lemma LandCloses(db: Db, q: Queue, c: CandidateId)
    requires TableInv(db) && ActiveIs(db, q, c)
    ensures Closes(db, Landed(db, c), c)
  {
    assert Ids(Landed(db, c).candidates[c]) == Ids(db.candidates[c]);
  }

  lemma AbandonCloses(db: Db, q: Queue, c: CandidateId, to: CandidateState)
    requires TableInv(db) && ActiveIs(db, q, c) && (to.Failed? || to.Superseded?)
    ensures Closes(db, Abandoned(db, c, to), c)
  {
    var row := db.candidates[c];
    forall e | e in Ids(row) ensures db.entries[e].state.Batched? && Member(e, Culprit) !in row.members {
      assert Holds(row, e);
    }
  }

  lemma BlameNames(row: CandidateRow, row': CandidateRow, culprit: EntryId)
    requires Distinct(Ids(row)) && culprit in Ids(row)
    requires row'.members == Outcomes(row.members, e => if e == culprit then Culprit else Skipped)
    ensures OneCulprit(row') && Ids(row') == Ids(row)
    ensures forall e :: Member(e, Culprit) in row'.members <==> e == culprit
  {
    var k :| 0 <= k < |row.members| && Ids(row)[k] == culprit;
    assert row'.members[k] == Member(culprit, Culprit);
    assert forall i :: 0 <= i < |row.members| && i != k ==> Ids(row)[i] != culprit;
  }

  lemma BlameCloses(db: Db, q: Queue, c: CandidateId, culprit: EntryId, maxAttempts: nat, reason: string)
    requires TableInv(db) && ActiveIs(db, q, c) && Holds(db.candidates[c], culprit)
    ensures Closes(db, Blamed(db, c, culprit, maxAttempts, reason), c)
    ensures OneCulprit(Blamed(db, c, culprit, maxAttempts, reason).candidates[c])
  {
    var row := db.candidates[c];
    assert Sound(db.entries, row);
    BlameNames(row, Blamed(db, c, culprit, maxAttempts, reason).candidates[c], culprit);
    forall e | e in Ids(row) ensures db.entries[e].state.Batched? {
      assert Holds(row, e);
    }
  }

  lemma LandKeeps(db: Db, q: Queue, c: CandidateId)
    requires TableInv(db) && ActiveIs(db, q, c) && db.candidates[c].state.Testing?
    ensures KeptBy(db, Landed(db, c), q) && NoneActive(Landed(db, c), q)
  {
    LandCloses(db, q, c);
    CloseKeeps(db, Landed(db, c), q, c);
  }

  lemma AbandonKeeps(db: Db, q: Queue, c: CandidateId, to: CandidateState)
    requires TableInv(db) && ActiveIs(db, q, c) && (to.Superseded? || (to.Failed? && db.candidates[c].state.Testing?))
    ensures KeptBy(db, Abandoned(db, c, to), q) && NoneActive(Abandoned(db, c, to), q)
  {
    AbandonCloses(db, q, c, to);
    CloseKeeps(db, Abandoned(db, c, to), q, c);
  }

  lemma BlameKeeps(db: Db, q: Queue, c: CandidateId, culprit: EntryId, maxAttempts: nat, reason: string)
    requires TableInv(db) && ActiveIs(db, q, c) && Holds(db.candidates[c], culprit)
    ensures var db' := Blamed(db, c, culprit, maxAttempts, reason); KeptBy(db, db', q) && NoneActive(db', q)
  {
    BlameCloses(db, q, c, culprit, maxAttempts, reason);
    CloseKeeps(db, Blamed(db, c, culprit, maxAttempts, reason), q, c);
  }

  /** With one active candidate, clearing orphans is superseding it. */
  lemma ReclaimIsAbandon(db: Db, q: Queue)
    requires TableInv(db)
    ensures var active := ActiveCandidate(db, q);
            Reclaimed(db, q) == if active.Some? then Abandoned(db, active.value, Superseded) else db
  {
    var active := ActiveCandidate(db, q);
    var goal := if active.Some? then Abandoned(db, active.value, Superseded) else db;
    var got := Reclaimed(db, q);
    assert got.candidates == goal.candidates;
    forall e | 0 <= e < |db.entries| ensures got.entries[e] == goal.entries[e] {
      if active.Some? {
        assert Orphaned(db, q, e) <==> Holds(db.candidates[active.value], e);
      }
    }
    assert got.entries == goal.entries;
  }

  lemma ReclaimKeeps(db: Db, q: Queue)
    requires TableInv(db)
    ensures KeptBy(db, Reclaimed(db, q), q) && NoneActive(Reclaimed(db, q), q)
  {
    ReclaimIsAbandon(db, q);
    var active := ActiveCandidate(db, q);
    if active.Some? {
      AbandonKeeps(db, q, active.value, Superseded);
    }
  }

  // ----- commands given by hand

  lemma NewcomerIsNowhere(db: Db, n: EntryId)
    requires AllSound(db) && n == |db.entries|
    ensures forall c :: 0 <= c < |db.candidates| ==> !Holds(db.candidates[c], n)
    ensures Convictions(db.candidates, n) == {}
  {
    forall c | 0 <= c < |db.candidates|
      ensures !Holds(db.candidates[c], n) && Member(n, Culprit) !in db.candidates[c].members
    {
      assert Sound(db.entries, db.candidates[c]);
      assert forall i :: 0 <= i < |db.candidates[c].members| ==> Ids(db.candidates[c])[i] in Ids(db.candidates[c]);
    }
  }

  lemma EnqueueKeeps(db: Db, q: Queue, branch: string, sha: Sha)
    requires TableInv(db)
    ensures KeptBy(db, Enqueued(db, q, branch, sha), q)
  {
    NewcomerIsNowhere(db, |db.entries|);
  }

  /** A waiting row is in no active candidate, so re-ranking or removing it disturbs none. */
  lemma AmendKeeps(db: Db, q: Queue, e: EntryId, row: EntryRow)
    requires TableInv(db) && Waits(db, q, e)
    requires row.(state := Queued, priority := db.entries[e].priority, reason := db.entries[e].reason) == db.entries[e]
    requires (row.state.Queued? || row.state.Evicted?) && row.priority >= 0
    ensures KeptBy(db, db.(entries := db.entries[e := row]), q)
  {
    assert !InFlight(db.candidates, e);
    assert forall c :: 0 <= c < |db.candidates| && db.candidates[c].state.IsActive() ==> !Holds(db.candidates[c], e);
  }

  lemma DequeueKeeps(db: Db, q: Queue, e: EntryId)
    requires TableInv(db)
    ensures KeptBy(db, Dequeued(db, q, e), q)
  {
    if Waits(db, q, e) {
      AmendKeeps(db, q, e, db.entries[e].(state := Evicted, reason := Some(REMOVED_BY_HAND)));
    }
  }

  lemma TopIsNatural(db: Db, q: Queue)
    requires forall e :: 0 <= e < |db.entries| ==> db.entries[e].priority >= 0
    ensures TopPriority(db.entries, q) >= 0
  {
    MaxPriorityIsMax(db.entries, q);
  }

  lemma RaiseKeeps(db: Db, q: Queue, e: EntryId, priority: int)
    requires TableInv(db) && Waits(db, q, e) && priority >= 0
    ensures KeptBy(db, db.(entries := db.entries[e := db.entries[e].(priority := priority)]), q)
  {
    AmendKeeps(db, q, e, db.entries[e].(priority := priority));
  }

  lemma PromoteKeeps(db: Db, q: Queue, e: EntryId)
    requires TableInv(db)
    ensures KeptBy(db, Promoted(db, q, e), q)
  {
    if Waits(db, q, e) {
      TopIsNatural(db, q);
      RaiseKeeps(db, q, e, TopPriority(db.entries, q) + 1);
    }
  }
}
