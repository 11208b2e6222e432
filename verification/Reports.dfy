/** What a tick says of itself, in its outcome and through the hook, and what it has done to the entries it took. */
module Reports {
  import opened Vocabulary
  import opened States
  import opened Tables
  import opened TableInvariant
  import opened Protocol
  import opened Storage
  import opened Advancing
  import opened Workers
  import opened Announcements
  import Ranking
  import Termination

  // ----- the entries in hand

  ghost function Members(ids: seq<EntryId>): set<EntryId> {
    set e | e in ids
  }

  lemma {:induction false} DistinctCount(ids: seq<EntryId>)
    requires Distinct(ids)
    ensures |Members(ids)| == |ids|
  {
    if ids == [] {
      assert Members(ids) == {};
    } else {
      var n := |ids| - 1;
      DistinctCount(ids[..n]);
      assert ids[n] !in ids[..n];
      assert forall e :: e in ids <==> e in ids[..n] || e == ids[n];
      assert Members(ids) == Members(ids[..n]) + {ids[n]};
    }
  }

  ghost predicate InBatch(es: seq<EntryRow>, q: Queue, ids: seq<EntryId>) {
    && ids != [] && Distinct(ids)
    && forall e :: e in ids ==> e < |es| && es[e].state.Batched? && es[e].queue == q
  }

  lemma MembersAreBatched(db: Db, q: Queue, c: CandidateId)
    requires Holding(db, q, c)
    ensures InBatch(db.entries, q, Ids(db.candidates[c]))
  {
    assert Sound(db.entries, db.candidates[c]);
    forall e | e in Ids(db.candidates[c]) ensures db.entries[e].state.Batched? {
      Termination.MemberIsLive(db, q, c, e, 1);
    }
  }

  // ----- what may become of them

  ghost predicate OthersStay(es: seq<EntryRow>, es': seq<EntryRow>, ids: seq<EntryId>) {
    |es'| == |es| && forall e :: 0 <= e < |es| && e !in ids ==> es'[e] == es[e]
  }

  /** All of them wait again, for free. */
  ghost predicate AllBack(es: seq<EntryRow>, es': seq<EntryRow>, ids: seq<EntryId>) {
    OthersStay(es, es', ids) && forall e :: e in ids && e < |es| ==> es'[e] == es[e].(state := Queued)
  }

  ghost predicate AllMerged(es: seq<EntryRow>, es': seq<EntryRow>, ids: seq<EntryId>) {
    OthersStay(es, es', ids) && forall e :: e in ids && e < |es| ==> es'[e] == es[e].(state := EntryState.Merged)
  }

  /** One of them pays; the others wait again. */
  ghost predicate OnePays(es: seq<EntryRow>, es': seq<EntryRow>, ids: seq<EntryId>, culprit: EntryId, maxAttempts: nat,
                          fault: string) {
    && OthersStay(es, es', ids) && culprit in ids && culprit < |es|
    && Pays(es[culprit], es'[culprit], maxAttempts, fault)
    && forall e :: e in ids && e != culprit && e < |es| ==> es'[e] == es[e].(state := Queued)
  }

  /** The first half stays in hand; the second waits again. */
  ghost predicate SecondHalfBack(es: seq<EntryRow>, es': seq<EntryRow>, ids: seq<EntryId>) {
    && OthersStay(es, es', ids)
    && (forall e :: e in ids[..|ids| / 2] && e < |es| ==> es'[e] == es[e])
    && (forall e :: e in ids[|ids| / 2..] && e < |es| ==> es'[e] == es[e].(state := Queued))
  }

  lemma AbandonedAreBack(db: Db, q: Queue, c: CandidateId, to: CandidateState)
    requires Holding(db, q, c)
    ensures AllBack(db.entries, Tables.Abandoned(db, c, to).entries, Ids(db.candidates[c]))
    ensures PutBack(db, c) == |Ids(db.candidates[c])|
  {
    var ids := Ids(db.candidates[c]);
    MembersAreBatched(db, q, c);
    DistinctCount(ids);
    assert BatchedAmong(db.entries, ids) == Members(ids);
  }

  lemma LandedAreMerged(db: Db, c: CandidateId)
    requires c < |db.candidates|
    ensures AllMerged(db.entries, Tables.Landed(db, c).entries, Ids(db.candidates[c]))
  {
  }

  lemma BlamedHasPaid(db: Db, q: Queue, c: CandidateId, culprit: EntryId, maxAttempts: nat, fault: string)
    requires Holding(db, q, c) && culprit in Ids(db.candidates[c])
    ensures OnePays(db.entries, Tables.Blamed(db, c, culprit, maxAttempts, fault).entries, Ids(db.candidates[c]),
                    culprit, maxAttempts, fault)
  {
    MembersAreBatched(db, q, c);
  }

  lemma HalvesAreApart(ids: seq<EntryId>)
    requires Distinct(ids)
    ensures forall e :: e in ids <==> e in ids[..|ids| / 2] || e in ids[|ids| / 2..]
    ensures forall e :: e in ids[..|ids| / 2] ==> e !in ids[|ids| / 2..]
  {
    assert ids == ids[..|ids| / 2] + ids[|ids| / 2..];
  }

  lemma SplitIsHalfBack(db: Db, q: Queue, c: CandidateId)
    requires Holding(db, q, c)
    ensures var ids := Ids(db.candidates[c]);
            var db' := Opened(Tables.Abandoned(db, c, CandidateState.Failed), q, db.candidates[c].base,
                              ids[..|ids| / 2], Some(c));
            SecondHalfBack(db.entries, db'.entries, ids)
  {
    var ids := Ids(db.candidates[c]);
    MembersAreBatched(db, q, c);
    HalvesAreApart(ids);
  }

  // ----- the outcome

  /** What comes of a candidate that was assembled, by what the gate, the base and the signal flag were then. */
  ghost predicate Verdict(es: seq<EntryRow>, ids: seq<EntryId>, c: CandidateId, next: CandidateId, config: Config,
                          a: Answers, db': Db, out: TickOutcome)
    requires ids != []
  {
    if a.passed && a.stale then
      out == Abandoned(c, BaseMoved, |ids|) && AllBack(es, db'.entries, ids)
    else if a.passed then
      out == Landed(c, |ids|, a.tip) && AllMerged(es, db'.entries, ids)
    else if a.interrupted then
      out == Abandoned(c, Interrupted, |ids|) && AllBack(es, db'.entries, ids)
    else if |ids| == 1 then
      && OnePays(es, db'.entries, ids, ids[0], config.maxAttempts, "failed the gate on its own")
      && out == Blamed(c, ids[0], db'.entries[ids[0]].state.Evicted?, "failed the gate on its own")
    else
      && out == Split(c, next, |ids| / 2) && SecondHalfBack(es, db'.entries, ids)
      && |db'.candidates| == next + 1 && db'.candidates[next].parent == Some(c)
      && Ids(db'.candidates[next]) == ids[..|ids| / 2]
  }

  /** What work on this candidate reports, and what it has done to the entries. */
  ghost predicate Reported(s: Db, c: CandidateId, base: Sha, config: Config, a: Answers, db': Db, out: TickOutcome)
    requires c < |s.candidates| && s.candidates[c].members != []
  {
    var es, es', ids := s.entries, db'.entries, Ids(s.candidates[c]);
    if s.candidates[c].base != base then
      out == Abandoned(c, BaseMoved, |ids|) && AllBack(es, es', ids)
    else if a.conflict.Some? && a.conflict.value < |ids| then
      var e := ids[a.conflict.value];
      && OnePays(es, es', ids, e, config.maxAttempts, "conflicts with the base branch")
      && out == Blamed(c, e, es'[e].state.Evicted?, "conflicts with the base branch")
    else Verdict(es, ids, c, |s.candidates|, config, a, db', out)
  }

  lemma JudgeReports(s: Db, q: Queue, c: CandidateId, config: Config, a: Answers)
    requires Holding(s, q, c) && Ids(s.candidates[c]) != []
    ensures var (db', out) := Judge(s, q, c, config, a);
            Verdict(s.entries, Ids(s.candidates[c]), c, |s.candidates|, config, a, db', out)
  {
    var ids := Ids(s.candidates[c]);
    if a.passed && !a.stale {
      LandedAreMerged(s, c);
    } else if a.passed || a.interrupted {
      AbandonedAreBack(s, q, c, Superseded);
    } else if |ids| == 1 {
      BlamedHasPaid(s, q, c, ids[0], config.maxAttempts, FAILED_ALONE);
    } else {
      SplitIsHalfBack(s, q, c);
      assert Ids(OnGateFailure(s, q, c, config).0.candidates[|s.candidates|]) == ids[..|ids| / 2];
    }
  }

  lemma WorkReports(s: Db, q: Queue, c: CandidateId, base: Sha, config: Config, a: Answers)
    requires Holding(s, q, c) && s.candidates[c].members != []
    ensures var (db', out) := Work(s, q, c, base, config, a); Reported(s, c, base, config, a, db', out)
  {
    var ids := Ids(s.candidates[c]);
    if s.candidates[c].base != base {
      AbandonedAreBack(s, q, c, Superseded);
    } else if HitsConflict(ids, a) {
      BlamedHasPaid(s, q, c, ids[a.conflict.value], config.maxAttempts, CONFLICTS);
    } else {
      UnderTestHolds(s, q, c, a.tip);
      JudgeReports(UnderTest(s, c, a.tip), q, c, config, a);
    }
  }

  /**
   Every tick with something to work on reports exactly what it did; with nothing,
   it is idle and has done nothing.
   */
  lemma TickReports(db: Db, q: Queue, base: Sha, config: Config, a: Answers)
    requires TableInv(db)
    ensures var (db', out) := Advance(db, q, base, config, a);
            var (s, c) := Started(db, q, base, config);
            if Picked(db, q, config) == [] then db' == db && out == Idle
            else
              && c < |s.candidates| && s.candidates[c].members != [] && Ids(s.candidates[c]) == Picked(db, q, config)
              && Reported(s, c, base, config, a, db', out)
  {
    StartedHolds(db, q, base, config);
    if Picked(db, q, config) != [] {
      var (s, c) := Started(db, q, base, config);
      AdvanceIsWork(db, q, base, config, a);
      WorkReports(s, q, c, base, config, a);
    }
  }

  lemma StartedHolds(db: Db, q: Queue, base: Sha, config: Config)
    requires TableInv(db)
    ensures Picked(db, q, config) != [] ==>
              var (s, c) := Started(db, q, base, config);
              Holding(s, q, c) && s.candidates[c].members != [] && Ids(s.candidates[c]) == Picked(db, q, config)
    ensures Picked(db, q, config) == [] ==> ActiveCandidate(db, q).None?
  {
    var active := ActiveCandidate(db, q);
    if active.Some? {
      assert Sound(db.entries, db.candidates[active.value]);
    } else if Picked(db, q, config) != [] {
      SelectedHolds(db, q, base, config.maxBatch);
    }
  }

  // ----- the hook

  /** These calls are of exactly the entries finished between, each once, and say what the rows then say. */
  ghost predicate Tells(es: seq<EntryRow>, es': seq<EntryRow>, calls: seq<Settlement>) {
    && |es'| == |es| && EntriesDistinct(calls)
    && (forall i :: 0 <= i < |calls| ==> Describes(es', calls[i]))
    && (forall e :: 0 <= e < |es| ==> (Mentions(calls, e) <==> es[e].state.IsLive() && !es'[e].state.IsLive()))
  }

  /** Nobody was finished. */
  ghost predicate NoneFinished(es: seq<EntryRow>, es': seq<EntryRow>) {
    |es'| == |es| && forall e :: 0 <= e < |es| ==> (es'[e].state.IsLive() <==> es[e].state.IsLive())
  }

  lemma NoneToTell(es: seq<EntryRow>, es': seq<EntryRow>)
    requires NoneFinished(es, es')
    ensures Tells(es, es', [])
  {
  }

  lemma LandedAreTold(es: seq<EntryRow>, es': seq<EntryRow>, q: Queue, ids: seq<EntryId>, calls: seq<Settlement>)
    requires InBatch(es, q, ids) && AllMerged(es, es', ids) && |calls| == |ids|
    requires forall i :: 0 <= i < |ids| ==>
               ids[i] < |es'| && calls[i] == Settlement(q, ids[i], EntryState.Merged, es'[ids[i]].attempts, None)
    ensures Tells(es, es', calls)
  {
    forall e | 0 <= e < |es| ensures Mentions(calls, e) <==> es[e].state.IsLive() && !es'[e].state.IsLive() {
      if e in ids {
        var i :| 0 <= i < |ids| && ids[i] == e;
        assert calls[i].entry == e;
      }
    }
  }

  lemma BlamedIsTold(es: seq<EntryRow>, es': seq<EntryRow>, q: Queue, ids: seq<EntryId>, culprit: EntryId,
                     maxAttempts: nat, fault: string, calls: seq<Settlement>)
    requires InBatch(es, q, ids) && OnePays(es, es', ids, culprit, maxAttempts, fault) && fault != REMOVED_BY_HAND
    requires var row := es'[culprit];
             calls == if row.state.Evicted?
                      then [Settlement(row.queue, culprit, EntryState.Evicted, row.attempts, Some(fault))] else []
    ensures Tells(es, es', calls)
  {
    if calls != [] { assert calls[0].entry == culprit; }
  }

  /** With a hook in its configuration a tick calls it for what it settled; without one it calls nobody. */
  ghost predicate Heard(config: Config, es: seq<EntryRow>, es': seq<EntryRow>, calls: seq<Settlement>) {
    if config.onSettle.None? then calls == [] else Tells(es, es', calls)
  }

  lemma HooklessTellsNobody(config: Config, db: Db, out: TickOutcome)
    requires config.onSettle.None?
    ensures ToldBy(config, db, out) == []
  {
  }

  lemma LandingIsHeard(s: Db, q: Queue, c: CandidateId, config: Config, at: Sha)
    requires Holding(s, q, c) && config.onSettle.Some?
    ensures var db' := Tables.Landed(s, c);
            Tells(s.entries, db'.entries, ToldBy(config, db', Landed(c, |s.candidates[c].members|, at)))
  {
    var db', ids := Tables.Landed(s, c), Ids(s.candidates[c]);
    MembersAreBatched(s, q, c);
    LandedAreMerged(s, c);
    assert Ids(db'.candidates[c]) == ids;
    assert Known(db'.entries, ids) by { assert forall i :: 0 <= i < |ids| ==> ids[i] in ids; }
    LandedAreTold(s.entries, db'.entries, q, ids, LandedSettlements(db', c));
  }

  lemma BlamingIsHeard(s: Db, q: Queue, c: CandidateId, culprit: EntryId, config: Config, fault: string)
    requires Holding(s, q, c) && config.onSettle.Some? && culprit in Ids(s.candidates[c]) && fault != REMOVED_BY_HAND
    ensures var (db', out) := Pin(s, c, culprit, config, fault); Tells(s.entries, db'.entries, ToldBy(config, db', out))
  {
    var (db', out) := Pin(s, c, culprit, config, fault);
    MembersAreBatched(s, q, c);
    BlamedHasPaid(s, q, c, culprit, config.maxAttempts, fault);
    BlamedIsTold(s.entries, db'.entries, q, Ids(s.candidates[c]), culprit, config.maxAttempts, fault,
                 ToldBy(config, db', out));
  }

  lemma BackIsQuiet(es: seq<EntryRow>, es': seq<EntryRow>, q: Queue, ids: seq<EntryId>)
    requires InBatch(es, q, ids) && (AllBack(es, es', ids) || SecondHalfBack(es, es', ids))
    ensures Tells(es, es', [])
  {
    HalvesAreApart(ids);
    NoneToTell(es, es');
  }

  lemma JudgeIsHeard(s: Db, q: Queue, c: CandidateId, config: Config, a: Answers)
    requires Holding(s, q, c) && Ids(s.candidates[c]) != [] && config.onSettle.Some?
    ensures var (db', out) := Judge(s, q, c, config, a); Tells(s.entries, db'.entries, ToldBy(config, db', out))
  {
    var ids := Ids(s.candidates[c]);
    MembersAreBatched(s, q, c);
    JudgeReports(s, q, c, config, a);
    var (db', out) := Judge(s, q, c, config, a);
    if a.passed && !a.stale {
      LandingIsHeard(s, q, c, config, a.tip);
    } else if !a.passed && !a.interrupted && |ids| == 1 {
      BlamingIsHeard(s, q, c, ids[0], config, FAILED_ALONE);
    } else {
      BackIsQuiet(s.entries, db'.entries, q, ids);
    }
  }

  lemma WorkIsHeard(s: Db, q: Queue, c: CandidateId, base: Sha, config: Config, a: Answers, trouble: Option<Trouble>)
    requires Holding(s, q, c) && Ids(s.candidates[c]) != [] && config.onSettle.Some?
    ensures var (db', out) := WorkUnder(s, q, c, base, config, a, trouble);
            Tells(s.entries, db'.entries, ToldBy(config, db', out))
  {
    var ids := Ids(s.candidates[c]);
    var (db', out) := WorkUnder(s, q, c, base, config, a, trouble);
    if out.Failed? && db'.entries == s.entries {
      NoneToTell(s.entries, db'.entries);
    } else if s.candidates[c].base != base {
      MembersAreBatched(s, q, c);
      AbandonedAreBack(s, q, c, Superseded);
      BackIsQuiet(s.entries, db'.entries, q, ids);
    } else if HitsConflict(ids, a) {
      BlamingIsHeard(s, q, c, ids[a.conflict.value], config, CONFLICTS);
    } else {
      UnderTestHolds(s, q, c, a.tip);
      JudgeIsHeard(UnderTest(s, c, a.tip), q, c, config, a);
    }
  }

  lemma HeardAfterOpening(es: seq<EntryRow>, begun: seq<EntryRow>, es': seq<EntryRow>, calls: seq<Settlement>)
    requires NoneFinished(es, begun) && Tells(begun, es', calls)
    ensures Tells(es, es', calls)
  {
  }

  lemma StartingFinishesNone(db: Db, q: Queue, base: Sha, config: Config)
    requires TableInv(db)
    ensures NoneFinished(db.entries, Started(db, q, base, config).0.entries)
  {
    var batch := Ranking.SelectBatch(db, q, config.maxBatch);
    forall e | e in batch ensures Waits(db, q, e) {
      assert e in Ranking.Waiting(db, q);
    }
  }

  /** Whatever was answered and whatever gave out, a tick calls the hook for exactly what it settled. */
  lemma TickIsHeard(db: Db, q: Queue, base: Sha, config: Config, a: Answers, trouble: Option<Trouble>)
    requires TableInv(db)
    ensures var (db', out) := AdvanceUnder(db, q, base, config, a, trouble);
            Heard(config, db.entries, db'.entries, ToldBy(config, db', out))
  {
    var (db', out) := AdvanceUnder(db, q, base, config, a, trouble);
    if config.onSettle.None? {
      HooklessTellsNobody(config, db', out);
    } else if trouble == Some(AtPrune) || Picked(db, q, config) == [] {
      NoneToTell(db.entries, db'.entries);
    } else {
      StartedHolds(db, q, base, config);
      StartingFinishesNone(db, q, base, config);
      var (s, c) := Started(db, q, base, config);
      WorkIsHeard(s, q, c, base, config, a, trouble);
      HeardAfterOpening(db.entries, s.entries, db'.entries, ToldBy(config, db', out));
    }
  }
}
