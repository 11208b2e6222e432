/** The loop around ticks: what it counts is what happened to the tables, and when it gives up. */
module Looping {
  import opened Vocabulary
  import opened States
  import opened Tables
  import Ranking
  import opened TableInvariant
  import Protocol
  import opened Storage
  import opened Advancing
  import opened Workers
  import opened Reports

  // ----- what a tick adds to the finished entries

  ghost function InState(es: seq<EntryRow>, q: Queue, state: EntryState): set<EntryId> {
    set e: EntryId | e < |es| && es[e].queue == q && es[e].state == state
  }

  ghost function MergedIn(db: Db, q: Queue): set<EntryId> {
    InState(db.entries, q, EntryState.Merged)
  }

  ghost function EvictedIn(db: Db, q: Queue): set<EntryId> {
    InState(db.entries, q, EntryState.Evicted)
  }

  function LandedBy(out: TickOutcome): nat {
    if out.Landed? then out.entries else 0
  }

  function EvictedBy(out: TickOutcome): nat {
    if out.Blamed? && out.evicted then 1 else 0
  }

  /** The finished entries grew by what the outcome says. */
  ghost predicate Tallies(db: Db, db': Db, q: Queue, out: TickOutcome) {
    && |MergedIn(db', q)| == |MergedIn(db, q)| + LandedBy(out)
    && |EvictedIn(db', q)| == |EvictedIn(db, q)| + EvictedBy(out)
  }

  lemma SameFinished(db: Db, db': Db, q: Queue, out: TickOutcome)
    requires LandedBy(out) == 0 && EvictedBy(out) == 0 && |db'.entries| == |db.entries|
    requires forall e :: 0 <= e < |db.entries| ==>
               db'.entries[e] == db.entries[e] || (db'.entries[e].queue == db.entries[e].queue
                                                   && db.entries[e].state.IsLive() && db'.entries[e].state.IsLive())
    ensures Tallies(db, db', q, out)
  {
    assert MergedIn(db', q) == MergedIn(db, q);
    assert EvictedIn(db', q) == EvictedIn(db, q);
  }

  lemma MergingCounts(es: seq<EntryRow>, ids: seq<EntryId>, q: Queue)
    requires Distinct(ids) && forall e :: e in ids ==> e < |es| && es[e].state.Batched? && es[e].queue == q
    ensures var es' := SetStates(es, ids, false, EntryState.Merged);
            && |InState(es', q, EntryState.Merged)| == |InState(es, q, EntryState.Merged)| + |ids|
            && InState(es', q, EntryState.Evicted) == InState(es, q, EntryState.Evicted)
  {
    var es' := SetStates(es, ids, false, EntryState.Merged);
    DistinctCount(ids);
    assert InState(es', q, EntryState.Merged) == InState(es, q, EntryState.Merged) + Members(ids);
    assert InState(es, q, EntryState.Merged) !! Members(ids);
    assert InState(es', q, EntryState.Evicted) == InState(es, q, EntryState.Evicted);
  }

  lemma LandTallies(db: Db, q: Queue, c: CandidateId, out: TickOutcome)
    requires Holding(db, q, c) && out.Landed? && out.entries == |db.candidates[c].members|
    ensures Tallies(db, Tables.Landed(db, c), q, out)
  {
    MembersAreBatched(db, q, c);
    MergingCounts(db.entries, Ids(db.candidates[c]), q);
  }

  lemma ChargingCounts(es: seq<EntryRow>, ids: seq<EntryId>, culprit: EntryId, row: EntryRow, q: Queue)
    requires culprit < |es| && es[culprit].state.Batched? && es[culprit].queue == q == row.queue
    requires row.state.Queued? || row.state.Evicted?
    ensures var es' := SetStates(es, ids, true, Queued)[culprit := row];
            && InState(es', q, EntryState.Merged) == InState(es, q, EntryState.Merged)
            && |InState(es', q, EntryState.Evicted)|
            == |InState(es, q, EntryState.Evicted)| + if row.state.Evicted? then 1 else 0
  {
    var es' := SetStates(es, ids, true, Queued)[culprit := row];
    assert InState(es', q, EntryState.Merged) == InState(es, q, EntryState.Merged);
    assert InState(es', q, EntryState.Evicted)
        == InState(es, q, EntryState.Evicted) + if row.state.Evicted? then {culprit} else {};
  }

  lemma BlameTallies(db: Db, q: Queue, c: CandidateId, culprit: EntryId, config: Config, fault: string)
    requires Holding(db, q, c) && culprit in Ids(db.candidates[c])
    ensures var (db', out) := Pin(db, c, culprit, config, fault); Tallies(db, db', q, out)
  {
    MembersAreBatched(db, q, c);
    ChargingCounts(db.entries, Ids(db.candidates[c]), culprit, Charged(db, culprit, config.maxAttempts, fault), q);
  }

  lemma DiscardTallies(db: Db, q: Queue, c: CandidateId, why: Why)
    ensures var (db', out) := Discard(db, c, why); Tallies(db, db', q, out)
  {
    var (db', out) := Discard(db, c, why);
    SameFinished(db, db', q, out);
  }

  lemma OpenTallies(db: Db, q: Queue, base: Sha, batch: seq<EntryId>, parent: Option<CandidateId>, out: TickOutcome)
    requires LandedBy(out) == 0 && EvictedBy(out) == 0 && forall e :: e in batch ==> Waits(db, q, e)
    ensures Tallies(db, Opened(db, q, base, batch, parent), q, out)
  {
    SameFinished(db, Opened(db, q, base, batch, parent), q, out);
  }

  lemma SplitTallies(db: Db, q: Queue, c: CandidateId, out: TickOutcome)
    requires Holding(db, q, c) && db.candidates[c].state.Testing? && |Ids(db.candidates[c])| >= 2 && out.Split?
    ensures var ids := Ids(db.candidates[c]);
            var free := Tables.Abandoned(db, c, CandidateState.Failed);
            Tallies(db, Opened(free, q, db.candidates[c].base, ids[..|ids| / 2], Some(c)), q, out)
  {
    var ids, free := Ids(db.candidates[c]), Tables.Abandoned(db, c, CandidateState.Failed);
    LeftHolds(db, q, c);
    SameFinished(db, free, q, Idle);
    OpenTallies(free, q, db.candidates[c].base, ids[..|ids| / 2], Some(c), out);
  }

  lemma WorkTallies(db: Db, q: Queue, c: CandidateId, base: Sha, config: Config, a: Answers)
    requires Holding(db, q, c)
    ensures var (db', out) := Work(db, q, c, base, config, a); Tallies(db, db', q, out)
  {
    var ids := Ids(db.candidates[c]);
    assert Sound(db.entries, db.candidates[c]);
    if db.candidates[c].base != base {
      DiscardTallies(db, q, c, BaseMoved);
    } else if HitsConflict(ids, a) {
      BlameTallies(db, q, c, ids[a.conflict.value], config, CONFLICTS);
    } else {
      var tested := UnderTest(db, c, a.tip);
      UnderTestHolds(db, q, c, a.tip);
      if a.passed && !a.stale { LandTallies(tested, q, c, Judge(tested, q, c, config, a).1); }
      else if a.passed { DiscardTallies(tested, q, c, BaseMoved); }
      else if a.interrupted { DiscardTallies(tested, q, c, Interrupted); }
      else if |ids| == 1 { BlameTallies(tested, q, c, ids[0], config, FAILED_ALONE); }
      else { SplitTallies(tested, q, c, OnGateFailure(tested, q, c, config).1); }
    }
  }

  lemma AdvanceTallies(db: Db, q: Queue, base: Sha, config: Config, a: Answers)
    requires TableInv(db)
    ensures var (db', out) := Advance(db, q, base, config, a); Tallies(db, db', q, out)
  {
    var active := ActiveCandidate(db, q);
    if active.Some? {
      WorkTallies(db, q, active.value, base, config, a);
    } else {
      var batch := Ranking.SelectBatch(db, q, config.maxBatch);
      if batch != [] {
        var started := Opened(db, q, base, batch, None);
        SelectedHolds(db, q, base, config.maxBatch);
        SameFinished(db, started, q, Idle);
        WorkTallies(started, q, |db.candidates|, base, config, a);
      }
    }
  }

  // ----- the loop

  datatype WorkSummary = WorkSummary(ticks: nat, entriesLanded: nat, entriesEvicted: nat, failures: nat)

  function Record(summary: WorkSummary, out: TickOutcome): WorkSummary {
    match out
    case Landed(_, entries, _) => summary.(entriesLanded := summary.entriesLanded + entries)
    case Blamed(_, _, true, _) => summary.(entriesEvicted := summary.entriesEvicted + 1)
    case _ => summary
  }

  /** How many ticks in a row failed at the end. */
  function FailingSince(seen: seq<TickOutcome>): nat {
    if seen == [] || !seen[|seen| - 1].Failed? then 0 else 1 + FailingSince(seen[..|seen| - 1])
  }

  /** The last k ticks failed, and the one before them did not. */
  ghost predicate FailedLast(seen: seq<TickOutcome>, k: nat) {
    && k <= |seen| && (forall i :: |seen| - k <= i < |seen| ==> seen[i].Failed?)
    && (k < |seen| ==> !seen[|seen| - k - 1].Failed?)
  }

  lemma {:induction false} FailingSinceIs(seen: seq<TickOutcome>)
    ensures FailedLast(seen, FailingSince(seen))
    decreases |seen|
  {
    if seen != [] && seen[|seen| - 1].Failed? {
      FailingSinceIs(seen[..|seen| - 1]);
    }
  }

  predicate AllFailed(seen: seq<TickOutcome>, from: nat, k: nat) {
    from + k <= |seen| && forall i :: from <= i < from + k ==> seen[i].Failed?
  }

  /** Somewhere in these outcomes are k failures in a row. */
  ghost predicate FailedInARow(seen: seq<TickOutcome>, k: nat) {
    exists from: nat :: AllFailed(seen, from, k)
  }

  /** A tick that gives out part-way finishes nobody. */
  lemma FailingTallies(db: Db, q: Queue, base: Sha, config: Config, a: Answers, trouble: Option<Trouble>)
    requires TableInv(db) && AdvanceUnder(db, q, base, config, a, trouble).1.Failed?
    ensures var (db', out) := AdvanceUnder(db, q, base, config, a, trouble); Tallies(db, db', q, out)
  {
    var (db', out) := AdvanceUnder(db, q, base, config, a, trouble);
    AdvanceUnderKeeps(db, q, base, config, a, trouble);
    var active := ActiveCandidate(db, q);
    if db' != db && active.None? {
      forall e | e in Ranking.SelectBatch(db, q, config.maxBatch) ensures Waits(db, q, e) {
        assert e in Ranking.Waiting(db, q);
      }
    }
    SameFinished(db, db', q, out);
  }

  lemma UnderTallies(db: Db, q: Queue, base: Sha, config: Config, a: Answers, trouble: Option<Trouble>)
    requires TableInv(db)
    ensures var (db', out) := AdvanceUnder(db, q, base, config, a, trouble); Tallies(db, db', q, out)
  {
    if AdvanceUnder(db, q, base, config, a, trouble).1.Failed? {
      FailingTallies(db, q, base, config, a, trouble);
    } else {
      AdvanceTallies(db, q, base, config, a);
    }
  }

  /** One tick more: the tables stay sound and the finished entries grow by what it reports. */
  lemma FollowingTallies(w: Worker, db: Db, refs: map<string, Sha>, minted: nat, runs: seq<Protocol.GateRun>,
                         day: Day, db': Db, runs': seq<Protocol.GateRun>, r: TickOutcome)
    requires TableInv(db)
    requires Referential(db) && w.Follows(db, refs, minted, runs, day, db', runs', r)
    ensures TableInv(db') && Tallies(db, db', w.queue, r)
  {
    var q := w.queue;
    if Some(q.base) in w.git.worktrees || q.base !in refs || w.git.configs(refs[q.base]).None? {
      SameFinished(db, db', q, r);
    } else {
      var base := refs[q.base];
      var config := w.git.configs(base).value;
      PickedAreKnown(db, q, config);
      var a := w.AnswersTo(Protocol.ShasAt(db.entries, Picked(db, q, config)), base, day, minted);
      AdvanceUnderKeeps(db, q, base, config, a, day.trouble);
      UnderTallies(db, q, base, config, a, day.trouble);
    }
  }

  lemma ReclaimTallies(db: Db, q: Queue)
    requires TableInv(db)
    ensures var db' := Reclaimed(db, q); TableInv(db') && Tallies(db, db', q, Idle)
  {
    ReclaimKeeps(db, q);
    SameFinished(db, Reclaimed(db, q), q, Idle);
  }

  lemma SoundIsReferential(db: Db)
    requires TableInv(db)
    ensures Referential(db)
  {
    forall c | 0 <= c < |db.candidates|
      ensures Protocol.Known(db.entries, Ids(db.candidates[c])) && Distinct(Ids(db.candidates[c]))
    {
      assert Sound(db.entries, db.candidates[c]);
      assert forall i :: 0 <= i < |Ids(db.candidates[c])| ==> Ids(db.candidates[c])[i] in Ids(db.candidates[c]);
    }
  }

  /** The finished entries are those there were and those the summary counts. */
  ghost predicate Counted(was: Db, db: Db, q: Queue, summary: WorkSummary) {
    && TableInv(db)
    && |MergedIn(db, q)| == |MergedIn(was, q)| + summary.entriesLanded
    && |EvictedIn(db, q)| == |EvictedIn(was, q)| + summary.entriesEvicted
  }

  lemma OneMoreCounted(was: Db, db: Db, db': Db, q: Queue, summary: WorkSummary, out: TickOutcome)
    requires Counted(was, db, q, summary) && TableInv(db') && Tallies(db, db', q, out)
    ensures Counted(was, db', q, if out.Failed? then summary.(failures := summary.failures + 1)
                                 else Record(summary.(ticks := summary.ticks + 1), out))
    ensures out.Failed? ==> Counted(was, db', q, summary)
  {
  }

  /** No run of failures had reached the limit before the last tick. */
  ghost predicate BoreWith(seen: seq<TickOutcome>, giveUpAfter: nat) {
    forall i :: 0 <= i < |seen| && FailingSince(seen[..i]) > 0 ==> FailingSince(seen[..i]) < giveUpAfter
  }

  /** Having borne with every run of failures before the last tick, no run was longer than is allowed. */
  lemma BornMeansNoRun(seen: seq<TickOutcome>, giveUpAfter: nat)
    requires BoreWith(seen, giveUpAfter) && giveUpAfter > 0
    ensures forall n :: 0 <= n < |seen| ==> !FailedInARow(seen[..n], giveUpAfter)
    ensures FailedInARow(seen, giveUpAfter) <==> FailingSince(seen) >= giveUpAfter
  {
    forall n | 0 <= n < |seen| ensures !FailedInARow(seen[..n], giveUpAfter) {
      if from: nat :| AllFailed(seen[..n], from, giveUpAfter) {
        RunReachesLimit(seen, n, from, giveUpAfter);
      }
    }
    FailingSinceIs(seen);
    if from: nat :| AllFailed(seen, from, giveUpAfter) {
      assert seen[..|seen|] == seen;
      RunReachesLimit(seen, |seen|, from, giveUpAfter);
      assert from + giveUpAfter == |seen|;
    }
    if FailingSince(seen) >= giveUpAfter {
      assert AllFailed(seen, |seen| - giveUpAfter, giveUpAfter);
    }
  }

  lemma RunReachesLimit(seen: seq<TickOutcome>, n: nat, from: nat, k: nat)
    requires n <= |seen| && AllFailed(seen[..n], from, k)
    ensures FailingSince(seen[..from + k]) >= k
  {
    FailingSinceIs(seen[..from + k]);
  }

  lemma OneMoreSeen(seen: seq<TickOutcome>, out: TickOutcome, giveUpAfter: nat)
    requires BoreWith(seen, giveUpAfter) && (FailingSince(seen) > 0 ==> FailingSince(seen) < giveUpAfter)
    ensures BoreWith(seen + [out], giveUpAfter)
    ensures FailingSince(seen + [out]) == if out.Failed? then FailingSince(seen) + 1 else 0
  {
    var more := seen + [out];
    assert more[..|seen|] == seen;
    assert forall i :: 0 <= i < |seen| ==> more[..i] == seen[..i];
  }

  /** It gave up if and only if so many ticks failed in a row, and there had been no such run before the last tick. */
  ghost predicate GivesUpAtFirstRun(seen: seq<TickOutcome>, giveUpAfter: nat, gaveUp: bool) {
    && BoreWith(seen, giveUpAfter)
    && (gaveUp <==> FailingSince(seen) > 0 && FailingSince(seen) >= giveUpAfter)
    && (giveUpAfter > 0 ==>
          && (gaveUp <==> FailedInARow(seen, giveUpAfter))
          && forall n :: 0 <= n < |seen| ==> !FailedInARow(seen[..n], giveUpAfter))
  }

  lemma BornMeansFirstRun(seen: seq<TickOutcome>, giveUpAfter: nat, gaveUp: bool)
    requires BoreWith(seen, giveUpAfter)
    requires gaveUp <==> FailingSince(seen) > 0 && FailingSince(seen) >= giveUpAfter
    ensures GivesUpAtFirstRun(seen, giveUpAfter, gaveUp)
  {
    if giveUpAfter > 0 {
      BornMeansNoRun(seen, giveUpAfter);
    }
  }

  /** What the summary says after these ticks. */
  function Summed(summary: WorkSummary, out: TickOutcome): WorkSummary {
    if out.Failed? then summary.(failures := summary.failures + 1)
    else Record(summary.(ticks := summary.ticks + 1), out)
  }

  /** Where the loop has got to: everything counted, and no run of failures long enough to give up so far. */
  ghost predicate GoesOn(was: Db, db: Db, q: Queue, summary: WorkSummary, seen: seq<TickOutcome>, consecutive: nat,
                         giveUpAfter: nat) {
    && Counted(was, db, q, summary) && summary.ticks + summary.failures == |seen|
    && consecutive == FailingSince(seen) && BoreWith(seen, giveUpAfter)
  }

  lemma OneMoreGoesOn(was: Db, db: Db, db': Db, q: Queue, summary: WorkSummary, seen: seq<TickOutcome>,
                      consecutive: nat, giveUpAfter: nat, out: TickOutcome)
    requires GoesOn(was, db, q, summary, seen, consecutive, giveUpAfter)
    requires (consecutive > 0 ==> consecutive < giveUpAfter) && TableInv(db') && Tallies(db, db', q, out)
    ensures GoesOn(was, db', q, Summed(summary, out), seen + [out], if out.Failed? then consecutive + 1 else 0,
                   giveUpAfter)
    ensures out.Failed? ==> GoesOn(was, db', q, summary, seen, consecutive, giveUpAfter)
  {
    OneMoreCounted(was, db, db', q, summary, out);
    OneMoreSeen(seen, out, giveUpAfter);
  }

  /** What has been kept up in the loop when it ends. */
  ghost predicate Concludes(was: Db, db: Db, q: Queue, summary: WorkSummary, seen: seq<TickOutcome>, giveUpAfter: nat,
                            gaveUp: bool) {
    && Counted(was, db, q, summary) && summary.ticks + summary.failures == |seen|
    && GivesUpAtFirstRun(seen, giveUpAfter, gaveUp)
  }

  lemma Concluded(was: Db, db: Db, q: Queue, summary: WorkSummary, seen: seq<TickOutcome>, consecutive: nat,
                  giveUpAfter: nat, gaveUp: bool)
    requires GoesOn(was, db, q, summary, seen, consecutive, giveUpAfter)
    requires gaveUp <==> consecutive > 0 && consecutive >= giveUpAfter
    ensures Concludes(was, db, q, summary, seen, giveUpAfter, gaveUp)
  {
    BornMeansFirstRun(seen, giveUpAfter, gaveUp);
  }

  /** Ticks go on until a stop is asked for or too many in a row have failed. */
  method KeepWorking(w: Worker, days: seq<Day>, giveUpAfter: nat)
    returns (summary: WorkSummary, seen: seq<TickOutcome>, gaveUp: bool)
    requires TableInv(w.store.Rows())
    modifies w, w.store, w.git
    ensures Concludes(old(w.store.Rows()), w.store.Rows(), w.queue, summary, seen, giveUpAfter, gaveUp)
    ensures |seen| <= |days|
    ensures |seen| < |days| ==> gaveUp || days[|seen|].stopping || (seen != [] && days[|seen| - 1].stopping)
  {
    summary, seen, gaveUp := WorkSummary(0, 0, 0, 0), [], false;
    ghost var was := w.store.Rows();
    var consecutive := 0;
    while |seen| < |days|
      invariant |seen| <= |days| && (consecutive > 0 ==> consecutive < giveUpAfter)
      invariant GoesOn(was, w.store.Rows(), w.queue, summary, seen, consecutive, giveUpAfter)
    {
      var day := days[|seen|];
      ghost var db := w.store.Rows();
      var out := OneTick(w, day);
      OneMoreGoesOn(was, db, w.store.Rows(), w.queue, summary, seen, consecutive, giveUpAfter, out);
      if out.Failed? && day.stopping {
        break;
      }
      seen := seen + [out];
      summary := Summed(summary, out);
      if out.Failed? {
        consecutive := consecutive + 1;
        if consecutive >= giveUpAfter {
          gaveUp := true;
          break;
        }
      } else {
        consecutive := 0;
        if day.stopping {
          break;
        }
      }
    }
    Concluded(was, w.store.Rows(), w.queue, summary, seen, consecutive, giveUpAfter, gaveUp);
  }

  /** The configuration in the base these refs name, if there is one. */
  ghost function ConfigAt(w: Worker, refs: map<string, Sha>): Option<Config>
    reads w
  {
    if w.queue.base in refs then w.git.configs(refs[w.queue.base]) else None
  }

  /** What the hook was called for under this configuration, or nothing if there is none. */
  ghost predicate HeardUnder(config: Option<Config>, es: seq<EntryRow>, es': seq<EntryRow>,
                             calls: seq<Protocol.Settlement>) {
    if config.None? then calls == [] && NoneFinished(es, es') else Heard(config.value, es, es', calls)
  }

  lemma FollowingIsHeard(w: Worker, db: Db, refs: map<string, Sha>, minted: nat, runs: seq<Protocol.GateRun>,
                         day: Day, db': Db, runs': seq<Protocol.GateRun>, r: TickOutcome)
    requires TableInv(db)
    requires Referential(db) && w.Follows(db, refs, minted, runs, day, db', runs', r)
    ensures HeardUnder(ConfigAt(w, refs), db.entries, db'.entries, w.CallsFor(refs, db', r))
  {
    var q := w.queue;
    if Some(q.base) in w.git.worktrees || q.base !in refs || w.git.configs(refs[q.base]).None? {
      NoneToTell(db.entries, db'.entries);
    } else {
      var base, config := refs[q.base], w.git.configs(refs[q.base]).value;
      PickedAreKnown(db, q, config);
      var a := w.AnswersTo(Protocol.ShasAt(db.entries, Picked(db, q, config)), base, day, minted);
      TickIsHeard(db, q, base, config, a, day.trouble);
    }
  }

  lemma ReclaimFinishesNone(db: Db, q: Queue)
    ensures NoneFinished(db.entries, Reclaimed(db, q).entries)
  {
  }

  lemma HeardSince(config: Option<Config>, es: seq<EntryRow>, begun: seq<EntryRow>, es': seq<EntryRow>,
                   calls: seq<Protocol.Settlement>)
    requires NoneFinished(es, begun) && HeardUnder(config, begun, es', calls)
    ensures HeardUnder(config, es, es', calls)
  {
  }

  lemma RefusedIsQuiet(w: Worker, refs: map<string, Sha>, db: Db, holder: nat)
    ensures w.CallsFor(refs, db, AnotherWorkerHolds(holder)) == []
    ensures HeardUnder(ConfigAt(w, refs), db.entries, db.entries, [])
  {
    NoneToTell(db.entries, db.entries);
  }

  method OneTick(w: Worker, day: Day) returns (out: TickOutcome)
    requires TableInv(w.store.Rows())
    modifies w, w.store, w.git
    ensures TableInv(w.store.Rows())
    ensures Tallies(old(w.store.Rows()), w.store.Rows(), w.queue, out)
    ensures old(w.told) <= w.told
    ensures HeardUnder(ConfigAt(w, old(w.git.refs)), old(w.store.entries), w.store.entries, w.told[|old(w.told)|..])
  {
    SoundIsReferential(w.store.Rows());
    ghost var db := if w.queue in w.store.leases then Reclaimed(w.store.Rows(), w.queue) else w.store.Rows();
    out := w.Tick(day);
    if !out.AnotherWorkerHolds? {
      ReclaimTallies(old(w.store.Rows()), w.queue);
      FollowingTallies(w, db, old(w.git.refs), old(w.git.minted), old(w.store.runs), day, w.store.Rows(),
                       w.store.runs, out);
      FollowingIsHeard(w, db, old(w.git.refs), old(w.git.minted), old(w.store.runs), day, w.store.Rows(),
                       w.store.runs, out);
      ReclaimFinishesNone(old(w.store.Rows()), w.queue);
      HeardSince(ConfigAt(w, old(w.git.refs)), old(w.store.entries), db.entries, w.store.entries,
                 w.CallsFor(old(w.git.refs), w.store.Rows(), out));
    } else {
      RefusedIsQuiet(w, old(w.git.refs), w.store.Rows(), out.holder);
    }
  }
}
