/** Undisturbed ticks reach the end of the queue, whatever the gate says, and within a bound. */
module Termination {
  import opened Vocabulary
  import opened States
  import opened Tables
  import opened Ranking
  import opened TableInvariant
  import opened Advancing
  import Discipline
  import OrderInRuns

  // ----- what is left to pay

  /** The attempts a live entry may still burn; at least the one that would evict it. */
  function Weight(row: EntryRow, q: Queue, maxAttempts: nat): nat {
    if row.queue == q && row.state.IsLive() then
      if row.attempts < maxAttempts then maxAttempts - row.attempts else 1
    else 0
  }

  function Remaining(es: seq<EntryRow>, q: Queue, maxAttempts: nat): nat {
    if es == [] then 0
    else Remaining(es[..|es| - 1], q, maxAttempts) + Weight(es[|es| - 1], q, maxAttempts)
  }

  function LiveCount(es: seq<EntryRow>, q: Queue): nat {
    if es == [] then 0
    else LiveCount(es[..|es| - 1], q) + if es[|es| - 1].queue == q && es[|es| - 1].state.IsLive() then 1 else 0
  }

  ghost predicate NoHeavier(es: seq<EntryRow>, es': seq<EntryRow>, q: Queue, maxAttempts: nat) {
    |es'| == |es| && forall i :: 0 <= i < |es| ==> Weight(es'[i], q, maxAttempts) <= Weight(es[i], q, maxAttempts)
  }

  lemma {:induction false} RemainingFalls(es: seq<EntryRow>, es': seq<EntryRow>, q: Queue, maxAttempts: nat)
    requires NoHeavier(es, es', q, maxAttempts)
    ensures Remaining(es', q, maxAttempts) <= Remaining(es, q, maxAttempts)
    ensures (exists i :: 0 <= i < |es| && Weight(es'[i], q, maxAttempts) < Weight(es[i], q, maxAttempts)) ==>
              Remaining(es', q, maxAttempts) < Remaining(es, q, maxAttempts)
  {
    if es != [] {
      RemainingFalls(es[..|es| - 1], es'[..|es| - 1], q, maxAttempts);
      if i :| 0 <= i < |es| - 1 && Weight(es'[i], q, maxAttempts) < Weight(es[i], q, maxAttempts) {
        assert es[..|es| - 1][i] == es[i] && es'[..|es| - 1][i] == es'[i];
      }
    }
  }

  lemma RemainingSame(es: seq<EntryRow>, es': seq<EntryRow>, q: Queue, maxAttempts: nat)
    requires NoHeavier(es, es', q, maxAttempts) && NoHeavier(es', es, q, maxAttempts)
    ensures Remaining(es', q, maxAttempts) == Remaining(es, q, maxAttempts)
  {
    RemainingFalls(es, es', q, maxAttempts);
    RemainingFalls(es', es, q, maxAttempts);
  }

  lemma {:induction false} RemainingIsBounded(es: seq<EntryRow>, q: Queue, maxAttempts: nat)
    requires maxAttempts >= 1
    ensures LiveCount(es, q) <= Remaining(es, q, maxAttempts) <= LiveCount(es, q) * maxAttempts
  {
    if es != [] {
      RemainingIsBounded(es[..|es| - 1], q, maxAttempts);
      assert Weight(es[|es| - 1], q, maxAttempts) <= maxAttempts;
      var n := LiveCount(es[..|es| - 1], q);
      assert (n + 1) * maxAttempts == n * maxAttempts + maxAttempts;
    }
  }

  lemma {:induction false} RemainingMeansLive(es: seq<EntryRow>, q: Queue, maxAttempts: nat)
    ensures Remaining(es, q, maxAttempts) == 0 <==>
              forall i :: 0 <= i < |es| && es[i].queue == q ==> !es[i].state.IsLive()
  {
    if es != [] {
      RemainingMeansLive(es[..|es| - 1], q, maxAttempts);
    }
  }

  // ----- what each end of a candidate costs

  lemma MemberIsLive(db: Db, q: Queue, c: CandidateId, e: EntryId, maxAttempts: nat)
    requires Holding(db, q, c) && e in Ids(db.candidates[c])
    ensures e < |db.entries| && db.entries[e].state.Batched? && Weight(db.entries[e], q, maxAttempts) >= 1
  {
    assert Sound(db.entries, db.candidates[c]) && Holds(db.candidates[c], e);
    assert InFlight(db.candidates, e);
  }

  lemma MergedIsNoHeavier(es: seq<EntryRow>, ids: seq<EntryId>, q: Queue, maxAttempts: nat)
    ensures NoHeavier(es, SetStates(es, ids, false, EntryState.Merged), q, maxAttempts)
    ensures forall e :: e in ids && e < |es| ==>
              Weight(SetStates(es, ids, false, EntryState.Merged)[e], q, maxAttempts) == 0
  {
  }

  lemma LandingPays(db: Db, q: Queue, c: CandidateId, maxAttempts: nat)
    requires Holding(db, q, c)
    ensures Remaining(Tables.Landed(db, c).entries, q, maxAttempts) < Remaining(db.entries, q, maxAttempts)
  {
    var ids := Ids(db.candidates[c]);
    assert Sound(db.entries, db.candidates[c]);
    MemberIsLive(db, q, c, ids[0], maxAttempts);
    MergedIsNoHeavier(db.entries, ids, q, maxAttempts);
    RemainingFalls(db.entries, Tables.Landed(db, c).entries, q, maxAttempts);
  }

  lemma ChargedIsLighter(db: Db, culprit: EntryId, q: Queue, maxAttempts: nat, fault: string)
    requires culprit < |db.entries| && Weight(db.entries[culprit], q, maxAttempts) >= 1
    ensures Weight(Charged(db, culprit, maxAttempts, fault), q, maxAttempts)
          < Weight(db.entries[culprit], q, maxAttempts)
  {
  }

  lemma RequeuedIsNoHeavier(es: seq<EntryRow>, ids: seq<EntryId>, q: Queue, maxAttempts: nat)
    ensures NoHeavier(es, SetStates(es, ids, true, Queued), q, maxAttempts)
  {
  }

  lemma BlamingPays(db: Db, q: Queue, c: CandidateId, culprit: EntryId, maxAttempts: nat, fault: string)
    requires Holding(db, q, c) && culprit in Ids(db.candidates[c])
    ensures Remaining(Tables.Blamed(db, c, culprit, maxAttempts, fault).entries, q, maxAttempts)
              < Remaining(db.entries, q, maxAttempts)
  {
    MemberIsLive(db, q, c, culprit, maxAttempts);
    ChargedIsLighter(db, culprit, q, maxAttempts, fault);
    RequeuedIsNoHeavier(db.entries, Ids(db.candidates[c]), q, maxAttempts);
    LighterThere(db.entries, SetStates(db.entries, Ids(db.candidates[c]), true, Queued), culprit,
                 Charged(db, culprit, maxAttempts, fault), q, maxAttempts);
  }

  lemma LighterThere(es: seq<EntryRow>, es': seq<EntryRow>, e: EntryId, row: EntryRow, q: Queue, maxAttempts: nat)
    requires NoHeavier(es, es', q, maxAttempts) && e < |es|
             && Weight(row, q, maxAttempts) < Weight(es[e], q, maxAttempts)
    ensures Remaining(es'[e := row], q, maxAttempts) < Remaining(es, q, maxAttempts)
  {
    RemainingFalls(es, es'[e := row], q, maxAttempts);
  }

  lemma AbandoningIsFree(db: Db, c: CandidateId, to: CandidateState, q: Queue, maxAttempts: nat)
    ensures Remaining(Tables.Abandoned(db, c, to).entries, q, maxAttempts) == Remaining(db.entries, q, maxAttempts)
  {
    RemainingSame(db.entries, Tables.Abandoned(db, c, to).entries, q, maxAttempts);
  }

  lemma OpeningIsFree(db: Db, q: Queue, base: Sha, batch: seq<EntryId>, parent: Option<CandidateId>, maxAttempts: nat)
    requires forall e :: e in batch ==> Waits(db, q, e)
    ensures Remaining(Opened(db, q, base, batch, parent).entries, q, maxAttempts)
              == Remaining(db.entries, q, maxAttempts)
  {
    RemainingSame(db.entries, Opened(db, q, base, batch, parent).entries, q, maxAttempts);
  }

  // ----- every tick that does anything descends

  /** The unfinished candidate has k entries and stands on this base. */
  ghost predicate InHand(db: Db, q: Queue, k: nat, base: Sha) {
    var active := ActiveCandidate(db, q);
    active.Some? && |Ids(db.candidates[active.value])| == k && db.candidates[active.value].base == base
  }

  ghost predicate Calm(a: Answers) {
    !a.stale && !a.interrupted
  }

  function NextBase(base: Sha, out: TickOutcome): Sha {
    if out.Landed? then out.at else base
  }

  /** Something was paid and nothing is in hand, or a candidate of k was halved for free. */
  ghost predicate Descends(db: Db, db': Db, q: Queue, k: nat, base: Sha, out: TickOutcome, maxAttempts: nat) {
    || (ActiveCandidate(db', q).None? && Remaining(db'.entries, q, maxAttempts) < Remaining(db.entries, q, maxAttempts))
    || (k >= 2 && InHand(db', q, k / 2, base) && NextBase(base, out) == base
        && Remaining(db'.entries, q, maxAttempts) == Remaining(db.entries, q, maxAttempts))
  }

  lemma GateFailureDescends(db: Db, q: Queue, c: CandidateId, config: Config)
    requires Holding(db, q, c) && db.candidates[c].state.Testing?
    ensures var (db', out) := OnGateFailure(db, q, c, config);
            Descends(db, db', q, |Ids(db.candidates[c])|, db.candidates[c].base, out, config.maxAttempts)
  {
    var ids := Ids(db.candidates[c]);
    assert Sound(db.entries, db.candidates[c]);
    if |ids| == 1 {
      BlameFrees(db, q, c, ids[0], config, FAILED_ALONE);
      BlamingPays(db, q, c, ids[0], config.maxAttempts, FAILED_ALONE);
    } else {
      SplitIsFree(db, q, c, config.maxAttempts);
    }
  }

  lemma SplitIsFree(db: Db, q: Queue, c: CandidateId, maxAttempts: nat)
    requires Holding(db, q, c) && db.candidates[c].state.Testing? && |Ids(db.candidates[c])| >= 2
    ensures var ids := Ids(db.candidates[c]);
            var free := Tables.Abandoned(db, c, CandidateState.Failed);
            var db' := Opened(free, q, db.candidates[c].base, ids[..|ids| / 2], Some(c));
            && InHand(db', q, |ids| / 2, db.candidates[c].base)
            && Remaining(db'.entries, q, maxAttempts) == Remaining(db.entries, q, maxAttempts)
  {
    var ids := Ids(db.candidates[c]);
    var left, free := ids[..|ids| / 2], Tables.Abandoned(db, c, CandidateState.Failed);
    LeftHolds(db, q, c);
    SplitHolds(db, q, c);
    AbandoningIsFree(db, c, CandidateState.Failed, q, maxAttempts);
    OpeningIsFree(free, q, db.candidates[c].base, left, Some(c), maxAttempts);
    ActiveIsOne(Opened(free, q, db.candidates[c].base, left, Some(c)), q, |db.candidates|);
  }

  lemma WorkDescends(db: Db, q: Queue, c: CandidateId, base: Sha, config: Config, a: Answers)
    requires Holding(db, q, c) && db.candidates[c].base == base && Calm(a)
    ensures var (db', out) := Work(db, q, c, base, config, a);
            Descends(db, db', q, |Ids(db.candidates[c])|, base, out, config.maxAttempts)
  {
    var ids := Ids(db.candidates[c]);
    if HitsConflict(ids, a) {
      BlameFrees(db, q, c, ids[a.conflict.value], config, CONFLICTS);
      BlamingPays(db, q, c, ids[a.conflict.value], config.maxAttempts, CONFLICTS);
    } else {
      var tested := UnderTest(db, c, a.tip);
      UnderTestHolds(db, q, c, a.tip);
      if a.passed {
        LandFrees(tested, q, c);
        LandingPays(tested, q, c, config.maxAttempts);
      } else {
        GateFailureDescends(tested, q, c, config);
      }
    }
  }

  /** Nothing is in hand, or what is stands on this base. */
  ghost predicate OnBase(db: Db, q: Queue, base: Sha) {
    var active := ActiveCandidate(db, q);
    active.Some? ==> db.candidates[active.value].base == base
  }

  /** How many entries the next tick works on. */
  ghost function Workload(db: Db, q: Queue, config: Config): nat {
    var active := ActiveCandidate(db, q);
    if active.Some? then |Ids(db.candidates[active.value])| else |SelectBatch(db, q, config.maxBatch)|
  }

  lemma OpeningDescends(db: Db, q: Queue, base: Sha, config: Config, a: Answers)
    requires TableInv(db) && ActiveCandidate(db, q).None? && SelectBatch(db, q, config.maxBatch) != [] && Calm(a)
    ensures var batch := SelectBatch(db, q, config.maxBatch);
            var (db', out) := Work(Opened(db, q, base, batch, None), q, |db.candidates|, base, config, a);
            Descends(db, db', q, |batch|, base, out, config.maxAttempts)
  {
    var batch := SelectBatch(db, q, config.maxBatch);
    var started := Opened(db, q, base, batch, None);
    SelectedHolds(db, q, base, config.maxBatch);
    Discipline.BatchIsOpenable(db, q, config.maxBatch);
    OpeningIsFree(db, q, base, batch, None, config.maxAttempts);
    WorkDescends(started, q, |db.candidates|, base, config, a);
  }

  lemma ResumingDescends(db: Db, q: Queue, base: Sha, config: Config, a: Answers, c: CandidateId)
    requires TableInv(db) && ActiveCandidate(db, q) == Some(c) && OnBase(db, q, base) && Calm(a)
    ensures var (db', out) := Work(db, q, c, base, config, a);
            !out.Idle? && Descends(db, db', q, |Ids(db.candidates[c])|, base, out, config.maxAttempts)
  {
    WorkDescends(db, q, c, base, config, a);
  }

  /** Only a tick with nothing in hand and nothing waiting is idle, and it changes nothing. */
  lemma IdleTick(db: Db, q: Queue, base: Sha, config: Config, a: Answers)
    requires TableInv(db) && Advance(db, q, base, config, a).1.Idle?
    ensures Advance(db, q, base, config, a).0 == db && ActiveCandidate(db, q).None? && Waiting(db, q) == []
  {
  }

  lemma BusyTick(db: Db, q: Queue, base: Sha, config: Config, a: Answers)
    requires TableInv(db) && OnBase(db, q, base) && Calm(a) && !Advance(db, q, base, config, a).1.Idle?
    ensures var (db', out) := Advance(db, q, base, config, a);
            Descends(db, db', q, Workload(db, q, config), base, out, config.maxAttempts)
  {
    var active := ActiveCandidate(db, q);
    if active.Some? {
      ResumingDescends(db, q, base, config, a, active.value);
    } else {
      OpeningDescends(db, q, base, config, a);
    }
  }

  /** The size in hand, or more than any batch when nothing is. */
  ghost function Grip(db: Db, q: Queue, config: Config): nat {
    if ActiveCandidate(db, q).Some? then Workload(db, q, config) else config.maxBatch + 1
  }

  /** Attempts left to burn, then the size in hand, fall lexicographically on every tick that is not idle. */
  lemma TicksDescend(db: Db, q: Queue, base: Sha, config: Config, a: Answers)
    requires TableInv(db) && OnBase(db, q, base) && Calm(a)
    ensures var (db', out) := Advance(db, q, base, config, a);
            var was, now := Remaining(db.entries, q, config.maxAttempts), Remaining(db'.entries, q, config.maxAttempts);
            !out.Idle? ==> now < was || (now == was && Grip(db', q, config) < Grip(db, q, config))
  {
    if !Advance(db, q, base, config, a).1.Idle? { BusyTick(db, q, base, config, a); }
  }

  // ----- a bound on the number of ticks

  /** How many more ticks there can be. */
  ghost function Budget(db: Db, q: Queue, config: Config): int {
    var left, depth := Remaining(db.entries, q, config.maxAttempts), Log2(config.maxBatch) + 1;
    if ActiveCandidate(db, q).Some? then (left - 1) * depth + Log2(Workload(db, q, config)) + 1 else left * depth
  }

  lemma InHandIsOwed(db: Db, q: Queue, maxAttempts: nat)
    requires TableInv(db) && ActiveCandidate(db, q).Some?
    ensures Remaining(db.entries, q, maxAttempts) >= 1 && Ids(db.candidates[ActiveCandidate(db, q).value]) != []
  {
    var c := ActiveCandidate(db, q).value;
    var ids := Ids(db.candidates[c]);
    assert Sound(db.entries, db.candidates[c]);
    assert ids[0] in ids && Holds(db.candidates[c], ids[0]) && InFlight(db.candidates, ids[0]);
    RemainingMeansLive(db.entries, q, maxAttempts);
  }

  lemma WaitingIsOwed(db: Db, q: Queue, maxAttempts: nat)
    requires Waiting(db, q) != []
    ensures Remaining(db.entries, q, maxAttempts) >= 1
  {
    assert Waiting(db, q)[0] in Waiting(db, q);
    RemainingMeansLive(db.entries, q, maxAttempts);
  }

  lemma BudgetIsNatural(db: Db, q: Queue, config: Config)
    requires TableInv(db)
    ensures Budget(db, q, config) >= 0
  {
    var left, depth := Remaining(db.entries, q, config.maxAttempts), Log2(config.maxBatch) + 1;
    if ActiveCandidate(db, q).Some? {
      InHandIsOwed(db, q, config.maxAttempts);
      Times(0, left, depth);
    }
  }

  lemma Times(a: nat, b: nat, depth: nat)
    requires a < b
    ensures a * depth <= (b - 1) * depth == b * depth - depth
  {
  }

  lemma BudgetFalls(db: Db, q: Queue, base: Sha, config: Config, a: Answers)
    requires TableInv(db) && OnBase(db, q, base) && Calm(a)
    requires !Advance(db, q, base, config, a).1.Idle?
    ensures Budget(Advance(db, q, base, config, a).0, q, config) < Budget(db, q, config)
  {
    var (db', out) := Advance(db, q, base, config, a);
    BusyTick(db, q, base, config, a);
    WorkloadFits(db, q, config);
    DescentIsCheaper(db, db', q, base, out, config);
  }

  /** A new batch never exceeds the configured size, and work to do is work owed. */
  lemma WorkloadFits(db: Db, q: Queue, config: Config)
    requires TableInv(db) && (ActiveCandidate(db, q).Some? || Waiting(db, q) != [])
    ensures Remaining(db.entries, q, config.maxAttempts) >= 1
    ensures ActiveCandidate(db, q).None? ==> Workload(db, q, config) <= config.maxBatch
  {
    if ActiveCandidate(db, q).Some? {
      InHandIsOwed(db, q, config.maxAttempts);
    } else {
      WaitingIsOwed(db, q, config.maxAttempts);
    }
  }

  lemma DescentIsCheaper(db: Db, db': Db, q: Queue, base: Sha, out: TickOutcome, config: Config)
    requires Remaining(db.entries, q, config.maxAttempts) >= 1
    requires ActiveCandidate(db, q).None? ==> Workload(db, q, config) <= config.maxBatch
    requires Descends(db, db', q, Workload(db, q, config), base, out, config.maxAttempts)
    ensures Budget(db', q, config) < Budget(db, q, config)
  {
    var left, now := Remaining(db.entries, q, config.maxAttempts), Remaining(db'.entries, q, config.maxAttempts);
    var depth := Log2(config.maxBatch) + 1;
    if ActiveCandidate(db, q).None? { Log2Monotone(Workload(db, q, config), config.maxBatch); }
    if ActiveCandidate(db', q).None? { Times(now, left, depth); }
    Times(left - 1, left, depth);
  }

  // ----- tick after tick

  /** The tables after these ticks, each starting from the base the one before left. */
  ghost function Ticked(db: Db, q: Queue, base: Sha, config: Config, answers: seq<Answers>): Db
    decreases |answers|
  {
    if answers == [] then db
    else
      var (db', out) := Advance(db, q, base, config, answers[0]);
      Ticked(db', q, NextBase(base, out), config, answers[1..])
  }

  ghost predicate Drained(db: Db, q: Queue) {
    forall e: EntryId :: !Lives(db, q, e)
  }

  lemma IdleMeansDrained(db: Db, q: Queue)
    requires TableInv(db) && ActiveCandidate(db, q).None? && Waiting(db, q) == []
    ensures Drained(db, q)
  {
    OrderInRuns.NothingBatched(db, q);
    forall e: EntryId ensures !Lives(db, q, e) {
      assert Waits(db, q, e) <==> e in Waiting(db, q);
    }
  }

  lemma DrainedIsIdle(db: Db, q: Queue, base: Sha, config: Config, a: Answers)
    requires TableInv(db) && Drained(db, q)
    ensures Advance(db, q, base, config, a) == (db, Idle)
  {
    NothingRemains(db, q);
    if ActiveCandidate(db, q).Some? { InHandIsOwed(db, q, 1); }
    if Waiting(db, q) != [] { WaitingIsOwed(db, q, 1); }
  }

  lemma NothingRemains(db: Db, q: Queue)
    requires Drained(db, q)
    ensures Remaining(db.entries, q, 1) == 0
  {
    RemainingMeansLive(db.entries, q, 1);
    assert forall i: EntryId :: i < |db.entries| ==>
        (Lives(db, q, i) <==> db.entries[i].queue == q && db.entries[i].state.IsLive());
  }

  lemma {:induction false} DrainedStays(db: Db, q: Queue, base: Sha, config: Config, answers: seq<Answers>)
    requires TableInv(db) && Drained(db, q)
    ensures Ticked(db, q, base, config, answers) == db
    decreases |answers|
  {
    if answers != [] {
      DrainedIsIdle(db, q, base, config, answers[0]);
      DrainedStays(db, q, base, config, answers[1..]);
    }
  }

  lemma OnNextBase(db: Db, q: Queue, base: Sha, config: Config, a: Answers)
    requires TableInv(db) && OnBase(db, q, base) && Calm(a)
    ensures var (db', out) := Advance(db, q, base, config, a); OnBase(db', q, NextBase(base, out))
  {
    if Advance(db, q, base, config, a).1.Idle? {
      IdleTick(db, q, base, config, a);
    } else {
      BusyTick(db, q, base, config, a);
    }
  }

  /** Undisturbed, ticks empty the queue within the budget, whatever conflicts and whatever the gate says. */
  lemma {:induction false} TicksDrain(db: Db, q: Queue, base: Sha, config: Config, answers: seq<Answers>)
    requires TableInv(db) && OnBase(db, q, base)
    requires forall i :: 0 <= i < |answers| ==> Calm(answers[i])
    requires |answers| >= Budget(db, q, config)
    ensures Drained(Ticked(db, q, base, config, answers), q)
    decreases |answers|
  {
    BudgetIsNatural(db, q, config);
    if answers == [] {
      NothingOwed(db, q, config);
    } else {
      var (db', out) := Advance(db, q, base, config, answers[0]);
      if out.Idle? {
        IdleTick(db, q, base, config, answers[0]);
        IdleMeansDrained(db, q);
        DrainedStays(db, q, base, config, answers);
      } else {
        AdvanceKeeps(db, q, base, config, answers[0]);
        OnNextBase(db, q, base, config, answers[0]);
        BudgetFalls(db, q, base, config, answers[0]);
        TicksDrain(db', q, NextBase(base, out), config, answers[1..]);
      }
    }
  }

  lemma NothingOwed(db: Db, q: Queue, config: Config)
    requires TableInv(db) && Budget(db, q, config) == 0
    ensures Drained(db, q)
  {
    if ActiveCandidate(db, q).Some? { InHandIsOwed(db, q, config.maxAttempts); }
    var left := Remaining(db.entries, q, config.maxAttempts);
    if left > 0 { Times(0, left, Log2(config.maxBatch) + 1); }
    RemainingMeansLive(db.entries, q, config.maxAttempts);
  }

  /** n live entries, times the attempts each may burn, times one gate run per halving. */
  function EnoughTicks(db: Db, q: Queue, config: Config): nat {
    LiveCount(db.entries, q) * config.maxAttempts * (Log2(config.maxBatch) + 1)
  }

  /** With nothing in flight so many ticks empty the queue, whatever conflicts and whatever the gate says. */
  lemma TickBound(db: Db, q: Queue, base: Sha, config: Config, answers: seq<Answers>)
    requires TableInv(db) && NoneActive(db, q)
    requires forall i :: 0 <= i < |answers| ==> Calm(answers[i])
    requires |answers| >= EnoughTicks(db, q, config)
    ensures Drained(Ticked(db, q, base, config, answers), q)
  {
    RemainingIsBounded(db.entries, q, config.maxAttempts);
    var left, most := Remaining(db.entries, q, config.maxAttempts), LiveCount(db.entries, q) * config.maxAttempts;
    Times(left, most + 1, Log2(config.maxBatch) + 1);
    TicksDrain(db, q, base, config, answers);
  }
}
