/**
 What finding a fault costs. The left half of a failed batch is retried, but the
 right half goes back in the queue and is batched again with whatever else
 waits, so the search starts over after every landing.
 */
module Isolation {
  import opened Vocabulary
  import opened States
  import opened Tables
  import opened Ranking
  import opened TableInvariant
  import Overtaking
  import opened Advancing
  import opened Termination
  import opened Drain
  import OrderInRuns

  // ----- the cost in gate runs

  /** With n entries left, the first faulty one at p, and k of them tested next: runs until it is blamed. */
  function GateRuns(n: nat, p: nat, k: nat): (runs: nat)
    requires p < n && 1 <= k <= n
    ensures runs >= 1
    decreases n, k
  {
    if k <= p then 1 + GateRuns(n - k, p - k, n - k)
    else if k == 1 then 1
    else 1 + GateRuns(n, p, k / 2)
  }

  lemma HalfBits(p: nat, k: nat)
    requires p >= 1 && k <= p / 2
    ensures Bits(k) + 1 <= Bits(p)
  {
    BitsMonotone(k, p / 2);
  }

  /** Every landing at least halves the distance to the fault, and costs one run per halving of the batch. */
  lemma {:induction false} RunsAreBounded(n: nat, p: nat, k: nat, depth: nat)
    requires p < n && 1 <= k <= n && Log2(n) + 1 <= depth && p <= 2 * k
    ensures GateRuns(n, p, k) <= Bits(p) * depth + Log2(k) + 1
    decreases n, k
  {
    if k <= p {
      HalfBits(p, p - k);
      Log2Monotone(n - k, n);
      RunsAreBounded(n - k, p - k, n - k, depth);
      Times(Bits(p - k), Bits(p), depth);
    } else if k > 1 {
      RunsAreBounded(n, p, k / 2, depth);
    }
  }

  /** A fault at the very front is found in one straight descent. */
  lemma {:induction false} FrontRuns(n: nat, k: nat)
    requires 1 <= k <= n
    ensures GateRuns(n, 0, k) == Log2(k) + 1
    decreases k
  {
    if k > 1 { FrontRuns(n, k / 2); }
  }

  /** With something ahead of the fault, the search costs more than one straight descent. */
  lemma {:induction false} RunsAreMore(n: nat, p: nat, k: nat)
    requires 1 <= p < n && 1 <= k && (k == n || 2 * k <= n)
    ensures GateRuns(n, p, k) >= Log2(n) + if k == n then 2 else 1
    decreases n, k
  {
    if k > p {
      RunsAreMore(n, p, k / 2);
    } else {
      Log2Monotone(n / 2, n - k);
      if p == k { FrontRuns(n - k, n - k); } else { RunsAreMore(n - k, p - k, n - k); }
    }
  }

  /**
   The stated cost, one gate run and then log2(n) more, is met exactly when the
   faulty entry is the first in line.
   */
  lemma DocumentedCost(n: nat, p: nat)
    requires p < n
    ensures GateRuns(n, p, n) <= 1 + Log2(n) <==> p == 0
  {
    if p == 0 { FrontRuns(n, n); } else { RunsAreMore(n, p, n); }
  }

  /** The search from a whole batch of n with its first fault at p. */
  lemma SearchIsBounded(n: nat, p: nat)
    requires p < n
    ensures GateRuns(n, p, n) <= (Bits(p) + 1) * (Log2(n) + 1)
  {
    var depth := Log2(n) + 1;
    RunsAreBounded(n, p, n, depth);
    Times(Bits(p), Bits(p) + 1, depth);
  }

  // ----- that it is what the ticks do

  /** What is left of the line is what stands behind its first j. */
  ghost predicate Left(db: Db, q: Queue, line: seq<EntryId>, j: nat) {
    j <= |line| && Line(db, q) == line[j..]
  }

  ghost predicate FrontMerged(es: seq<EntryRow>, line: seq<EntryId>, j: nat) {
    forall i :: 0 <= i < j && i < |line| ==> line[i] < |es| && es[line[i]].state.Merged?
  }

  ghost predicate RestUnharmed(es: seq<EntryRow>, line: seq<EntryId>, j: nat) {
    forall i :: j <= i < |line| ==> line[i] < |es| && es[line[i]].attempts == 0
  }

  /** Sound tables with what is in flight on this queue at the front of its line. */
  ghost predicate Fit(db: Db, q: Queue) {
    TableInv(db) && Overtaking.Front(db, q)
  }

  lemma FreeIsFit(db: Db, q: Queue)
    requires TableInv(db) && NoneActive(db, q)
    ensures Fit(db, q)
  {
  }

  lemma HoldingIsFit(db: Db, q: Queue, c: CandidateId)
    requires Holding(db, q, c) && Ids(db.candidates[c]) <= Line(db, q)
    ensures Fit(db, q)
  {
    forall d: CandidateId | ActiveIs(db, q, d) ensures d == c {}
  }

  /** The first j of the line are merged; the rest wait or are in hand, none ever charged. */
  ghost predicate Hunting(db: Db, q: Queue, line: seq<EntryId>, j: nat) {
    Left(db, q, line, j) && FrontMerged(db.entries, line, j) && RestUnharmed(db.entries, line, j)
  }

  /** With m of them in hand on this base, or none. */
  ghost predicate Having(db: Db, q: Queue, base: Sha, m: nat) {
    if m == 0 then ActiveCandidate(db, q).None? else InHand(db, q, m, base)
  }

  /** The hunt may go on from here: in order, with what has merged off the line and m in hand. */
  ghost predicate Placed(db: Db, q: Queue, base: Sha, m: nat, line: seq<EntryId>, j: nat) {
    Fit(db, q) && Having(db, q, base, m) && Hunting(db, q, line, j)
  }

  lemma {:induction false} TailIs(ids: seq<EntryId>, k: nat)
    requires Distinct(ids) && k <= |ids|
    ensures forall e :: e in ids[k..] <==> e in ids && e !in ids[..k]
  {
    assert ids == ids[..k] + ids[k..];
    forall b | k <= b < |ids| ensures ids[b] !in ids[..k] {
      assert forall a :: 0 <= a < k ==> ids[..k][a] == ids[a] && ids[a] != ids[b];
    }
  }

  lemma LandedLine(db: Db, q: Queue, c: CandidateId)
    requires c < |db.candidates| && Ids(db.candidates[c]) <= Line(db, q)
    ensures Line(Tables.Landed(db, c), q) == Line(db, q)[|Ids(db.candidates[c])|..]
  {
    var ids, rest, db' := Ids(db.candidates[c]), Line(db, q), Tables.Landed(db, c);
    var behind := rest[|ids|..|rest|];
    RankedSlice(db.entries, rest, |ids|, |rest|);
    RankedDistinct(db.entries, rest);
    TailIs(rest, |ids|);
    assert rest[..|ids|] == ids && behind == rest[|ids|..];
    RankedStays(db.entries, db'.entries, behind);
    forall e: EntryId ensures e in behind <==> Lives(db', q, e) {
      assert Lives(db', q, e) <==> Lives(db, q, e) && e !in ids;
    }
    LineIs(db', q, behind);
  }

  lemma LandingHunts(db: Db, q: Queue, c: CandidateId, line: seq<EntryId>, j: nat)
    requires Hunting(db, q, line, j) && c < |db.candidates| && Ids(db.candidates[c]) <= Line(db, q)
    ensures var k := |Ids(db.candidates[c])|; j + k <= |line| && Hunting(Tables.Landed(db, c), q, line, j + k)
  {
    var ids := Ids(db.candidates[c]);
    LandedLine(db, q, c);
    assert line[j..][|ids|..] == line[j + |ids|..];
    forall i | 0 <= i < j + |ids|
      ensures line[i] < |db.entries| && Tables.Landed(db, c).entries[line[i]].state.Merged?
    {
      if i >= j { assert line[i] == ids[i - j] && line[i] == line[j..][i - j]; }
    }
  }

  /** Rows only went between waiting and being in hand. */
  ghost predicate OnlyShuffled(es: seq<EntryRow>, es': seq<EntryRow>) {
    |es'| == |es| && forall e :: 0 <= e < |es| ==>
      es'[e].attempts == es[e].attempts && (es[e].state.Merged? ==> es'[e].state.Merged?)
  }

  lemma ShufflingHunts(db: Db, db': Db, q: Queue, line: seq<EntryId>, j: nat)
    requires Hunting(db, q, line, j) && OnlyShuffled(db.entries, db'.entries) && Line(db', q) == Line(db, q)
    ensures Hunting(db', q, line, j)
  {
  }

  lemma OpeningShuffles(db: Db, q: Queue, base: Sha, batch: seq<EntryId>, parent: Option<CandidateId>)
    requires forall e :: e in batch ==> Waits(db, q, e)
    ensures OnlyShuffled(db.entries, Opened(db, q, base, batch, parent).entries)
  {
  }

  lemma AbandoningShuffles(db: Db, c: CandidateId, to: CandidateState)
    ensures OnlyShuffled(db.entries, Tables.Abandoned(db, c, to).entries)
  {
  }

  lemma OpeningHunts(db: Db, q: Queue, base: Sha, batch: seq<EntryId>, parent: Option<CandidateId>,
                     line: seq<EntryId>, j: nat)
    requires Hunting(db, q, line, j) && forall e :: e in batch ==> Waits(db, q, e)
    ensures Hunting(Opened(db, q, base, batch, parent), q, line, j)
  {
    OpeningShuffles(db, q, base, batch, parent);
    Overtaking.OpenKeepsLine(db, q, base, batch, parent, q);
    ShufflingHunts(db, Opened(db, q, base, batch, parent), q, line, j);
  }

  lemma SplitHunts(db: Db, q: Queue, c: CandidateId, line: seq<EntryId>, j: nat)
    requires Hunting(db, q, line, j) && Holding(db, q, c) && db.candidates[c].state.Testing?
             && |Ids(db.candidates[c])| >= 2
    ensures var ids := Ids(db.candidates[c]);
            var db' := Opened(Tables.Abandoned(db, c, CandidateState.Failed), q, db.candidates[c].base,
                              ids[..|ids| / 2], Some(c));
            Hunting(db', q, line, j)
  {
    var ids, free := Ids(db.candidates[c]), Tables.Abandoned(db, c, CandidateState.Failed);
    LeftHolds(db, q, c);
    AbandoningShuffles(db, c, CandidateState.Failed);
    ShufflingHunts(db, free, q, line, j);
    OpeningHunts(free, q, db.candidates[c].base, ids[..|ids| / 2], Some(c), line, j);
  }

  lemma {:induction false} AllFresh(es: seq<EntryRow>, ids: seq<EntryId>)
    requires forall i :: 0 <= i < |ids| ==> ids[i] < |es| && es[ids[i]].attempts == 0
    ensures FreshRun(es, ids) == ids
  {
    if ids != [] { AllFresh(es, ids[1..]); }
  }

  /** Never-failed entries that fit are batched together, all of them. */
  lemma WholeLineSelected(db: Db, q: Queue, limit: nat, line: seq<EntryId>, j: nat)
    requires TableInv(db) && Hunting(db, q, line, j) && NoneActive(db, q) && |line| - j <= limit && j < |line|
    ensures SelectBatch(db, q, limit) == line[j..]
  {
    OrderInRuns.NothingBatched(db, q);
    WaitingIsLine(db, q);
    AllFresh(db.entries, line[j..]);
  }

  // ----- the candidate a tick starts from

  /** A tick in full is work on a candidate in hand; here are its entries. */
  ghost predicate Starts(db: Db, q: Queue, base: Sha, config: Config, line: seq<EntryId>, j: nat, k: nat) {
    var (s, c) := Started(db, q, base, config);
    && Holding(s, q, c) && s.candidates[c].base == base && Hunting(s, q, line, j)
    && j + k <= |line| && Ids(s.candidates[c]) == line[j..j + k] == Picked(db, q, config)
  }

  lemma ResumingStarts(db: Db, q: Queue, base: Sha, config: Config, line: seq<EntryId>, j: nat, m: nat)
    requires Fit(db, q) && Hunting(db, q, line, j) && m > 0 && InHand(db, q, m, base)
    ensures Starts(db, q, base, config, line, j, m)
  {
    var c := ActiveCandidate(db, q).value;
    var ids := Ids(db.candidates[c]);
    assert ids <= line[j..];
    assert ids == line[j..][..m] == line[j..j + m];
  }

  lemma OpenedInHand(db: Db, q: Queue, base: Sha, config: Config, line: seq<EntryId>, j: nat)
    requires Fit(db, q) && Hunting(db, q, line, j) && ActiveCandidate(db, q).None? && j < |line| <= config.maxBatch
    ensures var (s, c) := Started(db, q, base, config);
            && Holding(s, q, c) && s.candidates[c].base == base
            && Ids(s.candidates[c]) == line[j..] == Picked(db, q, config)
  {
    WholeLineSelected(db, q, config.maxBatch, line, j);
    SelectedHolds(db, q, base, config.maxBatch);
  }

  lemma TailSlice(line: seq<EntryId>, j: nat, k: nat)
    requires j + k == |line|
    ensures line[j..j + k] == line[j..]
  {
  }

  lemma OpenedHunting(db: Db, q: Queue, base: Sha, config: Config, line: seq<EntryId>, j: nat)
    requires Hunting(db, q, line, j) && ActiveCandidate(db, q).None?
    ensures Hunting(Started(db, q, base, config).0, q, line, j)
  {
    SelectedWaits(db, q, config.maxBatch);
    OpeningHunts(db, q, base, SelectBatch(db, q, config.maxBatch), None, line, j);
  }

  lemma OpeningStarts(db: Db, q: Queue, base: Sha, config: Config, line: seq<EntryId>, j: nat, k: nat)
    requires Fit(db, q) && Hunting(db, q, line, j) && ActiveCandidate(db, q).None? && j < |line| <= config.maxBatch
             && j + k == |line|
    ensures Starts(db, q, base, config, line, j, k)
  {
    TailSlice(line, j, k);
    OpenedInHand(db, q, base, config, line, j);
    OpenedHunting(db, q, base, config, line, j);
  }

  // ----- one tick of the search

  /** Nothing conflicts, and the first faulty entry of the line is at f. */
  ghost predicate FirstFault(line: seq<EntryId>, f: nat, trial: Trial) {
    f < |line| && trial.conflicting == {} && line[f] in trial.faulty && forall i :: 0 <= i < f ==>
        line[i] !in trial.faulty
  }

  /** A stretch of the line passes exactly when it ends ahead of the fault. */
  lemma PassesAhead(line: seq<EntryId>, j: nat, k: nat, f: nat, trial: Trial, a: Answers)
    requires k > 0 && j <= f && j + k <= |line| && FirstFault(line, f, trial) && Truthful(line[j..j + k], trial, a)
    ensures !HitsConflict(line[j..j + k], a) && (a.passed <==> j + k <= f)
  {
    var ids := line[j..j + k];
    if j + k > f { assert ids[f - j] == line[f]; }
    assert forall i :: 0 <= i < |ids| ==> ids[i] == line[j + i];
  }

  lemma TestedHunts(db: Db, q: Queue, c: CandidateId, tip: Sha, line: seq<EntryId>, j: nat)
    requires Holding(db, q, c) && Hunting(db, q, line, j)
    ensures Hunting(UnderTest(db, c, tip), q, line, j)
  {
    UnderTestHolds(db, q, c, tip);
    ShufflingHunts(db, UnderTest(db, c, tip), q, line, j);
  }

  lemma WorkLands(db: Db, q: Queue, c: CandidateId, base: Sha, config: Config, a: Answers, line: seq<EntryId>,
                  j: nat, k: nat)
    requires Holding(db, q, c) && db.candidates[c].base == base && Hunting(db, q, line, j)
             && |Ids(db.candidates[c])| == k
    requires Ids(db.candidates[c]) <= Line(db, q)
    requires !HitsConflict(Ids(db.candidates[c]), a) && a.passed && !a.stale
    ensures var (db', out) := Work(db, q, c, base, config, a);
            out.Landed? && Placed(db', q, NextBase(base, out), 0, line, j + k)
  {
    TestedHunts(db, q, c, a.tip, line, j);
    UnderTestHolds(db, q, c, a.tip);
    LandedPlaced(UnderTest(db, c, a.tip), q, c, a.tip, line, j);
  }

  lemma LandedPlaced(db: Db, q: Queue, c: CandidateId, base: Sha, line: seq<EntryId>, j: nat)
    requires Holding(db, q, c) && db.candidates[c].state.Testing? && Hunting(db, q, line, j)
    requires Ids(db.candidates[c]) <= Line(db, q)
    ensures Placed(Tables.Landed(db, c), q, base, 0, line, j + |Ids(db.candidates[c])|)
  {
    LandingHunts(db, q, c, line, j);
    LandedIsFit(db, q, c);
  }

  lemma LandedIsFit(db: Db, q: Queue, c: CandidateId)
    requires Holding(db, q, c) && db.candidates[c].state.Testing?
    ensures Fit(Tables.Landed(db, c), q) && ActiveCandidate(Tables.Landed(db, c), q).None?
  {
    LandFrees(db, q, c);
    FreeIsFit(Tables.Landed(db, c), q);
  }

  lemma WorkSplits(db: Db, q: Queue, c: CandidateId, base: Sha, config: Config, a: Answers, line: seq<EntryId>,
                   j: nat, k: nat)
    requires Holding(db, q, c) && db.candidates[c].base == base && Hunting(db, q, line, j)
             && |Ids(db.candidates[c])| == k >= 2
    requires Ids(db.candidates[c]) <= Line(db, q)
    requires !HitsConflict(Ids(db.candidates[c]), a) && !a.passed && !a.interrupted
    ensures var (db', out) := Work(db, q, c, base, config, a);
            out.Split? && Placed(db', q, base, k / 2, line, j)
  {
    UnderTestHolds(db, q, c, a.tip);
    TestedHunts(db, q, c, a.tip, line, j);
    SplitPlaced(UnderTest(db, c, a.tip), q, c, line, j);
    SplitIsFree(UnderTest(db, c, a.tip), q, c, 1);
  }

  lemma SplitPlaced(db: Db, q: Queue, c: CandidateId, line: seq<EntryId>, j: nat)
    requires Holding(db, q, c) && db.candidates[c].state.Testing? && Hunting(db, q, line, j)
    requires Ids(db.candidates[c]) <= Line(db, q) && |Ids(db.candidates[c])| >= 2
    ensures var ids := Ids(db.candidates[c]);
            var db' := Opened(Tables.Abandoned(db, c, CandidateState.Failed), q, db.candidates[c].base,
                              ids[..|ids| / 2], Some(c));
            Placed(db', q, db.candidates[c].base, |ids| / 2, line, j)
  {
    SplitHunts(db, q, c, line, j);
    SplitIsFit(db, q, c);
    SplitIsFree(db, q, c, 1);
  }

  lemma SplitIsFit(db: Db, q: Queue, c: CandidateId)
    requires Holding(db, q, c) && db.candidates[c].state.Testing? && |Ids(db.candidates[c])| >= 2
    requires Ids(db.candidates[c]) <= Line(db, q)
    ensures var left := Ids(db.candidates[c])[..|Ids(db.candidates[c])| / 2];
            Fit(Opened(Tables.Abandoned(db, c, CandidateState.Failed), q, db.candidates[c].base, left, Some(c)), q)
  {
    var left := Ids(db.candidates[c])[..|Ids(db.candidates[c])| / 2];
    SplitHolds(db, q, c);
    HoldingIsFit(Opened(Tables.Abandoned(db, c, CandidateState.Failed), q, db.candidates[c].base, left, Some(c)), q,
                 |db.candidates|);
  }

  lemma WorkBlames(db: Db, q: Queue, c: CandidateId, base: Sha, config: Config, a: Answers)
    requires Holding(db, q, c) && db.candidates[c].base == base && |Ids(db.candidates[c])| == 1
    requires !HitsConflict(Ids(db.candidates[c]), a) && !a.passed && !a.interrupted
    ensures var (db', out) := Work(db, q, c, base, config, a);
            var culprit := Ids(db.candidates[c])[0];
            && out.Blamed? && out.entry == culprit && culprit < |db.entries| == |db'.entries|
            && db'.entries[culprit].attempts == db.entries[culprit].attempts + 1
  {
    UnderTestHolds(db, q, c, a.tip);
    MemberIsLive(db, q, c, Ids(db.candidates[c])[0], config.maxAttempts);
  }

  /** The entry has been found at fault once. */
  ghost predicate ChargedOnce(es: seq<EntryRow>, e: EntryId) {
    e < |es| && es[e].attempts == 1
  }

  lemma AdvanceLands(db: Db, q: Queue, base: Sha, config: Config, a: Answers, line: seq<EntryId>, j: nat, k: nat)
    requires Starts(db, q, base, config, line, j, k) && k > 0
    requires !HitsConflict(line[j..j + k], a) && a.passed && !a.stale
    ensures var (db', out) := Advance(db, q, base, config, a);
            out.Landed? && Placed(db', q, NextBase(base, out), 0, line, j + k)
  {
    var (s, c) := Started(db, q, base, config);
    AdvanceIsWork(db, q, base, config, a);
    assert line[j..j + k] == line[j..][..k];
    WorkLands(s, q, c, base, config, a, line, j, k);
  }

  lemma AdvanceSplits(db: Db, q: Queue, base: Sha, config: Config, a: Answers, line: seq<EntryId>, j: nat, k: nat)
    requires Starts(db, q, base, config, line, j, k) && k >= 2
    requires !HitsConflict(line[j..j + k], a) && !a.passed && !a.interrupted
    ensures var (db', out) := Advance(db, q, base, config, a);
            out.Split? && Placed(db', q, NextBase(base, out), k / 2, line, j)
  {
    var (s, c) := Started(db, q, base, config);
    AdvanceIsWork(db, q, base, config, a);
    assert line[j..j + k] == line[j..][..k];
    WorkSplits(s, q, c, base, config, a, line, j, k);
  }

  lemma AdvanceBlames(db: Db, q: Queue, base: Sha, config: Config, a: Answers, line: seq<EntryId>, j: nat)
    requires Starts(db, q, base, config, line, j, 1)
    requires !HitsConflict(line[j..j + 1], a) && !a.passed && !a.interrupted
    ensures var (db', out) := Advance(db, q, base, config, a);
            out.Blamed? && out.entry == line[j] && ChargedOnce(db'.entries, line[j])
  {
    var (s, c) := Started(db, q, base, config);
    AdvanceIsWork(db, q, base, config, a);
    WorkBlames(s, q, c, base, config, a);
  }

  // ----- the whole search

  /** What each tick reported. */
  ghost function Reports(db: Db, q: Queue, base: Sha, config: Config, answers: seq<Answers>): (r: seq<TickOutcome>)
    ensures |r| == |answers|
    decreases |answers|
  {
    if answers == [] then []
    else
      var (db', out) := Advance(db, q, base, config, answers[0]);
      [out] + Reports(db', q, NextBase(base, out), config, answers[1..])
  }

  /** The last report blames this entry and no earlier one blames anything. */
  ghost predicate BlamesAtLast(reports: seq<TickOutcome>, e: EntryId) {
    var n := |reports|;
    && n >= 1 && reports[n - 1].Blamed? && reports[n - 1].entry == e
    && forall i :: 0 <= i < n - 1 ==> !reports[i].Blamed?
  }

  /** The blame falls on the last tick and no sooner, once, and everything ahead of the fault has merged by then. */
  ghost predicate FoundAt(db: Db, q: Queue, base: Sha, config: Config, answers: seq<Answers>, line: seq<EntryId>,
                          f: nat) {
    && f < |line| && answers != []
    && BlamesAtLast(Reports(db, q, base, config, answers), line[f])
    && FrontMerged(Ticked(db, q, base, config, answers[..|answers| - 1]).entries, line, f)
    && ChargedOnce(Ticked(db, q, base, config, answers).entries, line[f])
  }

  /** One tick that blames nobody leads from these tables and this base to those. */
  ghost predicate Leads(db: Db, q: Queue, base: Sha, config: Config, answers: seq<Answers>, db': Db, base': Sha) {
    && answers != []
    && var (now, out) := Advance(db, q, base, config, answers[0]);
       now == db' && NextBase(base, out) == base' && !out.Blamed?
  }

  lemma FoundLater(db: Db, q: Queue, base: Sha, config: Config, answers: seq<Answers>, line: seq<EntryId>, f: nat,
                   db': Db, base': Sha)
    requires Leads(db, q, base, config, answers, db', base')
    requires FoundAt(db', q, base', config, answers[1..], line, f)
    ensures FoundAt(db, q, base, config, answers, line, f)
  {
    var n, rest := |answers|, answers[1..];
    var front := answers[..n - 1];
    assert front[0] == answers[0] && front[1..] == rest[..n - 2];
    var out := Advance(db, q, base, config, answers[0]).1;
    assert Ticked(db, q, base, config, front) == Ticked(db', q, base', config, rest[..n - 2]);
    BlamedLater(out, Reports(db', q, base', config, rest), line[f]);
  }

  lemma BlamedLater(out: TickOutcome, reports: seq<TickOutcome>, e: EntryId)
    requires !out.Blamed? && BlamesAtLast(reports, e)
    ensures BlamesAtLast([out] + reports, e)
  {
  }

  /** The search still to be done from here, f being where the fault is. */
  ghost predicate Searching(db: Db, q: Queue, base: Sha, config: Config, line: seq<EntryId>, j: nat, m: nat, f: nat) {
    && Placed(db, q, base, m, line, j)
    && |line| <= config.maxBatch && j <= f < |line| && m <= |line| - j
  }

  /** What the next tick takes from the line. */
  function NextSize(line: seq<EntryId>, j: nat, m: nat): int {
    if m == 0 then |line| - j else m
  }

  /** One answer for every gate run still to come. */
  ghost predicate Enough(answers: seq<Answers>, n: nat, p: nat, k: nat) {
    p < n && 1 <= k <= n && |answers| == GateRuns(n, p, k)
  }

  lemma SearchStarts(db: Db, q: Queue, base: Sha, config: Config, line: seq<EntryId>, j: nat, m: nat, f: nat, k: nat)
    requires Searching(db, q, base, config, line, j, m, f) && k == NextSize(line, j, m)
    ensures Starts(db, q, base, config, line, j, k) && k >= 1
  {
    if m == 0 {
      OpeningStarts(db, q, base, config, line, j, k);
    } else {
      ResumingStarts(db, q, base, config, line, j, k);
    }
  }

  lemma SearchLands(db: Db, q: Queue, base: Sha, config: Config, a: Answers, line: seq<EntryId>, j: nat, f: nat, k: nat)
    requires Starts(db, q, base, config, line, j, k) && 1 <= k && j + k <= f < |line| <= config.maxBatch
    requires !HitsConflict(line[j..j + k], a) && a.passed && !a.stale
    ensures var (db', out) := Advance(db, q, base, config, a);
            out.Landed? && Searching(db', q, NextBase(base, out), config, line, j + k, 0, f)
  {
    AdvanceLands(db, q, base, config, a, line, j, k);
  }

  lemma SearchSplits(db: Db, q: Queue, base: Sha, config: Config, a: Answers, line: seq<EntryId>, j: nat, f: nat,
                     k: nat)
    requires Starts(db, q, base, config, line, j, k) && k >= 2 && j <= f < |line| <= config.maxBatch
    requires !HitsConflict(line[j..j + k], a) && !a.passed && !a.interrupted
    ensures var (db', out) := Advance(db, q, base, config, a);
            out.Split? && Searching(db', q, NextBase(base, out), config, line, j, k / 2, f)
  {
    AdvanceSplits(db, q, base, config, a, line, j, k);
  }

  /** A search with an answer for each of its ticks; n of the line are left, the fault is p ahead, k are tested next. */
  ghost predicate Ongoing(db: Db, q: Queue, base: Sha, config: Config, answers: seq<Answers>, trial: Trial,
                          line: seq<EntryId>, j: nat, m: nat, f: nat, n: nat, p: nat, k: nat) {
    && Searching(db, q, base, config, line, j, m, f) && FirstFault(line, f, trial)
    && k == NextSize(line, j, m) && j + n == |line| && j + p == f
    && TruthfulRun(db, q, base, config, trial, answers) && Enough(answers, n, p, k)
  }

  lemma OnPastLanding(db: Db, q: Queue, base: Sha, config: Config, answers: seq<Answers>, trial: Trial,
                      line: seq<EntryId>, j: nat, m: nat, f: nat, n: nat, p: nat, k: nat, n': nat, p': nat)
    returns (db': Db, base': Sha)
    requires Ongoing(db, q, base, config, answers, trial, line, j, m, f, n, p, k)
    requires k <= p && n' == n - k && p' == p - k
    ensures Leads(db, q, base, config, answers, db', base')
    ensures Ongoing(db', q, base', config, answers[1..], trial, line, j + k, 0, f, n', p', n')
  {
    SearchStarts(db, q, base, config, line, j, m, f, k);
    PassesAhead(line, j, k, f, trial, answers[0]);
    SearchLands(db, q, base, config, answers[0], line, j, f, k);
    LandingRuns(answers, n, p, k, n', p');
    var (now, out) := Advance(db, q, base, config, answers[0]);
    db', base' := now, NextBase(base, out);
  }

  lemma OnInHalf(db: Db, q: Queue, base: Sha, config: Config, answers: seq<Answers>, trial: Trial,
                 line: seq<EntryId>, j: nat, m: nat, f: nat, n: nat, p: nat, k: nat)
    returns (db': Db, base': Sha)
    requires Ongoing(db, q, base, config, answers, trial, line, j, m, f, n, p, k) && k > p && k > 1
    ensures Leads(db, q, base, config, answers, db', base')
    ensures Ongoing(db', q, base', config, answers[1..], trial, line, j, k / 2, f, n, p, k / 2)
  {
    SearchStarts(db, q, base, config, line, j, m, f, k);
    PassesAhead(line, j, k, f, trial, answers[0]);
    SearchSplits(db, q, base, config, answers[0], line, j, f, k);
    SplitRuns(answers, n, p, k);
    var (now, out) := Advance(db, q, base, config, answers[0]);
    db', base' := now, NextBase(base, out);
  }

  lemma OnToBlame(db: Db, q: Queue, base: Sha, config: Config, answers: seq<Answers>, trial: Trial,
                  line: seq<EntryId>, j: nat, m: nat, f: nat, n: nat, p: nat, k: nat)
    requires Ongoing(db, q, base, config, answers, trial, line, j, m, f, n, p, k) && k > p && k == 1
    ensures FoundAt(db, q, base, config, answers, line, f)
  {
    SearchStarts(db, q, base, config, line, j, m, f, k);
    PassesAhead(line, j, k, f, trial, answers[0]);
    AdvanceBlames(db, q, base, config, answers[0], line, j);
    SplitRuns(answers, n, p, k);
    FoundNow(db, q, base, config, answers, line, f);
  }

  lemma {:induction false} SearchTakes(db: Db, q: Queue, base: Sha, config: Config, answers: seq<Answers>, trial: Trial,
                                       line: seq<EntryId>, j: nat, m: nat, f: nat, n: nat, p: nat, k: nat)
    requires Ongoing(db, q, base, config, answers, trial, line, j, m, f, n, p, k)
    ensures FoundAt(db, q, base, config, answers, line, f)
    decreases |answers|
  {
    if k <= p {
      var n', p' := n - k, p - k;
      var db', base' := OnPastLanding(db, q, base, config, answers, trial, line, j, m, f, n, p, k, n', p');
      SearchTakes(db', q, base', config, answers[1..], trial, line, j + k, 0, f, n', p', n');
      FoundLater(db, q, base, config, answers, line, f, db', base');
    } else if k > 1 {
      var db', base' := OnInHalf(db, q, base, config, answers, trial, line, j, m, f, n, p, k);
      SearchTakes(db', q, base', config, answers[1..], trial, line, j, k / 2, f, n, p, k / 2);
      FoundLater(db, q, base, config, answers, line, f, db', base');
    } else {
      OnToBlame(db, q, base, config, answers, trial, line, j, m, f, n, p, k);
    }
  }

  lemma LandingRuns(answers: seq<Answers>, n: nat, p: nat, k: nat, n': nat, p': nat)
    requires Enough(answers, n, p, k) && k <= p && n' == n - k && p' == p - k
    ensures Enough(answers[1..], n', p', n')
  {
  }

  lemma SplitRuns(answers: seq<Answers>, n: nat, p: nat, k: nat)
    requires Enough(answers, n, p, k) && k > p
    ensures if k == 1 then |answers| == 1 else Enough(answers[1..], n, p, k / 2)
  {
  }

  lemma FoundNow(db: Db, q: Queue, base: Sha, config: Config, answers: seq<Answers>, line: seq<EntryId>, f: nat)
    requires |answers| == 1 && f < |line| && FrontMerged(db.entries, line, f)
    requires var (db', out) := Advance(db, q, base, config, answers[0]);
             out.Blamed? && out.entry == line[f] && ChargedOnce(db'.entries, line[f])
    ensures FoundAt(db, q, base, config, answers, line, f)
  {
  }

  /**
   n never-failed entries that fit one batch, nothing conflicting, the first fault
   at f: it is blamed after exactly GateRuns(n, f, n) gate runs, at most
   (bits(f) + 1) * (log2(n) + 1) of them, when everything ahead of it has merged.
   */
  lemma FaultIsIsolated(db: Db, q: Queue, base: Sha, config: Config, answers: seq<Answers>, trial: Trial, f: nat)
    requires TableInv(db) && NoneActive(db, q)
    requires forall e :: e in Line(db, q) ==> e < |db.entries| && db.entries[e].attempts == 0
    requires |Line(db, q)| <= config.maxBatch && FirstFault(Line(db, q), f, trial)
    requires TruthfulRun(db, q, base, config, trial, answers)
    requires |answers| == GateRuns(|Line(db, q)|, f, |Line(db, q)|)
    ensures FoundAt(db, q, base, config, answers, Line(db, q), f)
  {
    var line := Line(db, q);
    FreeIsFit(db, q);
    assert forall i :: 0 <= i < |line| ==> line[i] in line;
    SearchTakes(db, q, base, config, answers, trial, line, 0, 0, f, |line|, f, |line|);
  }
}
