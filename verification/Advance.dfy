/** One whole tick with nothing falling between its steps: what it makes of the tables. */
module Advancing {
  import opened Vocabulary
  import opened States
  import opened Tables
  import opened Ranking
  import opened TableInvariant
  import opened Overtaking
  import Discipline
  import OrderInRuns
  import Bisection

  /** What git, the gate and the signal flag answer during one tick. */
  datatype Answers = Answers(
    conflict: Option<nat>,  // the first position that does not merge, if any does not
    tip: Sha,               // the commit the merges came to
    passed: bool,
    stale: bool,            // the base had moved by the time of the fast-forward
    interrupted: bool)

  datatype Why = BaseMoved | Interrupted

  datatype TickOutcome =
    | AnotherWorkerHolds(holder: nat)
    | BaseCheckedOut
    | Idle
    | Landed(candidate: CandidateId, entries: nat, at: Sha)
    | Abandoned(candidate: CandidateId, why: Why, requeued: nat)
    | Blamed(candidate: CandidateId, entry: EntryId, evicted: bool, fault: string)
    | Split(failed: CandidateId, next: CandidateId, retrying: nat)
    | Failed(error: string)

  function Discard(db: Db, c: CandidateId, why: Why): (Db, TickOutcome) {
    (Tables.Abandoned(db, c, Superseded), Abandoned(c, why, PutBack(db, c)))
  }

  function Pin(db: Db, c: CandidateId, culprit: EntryId, config: Config, fault: string): (Db, TickOutcome) {
    (Tables.Blamed(db, c, culprit, config.maxAttempts, fault),
     Blamed(c, culprit, culprit < |db.entries| && Evicts(db, culprit, config.maxAttempts), fault))
  }

  function OnGateFailure(db: Db, q: Queue, c: CandidateId, config: Config): (Db, TickOutcome)
    requires c < |db.candidates|
  {
    match Bisection.Decide(Ids(db.candidates[c]))
    case Ok(Culprit(e)) => Pin(db, c, e, config, FAILED_ALONE)
    case Ok(Bisect(left, _)) =>
      (Opened(Tables.Abandoned(db, c, CandidateState.Failed), q, db.candidates[c].base, left, Some(c)),
       Split(c, |db.candidates|, |left|))
    case Err(error) => (db, TickOutcome.Failed(error))
  }

  function Judge(db: Db, q: Queue, c: CandidateId, config: Config, a: Answers): (Db, TickOutcome)
    requires c < |db.candidates|
  {
    if a.passed then
      if a.stale then Discard(db, c, BaseMoved)
      else (Tables.Landed(db, c), Landed(c, |db.candidates[c].members|, a.tip))
    else if a.interrupted then Discard(db, c, Interrupted)
    else OnGateFailure(db, q, c, config)
  }

  predicate HitsConflict(ids: seq<EntryId>, a: Answers) {
    a.conflict.Some? && a.conflict.value < |ids|
  }

  function Work(db: Db, q: Queue, c: CandidateId, base: Sha, config: Config, a: Answers): (Db, TickOutcome)
    requires c < |db.candidates|
  {
    var row := db.candidates[c];
    if row.base != base then Discard(db, c, BaseMoved)
    else if HitsConflict(Ids(row), a) then Pin(db, c, Ids(row)[a.conflict.value], config, CONFLICTS)
    else Judge(UnderTest(db, c, a.tip), q, c, config, a)
  }

  /** Resume the unfinished candidate, or open one over what waits, and see it through. */
  function Advance(db: Db, q: Queue, base: Sha, config: Config, a: Answers): (Db, TickOutcome) {
    var active := ActiveCandidate(db, q);
    if active.Some? then Work(db, q, active.value, base, config, a)
    else
      var batch := SelectBatch(db, q, config.maxBatch);
      if batch == [] then (db, Idle)
      else Work(Opened(db, q, base, batch, None), q, |db.candidates|, base, config, a)
  }

  /** The entries the next tick works on, in merge order. */
  ghost function Picked(db: Db, q: Queue, config: Config): seq<EntryId> {
    var active := ActiveCandidate(db, q);
    if active.Some? then Ids(db.candidates[active.value]) else SelectBatch(db, q, config.maxBatch)
  }

  /** The tables and the candidate a tick works on. */
  ghost function Started(db: Db, q: Queue, base: Sha, config: Config): (Db, CandidateId) {
    var active := ActiveCandidate(db, q);
    if active.Some? then (db, active.value)
    else (Opened(db, q, base, SelectBatch(db, q, config.maxBatch), None), |db.candidates|)
  }

  lemma AdvanceIsWork(db: Db, q: Queue, base: Sha, config: Config, a: Answers)
    requires Picked(db, q, config) != []
    ensures var (s, c) := Started(db, q, base, config);
            c < |s.candidates| && Advance(db, q, base, config, a) == Work(s, q, c, base, config, a)
  {
  }

  // ----- when something gives out

  /** What refuses to go on: the log prune, one of the git commands of an assembly, the gate, or moving the base. */
  datatype Trouble = AtPrune | AtAssembly(command: nat) | AtGate | AtFastForward

  const GAVE_OUT := "gave out"

  /**
   The tick comes to where this trouble waits; checking the base out is the first
   command, and each merge one more.
   */
  predicate Strikes(ids: seq<EntryId>, a: Answers, trouble: Trouble) {
    match trouble
    case AtPrune => false
    case AtAssembly(command) => command <= |ids| && (HitsConflict(ids, a) ==> command <= a.conflict.value + 1)
    case AtGate => !HitsConflict(ids, a)
    case AtFastForward => !HitsConflict(ids, a) && a.passed
  }

  /** Work that ends where trouble strikes, leaving what it had written. */
  function WorkUnder(db: Db, q: Queue, c: CandidateId, base: Sha, config: Config, a: Answers,
                     trouble: Option<Trouble>): (Db, TickOutcome)
    requires c < |db.candidates|
  {
    var row := db.candidates[c];
    if trouble.Some? && row.base == base && Strikes(Ids(row), a, trouble.value) then
      (if trouble.value.AtAssembly? then db else UnderTest(db, c, a.tip), TickOutcome.Failed(GAVE_OUT))
    else Work(db, q, c, base, config, a)
  }

  function AdvanceUnder(db: Db, q: Queue, base: Sha, config: Config, a: Answers,
                        trouble: Option<Trouble>): (Db, TickOutcome)
  {
    var active := ActiveCandidate(db, q);
    if trouble == Some(AtPrune) then (db, TickOutcome.Failed(GAVE_OUT))
    else if active.Some? then WorkUnder(db, q, active.value, base, config, a, trouble)
    else
      var batch := SelectBatch(db, q, config.maxBatch);
      if batch == [] then (db, Idle)
      else WorkUnder(Opened(db, q, base, batch, None), q, |db.candidates|, base, config, a, trouble)
  }

  // ----- a sound start, an unfinished candidate in hand

  ghost predicate Holding(db: Db, q: Queue, c: CandidateId) {
    TableInv(db) && ActiveIs(db, q, c)
  }

  lemma ActiveIsOne(db: Db, q: Queue, c: CandidateId)
    requires TableInv(db) && ActiveIs(db, q, c)
    ensures ActiveCandidate(db, q) == Some(c)
  {
  }

  lemma UnderTestHolds(db: Db, q: Queue, c: CandidateId, tip: Sha)
    requires Holding(db, q, c)
    ensures var db' := UnderTest(db, c, tip);
            && Holding(db', q, c) && KeptBy(db, db', q)
            && db'.candidates[c].state.Testing? && Ids(db'.candidates[c]) == Ids(db.candidates[c])
            && db'.candidates[c].base == db.candidates[c].base && db'.entries == db.entries
            && |db'.candidates| == |db.candidates| && Line(db', q) == Line(db, q)
  {
    UnderTestKeeps(db, q, c, tip);
    LineStays(db, UnderTest(db, c, tip), q);
  }

  lemma OpenHolds(db: Db, q: Queue, base: Sha, batch: seq<EntryId>, parent: Option<CandidateId>)
    requires TableInv(db) && Openable(db, q, batch)
    ensures var db', c := Opened(db, q, base, batch, parent), |db.candidates|;
            && Holding(db', q, c) && KeptBy(db, db', q)
            && Ids(db'.candidates[c]) == batch && db'.candidates[c].base == base && Line(db', q) == Line(db, q)
  {
    OpenKeeps(db, q, base, batch, parent);
    OpenKeepsLine(db, q, base, batch, parent, q);
    assert Ids(Opened(db, q, base, batch, parent).candidates[|db.candidates|]) == batch;
  }

  /** What selection takes may be opened. */
  lemma SelectedHolds(db: Db, q: Queue, base: Sha, limit: nat)
    requires TableInv(db) && NoneActive(db, q) && SelectBatch(db, q, limit) != []
    ensures var batch := SelectBatch(db, q, limit);
            var db', c := Opened(db, q, base, batch, None), |db.candidates|;
            && Holding(db', q, c) && KeptBy(db, db', q)
            && Ids(db'.candidates[c]) == batch && db'.candidates[c].base == base && Line(db', q) == Line(db, q)
  {
    Discipline.BatchIsOpenable(db, q, limit);
    OpenHolds(db, q, base, SelectBatch(db, q, limit), None);
  }

  /** After a split's abandon the left half waits again, uncharged. */
  lemma LeftWaits(db: Db, q: Queue, c: CandidateId, left: seq<EntryId>)
    requires TableInv(db) && ActiveIs(db, q, c) && left <= Ids(db.candidates[c])
    ensures var free := Tables.Abandoned(db, c, CandidateState.Failed);
            forall e :: e in left ==> Waits(free, q, e) && free.entries[e].attempts == db.entries[e].attempts
  {
    var free := Tables.Abandoned(db, c, CandidateState.Failed);
    forall e | e in left ensures Waits(free, q, e) && free.entries[e].attempts == db.entries[e].attempts {
      var i :| 0 <= i < |left| && left[i] == e;
      assert Ids(db.candidates[c])[i] == e && Holds(db.candidates[c], e);
      Discipline.AbandonRequeues(db, q, c, CandidateState.Failed, e);
    }
  }

  lemma FailingFrees(db: Db, q: Queue, c: CandidateId)
    requires Holding(db, q, c) && db.candidates[c].state.Testing?
    ensures var free := Tables.Abandoned(db, c, CandidateState.Failed);
            KeptBy(db, free, q) && Line(free, q) == Line(db, q) && NoneActive(free, q)
  {
    AbandonKeeps(db, q, c, CandidateState.Failed);
    AbandonKeepsLine(db, q, c, CandidateState.Failed);
  }

  /** It may be opened. */
  lemma LeftHolds(db: Db, q: Queue, c: CandidateId)
    requires Holding(db, q, c) && db.candidates[c].state.Testing? && |Ids(db.candidates[c])| >= 2
    ensures var left := Ids(db.candidates[c])[..|Ids(db.candidates[c])| / 2];
            var free := Tables.Abandoned(db, c, CandidateState.Failed);
            KeptBy(db, free, q) && Line(free, q) == Line(db, q) && Openable(free, q, left)
  {
    var ids := Ids(db.candidates[c]);
    FailingFrees(db, q, c);
    LeftWaits(db, q, c, ids);
    assert Sound(db.entries, db.candidates[c]) && Quarantined(db.entries, ids);
    Discipline.FrontIsOpenable(Tables.Abandoned(db, c, CandidateState.Failed), q, ids, |ids| / 2);
  }

  /** The candidate that a split leaves in hand. */
  lemma SplitHolds(db: Db, q: Queue, c: CandidateId)
    requires Holding(db, q, c) && db.candidates[c].state.Testing? && |Ids(db.candidates[c])| >= 2
    ensures var ids := Ids(db.candidates[c]);
            var left := ids[..|ids| / 2];
            var db' := Opened(Tables.Abandoned(db, c, CandidateState.Failed), q, db.candidates[c].base, left, Some(c));
            && Holding(db', q, |db.candidates|)
            && Ids(db'.candidates[|db.candidates|]) == left
            && db'.candidates[|db.candidates|].base == db.candidates[c].base
            && Line(db', q) == Line(db, q)
  {
    var ids := Ids(db.candidates[c]);
    LeftHolds(db, q, c);
    OpenHolds(Tables.Abandoned(db, c, CandidateState.Failed), q, db.candidates[c].base, ids[..|ids| / 2], Some(c));
  }

  lemma LandFrees(db: Db, q: Queue, c: CandidateId)
    requires Holding(db, q, c) && db.candidates[c].state.Testing?
    ensures var db' := Tables.Landed(db, c); TableInv(db') && NoneActive(db', q)
  {
    LandKeeps(db, q, c);
  }

  lemma DiscardFrees(db: Db, q: Queue, c: CandidateId)
    requires Holding(db, q, c)
    ensures var db' := Tables.Abandoned(db, c, Superseded); TableInv(db') && NoneActive(db', q)
  {
    AbandonKeeps(db, q, c, Superseded);
  }

  lemma BlameFrees(db: Db, q: Queue, c: CandidateId, culprit: EntryId, config: Config, fault: string)
    requires Holding(db, q, c) && culprit in Ids(db.candidates[c])
    ensures var db' := Tables.Blamed(db, c, culprit, config.maxAttempts, fault);
            TableInv(db') && NoneActive(db', q)
  {
    assert Holds(db.candidates[c], culprit);
    BlameKeeps(db, q, c, culprit, config.maxAttempts, fault);
  }

  lemma GateFailureKeeps(db: Db, q: Queue, c: CandidateId, config: Config)
    requires Holding(db, q, c) && db.candidates[c].state.Testing?
    ensures var (db', out) := OnGateFailure(db, q, c, config); TableInv(db') && !out.Failed?
  {
    var ids := Ids(db.candidates[c]);
    assert Sound(db.entries, db.candidates[c]);
    if |ids| == 1 { BlameFrees(db, q, c, ids[0], config, FAILED_ALONE); } else { SplitHolds(db, q, c); }
  }

  lemma WorkKeeps(db: Db, q: Queue, c: CandidateId, base: Sha, config: Config, a: Answers)
    requires Holding(db, q, c)
    ensures var (db', out) := Work(db, q, c, base, config, a); TableInv(db') && !out.Failed?
  {
    var ids := Ids(db.candidates[c]);
    if db.candidates[c].base != base {
      DiscardFrees(db, q, c);
    } else if HitsConflict(ids, a) {
      BlameFrees(db, q, c, ids[a.conflict.value], config, CONFLICTS);
    } else {
      var tested := UnderTest(db, c, a.tip);
      UnderTestHolds(db, q, c, a.tip);
      if a.passed && !a.stale { LandFrees(tested, q, c); }
      else if a.passed || a.interrupted { DiscardFrees(tested, q, c); }
      else { GateFailureKeeps(tested, q, c, config); }
    }
  }

  /** A tick keeps the tables sound, whatever the answers. */
  lemma AdvanceKeeps(db: Db, q: Queue, base: Sha, config: Config, a: Answers)
    requires TableInv(db)
    ensures var (db', out) := Advance(db, q, base, config, a); TableInv(db') && !out.Failed?
  {
    var active := ActiveCandidate(db, q);
    if active.Some? {
      WorkKeeps(db, q, active.value, base, config, a);
    } else {
      var batch := SelectBatch(db, q, config.maxBatch);
      if batch != [] {
        SelectedHolds(db, q, base, config.maxBatch);
        WorkKeeps(Opened(db, q, base, batch, None), q, |db.candidates|, base, config, a);
      }
    }
  }

  /** This candidate is in flight as it was, tested or not, and no entry has changed. */
  ghost predicate StillInHand(db: Db, db': Db, q: Queue, c: CandidateId) {
    && c < |db.candidates| && c < |db'.candidates| && db'.entries == db.entries
    && ActiveCandidate(db', q) == Some(c) && Ids(db'.candidates[c]) == Ids(db.candidates[c])
  }

  lemma WorkUnderKeeps(db: Db, q: Queue, c: CandidateId, base: Sha, config: Config, a: Answers,
                       trouble: Option<Trouble>)
    requires Holding(db, q, c)
    ensures var (db', out) := WorkUnder(db, q, c, base, config, a, trouble);
            TableInv(db') && (out.Failed? ==> trouble.Some? && StillInHand(db, db', q, c))
  {
    if trouble.Some? && db.candidates[c].base == base && Strikes(Ids(db.candidates[c]), a, trouble.value) {
      UnderTestHolds(db, q, c, a.tip);
      ActiveIsOne(db, q, c);
      ActiveIsOne(UnderTest(db, c, a.tip), q, c);
    } else {
      WorkKeeps(db, q, c, base, config, a);
    }
  }

  /** The candidate a failed tick had taken up is in flight over what it picked, for the next tick to resume. */
  ghost predicate LeftInHand(db: Db, db': Db, q: Queue, base: Sha, config: Config) {
    && Picked(db, q, config) != []
    && StillInHand(Started(db, q, base, config).0, db', q, Started(db, q, base, config).1)
  }

  lemma OpeningUnderKeeps(db: Db, q: Queue, base: Sha, config: Config, a: Answers, trouble: Option<Trouble>)
    requires TableInv(db) && ActiveCandidate(db, q).None? && SelectBatch(db, q, config.maxBatch) != []
    ensures var started := Opened(db, q, base, SelectBatch(db, q, config.maxBatch), None);
            var (db', out) := WorkUnder(started, q, |db.candidates|, base, config, a, trouble);
            && TableInv(db')
            && (out.Failed? ==> trouble.Some? && LeftInHand(db, db', q, base, config))
  {
    SelectedHolds(db, q, base, config.maxBatch);
    WorkUnderKeeps(Opened(db, q, base, SelectBatch(db, q, config.maxBatch), None), q, |db.candidates|, base, config,
                   a, trouble);
  }

  lemma ResumingUnderKeeps(db: Db, q: Queue, c: CandidateId, base: Sha, config: Config, a: Answers,
                           trouble: Option<Trouble>)
    requires TableInv(db) && ActiveCandidate(db, q) == Some(c)
    ensures var (db', out) := WorkUnder(db, q, c, base, config, a, trouble);
            && TableInv(db')
            && (out.Failed? ==> trouble.Some? && LeftInHand(db, db', q, base, config))
  {
    WorkUnderKeeps(db, q, c, base, config, a, trouble);
    assert Sound(db.entries, db.candidates[c]);
  }

  /**
   So does a tick that something gives out under. It fails only then, charges
   and finishes nobody, and if it had come to a candidate leaves that one in
   flight, for the next tick to resume.
   */
  lemma AdvanceUnderKeeps(db: Db, q: Queue, base: Sha, config: Config, a: Answers, trouble: Option<Trouble>)
    requires TableInv(db)
    ensures var (db', out) := AdvanceUnder(db, q, base, config, a, trouble);
            && TableInv(db')
            && (out.Failed? ==> trouble.Some? && (db' == db || LeftInHand(db, db', q, base, config)))
  {
    var active := ActiveCandidate(db, q);
    if trouble != Some(AtPrune) {
      if active.Some? {
        ResumingUnderKeeps(db, q, active.value, base, config, a, trouble);
      } else if SelectBatch(db, q, config.maxBatch) != [] {
        OpeningUnderKeeps(db, q, base, config, a, trouble);
      }
    }
  }

  // ----- and the order of the line

  lemma SelectedInFront(db: Db, q: Queue, limit: nat)
    requires TableInv(db) && NoneActive(db, q)
    ensures SelectBatch(db, q, limit) <= Line(db, q)
  {
    OrderInRuns.NothingBatched(db, q);
    WaitingIsLine(db, q);
  }

  lemma OpenInOrder(db: Db, q: Queue, base: Sha, batch: seq<EntryId>, parent: Option<CandidateId>)
    requires TableInv(db) && InOrder(db) && Openable(db, q, batch) && batch <= Line(db, q)
    ensures InOrder(Opened(db, q, base, batch, parent))
  {
    OpenKeepsOrder(db, q, base, batch, parent);
  }

  /** The left half of the front of a line is the front of it. */
  lemma SplitInOrder(db: Db, q: Queue, c: CandidateId)
    requires Holding(db, q, c) && InOrder(db) && db.candidates[c].state.Testing? && |Ids(db.candidates[c])| >= 2
    ensures var left := Ids(db.candidates[c])[..|Ids(db.candidates[c])| / 2];
            InOrder(Opened(Tables.Abandoned(db, c, CandidateState.Failed), q, db.candidates[c].base, left, Some(c)))
  {
    var ids, free := Ids(db.candidates[c]), Tables.Abandoned(db, c, CandidateState.Failed);
    LeftHolds(db, q, c);
    CloseInOrder(db, free, q);
    OpenInOrder(free, q, db.candidates[c].base, ids[..|ids| / 2], Some(c));
  }

  lemma CloseInOrder(db: Db, db': Db, q: Queue)
    requires InOrder(db) && KeptBy(db, db', q) && NoneActive(db', q)
    ensures InOrder(db')
  {
    CloseKeepsOrder(db, db', q);
  }

  lemma BlameInOrder(db: Db, q: Queue, c: CandidateId, culprit: EntryId, config: Config, fault: string)
    requires Holding(db, q, c) && InOrder(db) && culprit in Ids(db.candidates[c])
    ensures InOrder(Tables.Blamed(db, c, culprit, config.maxAttempts, fault))
  {
    assert Holds(db.candidates[c], culprit);
    BlameKeeps(db, q, c, culprit, config.maxAttempts, fault);
    CloseInOrder(db, Tables.Blamed(db, c, culprit, config.maxAttempts, fault), q);
  }

  lemma DiscardInOrder(db: Db, q: Queue, c: CandidateId)
    requires Holding(db, q, c) && InOrder(db)
    ensures InOrder(Tables.Abandoned(db, c, Superseded))
  {
    AbandonKeeps(db, q, c, Superseded);
    CloseInOrder(db, Tables.Abandoned(db, c, Superseded), q);
  }

  lemma LandInOrder(db: Db, q: Queue, c: CandidateId)
    requires Holding(db, q, c) && InOrder(db) && db.candidates[c].state.Testing?
    ensures InOrder(Tables.Landed(db, c))
  {
    LandKeeps(db, q, c);
    CloseInOrder(db, Tables.Landed(db, c), q);
  }

  lemma JudgedInOrder(db: Db, q: Queue, c: CandidateId, config: Config, a: Answers)
    requires Holding(db, q, c) && InOrder(db) && db.candidates[c].state.Testing?
    ensures InOrder(Judge(db, q, c, config, a).0)
  {
    var ids := Ids(db.candidates[c]);
    assert Sound(db.entries, db.candidates[c]);
    if a.passed && !a.stale { LandInOrder(db, q, c); }
    else if a.passed || a.interrupted { DiscardInOrder(db, q, c); }
    else if |ids| == 1 { BlameInOrder(db, q, c, ids[0], config, FAILED_ALONE); }
    else { SplitInOrder(db, q, c); }
  }

  lemma TestedInOrder(db: Db, q: Queue, c: CandidateId, config: Config, a: Answers)
    requires Holding(db, q, c) && InOrder(db)
    ensures InOrder(UnderTest(db, c, a.tip)) && InOrder(Judge(UnderTest(db, c, a.tip), q, c, config, a).0)
  {
    UnderTestHolds(db, q, c, a.tip);
    UnderTestKeepsOrder(db, c, a.tip);
    JudgedInOrder(UnderTest(db, c, a.tip), q, c, config, a);
  }

  lemma WorkInOrder(db: Db, q: Queue, c: CandidateId, base: Sha, config: Config, a: Answers)
    requires Holding(db, q, c) && InOrder(db)
    ensures InOrder(Work(db, q, c, base, config, a).0)
  {
    var ids := Ids(db.candidates[c]);
    if db.candidates[c].base != base {
      DiscardInOrder(db, q, c);
    } else if HitsConflict(ids, a) {
      BlameInOrder(db, q, c, ids[a.conflict.value], config, CONFLICTS);
    } else {
      TestedInOrder(db, q, c, config, a);
    }
  }

  lemma WorkUnderInOrder(db: Db, q: Queue, c: CandidateId, base: Sha, config: Config, a: Answers,
                         trouble: Option<Trouble>)
    requires Holding(db, q, c) && InOrder(db)
    ensures InOrder(WorkUnder(db, q, c, base, config, a, trouble).0)
  {
    if trouble.Some? && db.candidates[c].base == base && Strikes(Ids(db.candidates[c]), a, trouble.value) {
      UnderTestKeepsOrder(db, c, a.tip);
    } else {
      WorkInOrder(db, q, c, base, config, a);
    }
  }

  /** If every candidate in flight was at the front of its line, so it is after a tick, whatever happened in it. */
  lemma AdvanceKeepsOrder(db: Db, q: Queue, base: Sha, config: Config, a: Answers, trouble: Option<Trouble>)
    requires TableInv(db) && InOrder(db)
    ensures InOrder(AdvanceUnder(db, q, base, config, a, trouble).0)
  {
    var active := ActiveCandidate(db, q);
    if active.Some? {
      WorkUnderInOrder(db, q, active.value, base, config, a, trouble);
    } else {
      var batch := SelectBatch(db, q, config.maxBatch);
      if batch != [] {
        SelectedInFront(db, q, config.maxBatch);
        Discipline.BatchIsOpenable(db, q, config.maxBatch);
        OpenInOrder(db, q, base, batch, None);
        SelectedHolds(db, q, base, config.maxBatch);
        WorkUnderInOrder(Opened(db, q, base, batch, None), q, |db.candidates|, base, config, a, trouble);
      }
    }
  }
}
