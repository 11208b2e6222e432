/**
 With a gate that fails exactly the candidates holding a faulty entry, and
 entries that conflict or not by themselves, the queue drains fairly: every
 innocent entry merges without ever being charged, and every guilty one is
 evicted after exactly the attempts it is allowed.
 */
module Drain {
  import opened Vocabulary
  import opened States
  import opened Tables
  import opened Ranking
  import opened TableInvariant
  import opened Advancing
  import opened Termination

  datatype Trial = Trial(conflicting: set<EntryId>, faulty: set<EntryId>) {
    ghost predicate Innocent(e: EntryId) {
      e !in conflicting && e !in faulty
    }
  }

  /**
   The first conflicting entry is the one reported, and a gate that runs fails if
   and only if something faulty is in.
   */
  ghost predicate Truthful(ids: seq<EntryId>, trial: Trial, a: Answers) {
    && Calm(a)
    && (HitsConflict(ids, a) ==>
          ids[a.conflict.value] in trial.conflicting && forall i :: 0 <= i < a.conflict.value ==>
              ids[i] !in trial.conflicting)
    && (!HitsConflict(ids, a) ==> forall e :: e in ids ==> e !in trial.conflicting)
    && (ids != [] && !HitsConflict(ids, a) ==> (a.passed <==> forall e :: e in ids ==> e !in trial.faulty))
  }

  ghost predicate TruthfulRun(db: Db, q: Queue, base: Sha, config: Config, trial: Trial, answers: seq<Answers>)
    decreases |answers|
  {
    answers == [] ||
    (var (db', out) := Advance(db, q, base, config, answers[0]);
     && Truthful(Picked(db, q, config), trial, answers[0])
     && TruthfulRun(db', q, NextBase(base, out), config, trial, answers[1..]))
  }

  /** The answers of a gate and a git that go by the trial. */
  ghost function FairAnswer(ids: seq<EntryId>, trial: Trial): Answers {
    Answers(FirstIn(ids, trial.conflicting, 0), 0, forall e :: e in ids ==> e !in trial.faulty, false, false)
  }

  lemma FairIsTruthful(ids: seq<EntryId>, trial: Trial)
    ensures Truthful(ids, trial, FairAnswer(ids, trial))
  {
    var a := FairAnswer(ids, trial);
    if !HitsConflict(ids, a) {
      forall e | e in ids ensures e !in trial.conflicting {
        var i :| 0 <= i < |ids| && ids[i] == e;
      }
    }
  }

  /** From any tables there are truthful answers for as many ticks as one likes. */
  lemma {:induction false} TruthfulRunsExist(db: Db, q: Queue, base: Sha, config: Config, trial: Trial, n: nat)
    returns (answers: seq<Answers>)
    ensures |answers| == n && TruthfulRun(db, q, base, config, trial, answers)
    decreases n
  {
    if n == 0 {
      answers := [];
    } else {
      var a := FairAnswer(Picked(db, q, config), trial);
      var (db', out) := Advance(db, q, base, config, a);
      FairIsTruthful(Picked(db, q, config), trial);
      var rest := TruthfulRunsExist(db', q, NextBase(base, out), config, trial, n - 1);
      answers := [a] + rest;
      assert answers[1..] == rest;
    }
  }

  ghost predicate Just(row: EntryRow, innocent: bool, maxAttempts: nat) {
    if innocent then row.attempts == 0 && !row.state.Evicted?
    else
      && !row.state.Merged?
      && (if row.state.Evicted? then row.attempts == maxAttempts else row.attempts < maxAttempts)
  }

  /** How each of these entries has been treated so far. */
  ghost predicate AllJust(db: Db, q: Queue, who: set<EntryId>, trial: Trial, maxAttempts: nat) {
    forall e :: e in who ==>
      e < |db.entries| && db.entries[e].queue == q && Just(db.entries[e], trial.Innocent(e), maxAttempts)
  }

  lemma LandingIsJust(db: Db, q: Queue, c: CandidateId, who: set<EntryId>, trial: Trial, maxAttempts: nat)
    requires AllJust(db, q, who, trial, maxAttempts) && c < |db.candidates|
    requires forall e :: e in Ids(db.candidates[c]) ==> trial.Innocent(e)
    ensures AllJust(Tables.Landed(db, c), q, who, trial, maxAttempts)
  {
  }

  lemma AbandoningIsJust(db: Db, q: Queue, c: CandidateId, to: CandidateState, who: set<EntryId>, trial: Trial,
                         maxAttempts: nat)
    requires AllJust(db, q, who, trial, maxAttempts)
    ensures AllJust(Tables.Abandoned(db, c, to), q, who, trial, maxAttempts)
  {
  }

  lemma OpeningIsJust(db: Db, q: Queue, base: Sha, batch: seq<EntryId>, parent: Option<CandidateId>,
                      who: set<EntryId>, trial: Trial, maxAttempts: nat)
    requires AllJust(db, q, who, trial, maxAttempts) && forall e :: e in batch ==> Waits(db, q, e)
    ensures AllJust(Opened(db, q, base, batch, parent), q, who, trial, maxAttempts)
  {
  }

  lemma BlamingIsJust(db: Db, q: Queue, c: CandidateId, culprit: EntryId, fault: string,
                      who: set<EntryId>, trial: Trial, maxAttempts: nat)
    requires AllJust(db, q, who, trial, maxAttempts) && Holding(db, q, c) && culprit in Ids(db.candidates[c])
    requires !trial.Innocent(culprit)
    ensures AllJust(Tables.Blamed(db, c, culprit, maxAttempts, fault), q, who, trial, maxAttempts)
  {
    MemberIsLive(db, q, c, culprit, maxAttempts);
  }

  lemma GateFailureIsJust(db: Db, q: Queue, c: CandidateId, config: Config, who: set<EntryId>, trial: Trial)
    requires AllJust(db, q, who, trial, config.maxAttempts) && Holding(db, q, c) && db.candidates[c].state.Testing?
    requires exists e :: e in Ids(db.candidates[c]) && e in trial.faulty
    ensures AllJust(OnGateFailure(db, q, c, config).0, q, who, trial, config.maxAttempts)
  {
    var ids := Ids(db.candidates[c]);
    if |ids| == 1 {
      BlamingIsJust(db, q, c, ids[0], FAILED_ALONE, who, trial, config.maxAttempts);
    } else {
      LeftHolds(db, q, c);
      AbandoningIsJust(db, q, c, CandidateState.Failed, who, trial, config.maxAttempts);
      OpeningIsJust(Tables.Abandoned(db, c, CandidateState.Failed), q, db.candidates[c].base, ids[..|ids| / 2], Some(c),
                    who, trial, config.maxAttempts);
    }
  }

  lemma WorkIsJust(db: Db, q: Queue, c: CandidateId, base: Sha, config: Config, a: Answers, who: set<EntryId>,
                   trial: Trial)
    requires AllJust(db, q, who, trial, config.maxAttempts) && Holding(db, q, c) && db.candidates[c].base == base
    requires Truthful(Ids(db.candidates[c]), trial, a)
    ensures AllJust(Work(db, q, c, base, config, a).0, q, who, trial, config.maxAttempts)
  {
    var ids := Ids(db.candidates[c]);
    if HitsConflict(ids, a) {
      BlamingIsJust(db, q, c, ids[a.conflict.value], CONFLICTS, who, trial, config.maxAttempts);
    } else {
      var tested := UnderTest(db, c, a.tip);
      UnderTestHolds(db, q, c, a.tip);
      if a.passed {
        LandingIsJust(tested, q, c, who, trial, config.maxAttempts);
      } else {
        GateFailureIsJust(tested, q, c, config, who, trial);
      }
    }
  }

  lemma AdvanceIsJust(db: Db, q: Queue, base: Sha, config: Config, a: Answers, who: set<EntryId>, trial: Trial)
    requires AllJust(db, q, who, trial, config.maxAttempts) && TableInv(db) && OnBase(db, q, base)
    requires Truthful(Picked(db, q, config), trial, a)
    ensures AllJust(Advance(db, q, base, config, a).0, q, who, trial, config.maxAttempts)
  {
    var active := ActiveCandidate(db, q);
    if active.Some? {
      WorkIsJust(db, q, active.value, base, config, a, who, trial);
    } else {
      var batch := SelectBatch(db, q, config.maxBatch);
      if batch != [] {
        SelectedHolds(db, q, base, config.maxBatch);
        SelectedWaits(db, q, config.maxBatch);
        OpeningIsJust(db, q, base, batch, None, who, trial, config.maxAttempts);
        WorkIsJust(Opened(db, q, base, batch, None), q, |db.candidates|, base, config, a, who, trial);
      }
    }
  }

  lemma SelectedWaits(db: Db, q: Queue, limit: nat)
    ensures forall e :: e in SelectBatch(db, q, limit) ==> Waits(db, q, e)
  {
    forall e | e in SelectBatch(db, q, limit) ensures Waits(db, q, e) { assert e in Waiting(db, q); }
  }

  lemma {:induction false} TicksAreJust(db: Db, q: Queue, base: Sha, config: Config, answers: seq<Answers>,
                                        who: set<EntryId>, trial: Trial)
    requires AllJust(db, q, who, trial, config.maxAttempts) && TableInv(db) && OnBase(db, q, base)
    requires TruthfulRun(db, q, base, config, trial, answers)
    ensures var end := Ticked(db, q, base, config, answers);
            AllJust(end, q, who, trial, config.maxAttempts) && TableInv(end)
    decreases |answers|
  {
    if answers != [] {
      AdvanceIsJust(db, q, base, config, answers[0], who, trial);
      AdvanceKeeps(db, q, base, config, answers[0]);
      OnNextBase(db, q, base, config, answers[0]);
      var (db', out) := Advance(db, q, base, config, answers[0]);
      TicksAreJust(db', q, NextBase(base, out), config, answers[1..], who, trial);
    }
  }

  lemma {:induction false} TruthfulIsCalm(db: Db, q: Queue, base: Sha, config: Config, trial: Trial,
                                          answers: seq<Answers>)
    requires TruthfulRun(db, q, base, config, trial, answers)
    ensures forall i :: 0 <= i < |answers| ==> Calm(answers[i])
    decreases |answers|
  {
    if answers != [] {
      var (db', out) := Advance(db, q, base, config, answers[0]);
      TruthfulIsCalm(db', q, NextBase(base, out), config, trial, answers[1..]);
    }
  }

  /** What became of an entry: merged and never charged, or evicted for as many convictions as it was allowed. */
  ghost predicate GotItsDue(db: Db, e: EntryId, innocent: bool, maxAttempts: nat)
    requires e < |db.entries|
  {
    if innocent then db.entries[e].state.Merged? && db.entries[e].attempts == 0 && Convictions(db.candidates, e) == {}
    else db.entries[e].state.Evicted? && |Convictions(db.candidates, e)| == maxAttempts
  }

  /** Nothing is left, and everything that was live then has got its due. */
  ghost predicate DrainedFairly(was: Db, now: Db, q: Queue, trial: Trial, maxAttempts: nat) {
    && Drained(now, q)
    && forall e: EntryId :: Lives(was, q, e) ==> e < |now.entries| && GotItsDue(now, e, trial.Innocent(e), maxAttempts)
  }

  /** None of the live entries has ever been charged. */
  ghost predicate Unharmed(db: Db, q: Queue) {
    forall e: EntryId :: Lives(db, q, e) ==> db.entries[e].attempts == 0
  }

  lemma QueueDrainsFairly(db: Db, q: Queue, base: Sha, config: Config, trial: Trial, answers: seq<Answers>)
    requires TableInv(db) && NoneActive(db, q) && Unharmed(db, q)
    requires TruthfulRun(db, q, base, config, trial, answers) && |answers| >= EnoughTicks(db, q, config)
    ensures DrainedFairly(db, Ticked(db, q, base, config, answers), q, trial, config.maxAttempts)
  {
    var who := set e: EntryId | e < |db.entries| && Lives(db, q, e);
    TicksAreJust(db, q, base, config, answers, who, trial);
    TruthfulIsCalm(db, q, base, config, trial, answers);
    TickBound(db, q, base, config, answers);
    var end := Ticked(db, q, base, config, answers);
    forall e: EntryId | Lives(db, q, e)
      ensures e < |end.entries| && GotItsDue(end, e, trial.Innocent(e), config.maxAttempts)
    {
      assert e in who && !Lives(end, q, e);
      assert end.entries[e].attempts == |Convictions(end.candidates, e)|;
    }
  }
}
