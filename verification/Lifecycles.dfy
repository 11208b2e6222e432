/** What the tables look like at every moment of a disciplined run, and how rows get there. */
module Lifecycles {
  import opened Vocabulary
  import opened States
  import opened Tables
  import opened TableInvariant
  import opened Protocol
  import opened Discipline
  import BaseSafety

  // ----- snapshots

  /** A queue has at most one unfinished candidate, and the batched entries are exactly what it holds. */
  lemma OneCandidateInFlight(env: Env, w: World, events: seq<Event>, q: Queue)
    requires Initial(w) && DisciplinedRun(env, w, events)
    ensures var db := Run(env, w, events).db;
            var active := ActiveCandidate(db, q);
            && (forall c ::
                  0 <= c < |db.candidates| && db.candidates[c].queue == q && db.candidates[c].state.IsActive() ==>
                  active == Some(c))
            && (forall e :: 0 <= e < |db.entries| && db.entries[e].queue == q ==>
                  (db.entries[e].state.Batched? <==> active.Some? && e in Ids(db.candidates[active.value])))
  {
    RunFits(env, w, events);
    var db := Run(env, w, events).db;
    var active := ActiveCandidate(db, q);
    forall e | 0 <= e < |db.entries| && db.entries[e].queue == q
      ensures db.entries[e].state.Batched? <==> active.Some? && e in Ids(db.candidates[active.value])
    {
      if c :| 0 <= c < |db.candidates| && db.candidates[c].state.IsActive() && Holds(db.candidates[c], e) {
        assert Sound(db.entries, db.candidates[c]);
      }
      if active.Some? && e in Ids(db.candidates[active.value]) {
        assert Holds(db.candidates[active.value], e);
      }
    }
  }

  /** No two live entries of a queue name the same branch at the same commit. */
  lemma LiveIdentitiesUnique(env: Env, w: World, events: seq<Event>, a: EntryId, b: EntryId)
    requires Initial(w) && DisciplinedRun(env, w, events)
    requires var es := Run(env, w, events).db.entries;
             && a < |es| && b < |es| && es[a].state.IsLive() && es[b].state.IsLive()
             && es[a].queue == es[b].queue && es[a].branch == es[b].branch && es[a].sha == es[b].sha
    ensures a == b
  {
    RunFits(env, w, events);
  }

  /** An entry has failed as often as candidates found it to be the culprit, and a verdict is all or one. */
  lemma BlameAccounting(env: Env, w: World, events: seq<Event>)
    requires Initial(w) && DisciplinedRun(env, w, events)
    ensures var db := Run(env, w, events).db;
            && (forall e :: 0 <= e < |db.entries| ==> db.entries[e].attempts == |Convictions(db.candidates, e)|)
            && (forall c :: 0 <= c < |db.candidates| ==>
                  var row := db.candidates[c];
                  && (row.state.Passed? ==> forall i :: 0 <= i < |row.members| ==> row.members[i].outcome == Cleared)
                  && (row.state.Failed? ==> AllPending(row) || OneCulprit(row))
                  && (row.state.IsActive() || row.state.Superseded? ==> AllPending(row)))
  {
    RunFits(env, w, events);
  }

  /** The candidates in which an entry's outcome cost it an attempt. */
  ghost function Burnt(cs: seq<CandidateRow>, e: EntryId): set<CandidateId> {
    set c: nat | c < |cs| && exists i ::
      0 <= i < |cs[c].members| && cs[c].members[i].entry == e && cs[c].members[i].outcome.BurnsAttempt()
  }

  /** Nothing spends an entry's attempts but being the culprit. */
  lemma OnlyCulpritsPay(env: Env, w: World, events: seq<Event>, e: EntryId)
    requires Initial(w) && DisciplinedRun(env, w, events) && e < |Run(env, w, events).db.entries|
    ensures var db := Run(env, w, events).db; db.entries[e].attempts == |Burnt(db.candidates, e)|
  {
    RunFits(env, w, events);
    var cs := Run(env, w, events).db.candidates;
    forall c | 0 <= c < |cs| ensures c in Burnt(cs, e) <==> c in Convictions(cs, e) {
      if i :| 0 <= i < |cs[c].members| && cs[c].members[i].entry == e && cs[c].members[i].outcome.BurnsAttempt() {
        assert cs[c].members[i] == Member(e, Culprit);
      }
    }
    assert Burnt(cs, e) == Convictions(cs, e);
  }

  /** Whatever is in flight is one entry, or entries that never failed. */
  lemma RetriesGoAlone(env: Env, w: World, events: seq<Event>, c: CandidateId)
    requires Initial(w) && DisciplinedRun(env, w, events)
    requires var db := Run(env, w, events).db; c < |db.candidates| && db.candidates[c].state.IsActive()
    ensures var db := Run(env, w, events).db;
            var ids := Ids(db.candidates[c]);
            |ids| == 1 || forall e :: e in ids ==> e < |db.entries| && db.entries[e].attempts == 0
  {
    RunFits(env, w, events);
  }

  /**
   No event of a disciplined run takes an entry outside its documented lifecycle
   or rewrites a finished candidate.
   */
  lemma LifecyclesHold(env: Env, w: World, events: seq<Event>, e: Event)
    requires Initial(w) && DisciplinedRun(env, w, events + [e])
    ensures RowsEvolve(Run(env, w, events).db, Run(env, w, events + [e]).db)
  {
    assert (events + [e])[..|events|] == events;
    RunSnoc(env, w, events, e);
    RunFits(env, w, events);
    StepFits(env, Run(env, w, events), e);
  }

  /** An outcome is written once: no event takes one anywhere but from pending to a verdict. */
  lemma OutcomesHold(env: Env, w: World, events: seq<Event>, e: Event, c: CandidateId, i: nat)
    requires Initial(w) && DisciplinedRun(env, w, events + [e])
    requires var was, now := Run(env, w, events).db.candidates, Run(env, w, events + [e]).db.candidates;
             c < |was| && c < |now| && i < |was[c].members| && i < |now[c].members|
    ensures var was, now := Run(env, w, events).db.candidates[c].members[i].outcome,
            Run(env, w, events + [e]).db.candidates[c].members[i].outcome;
            now == was || was.CanTransitionTo(now)
  {
    LifecyclesHold(env, w, events, e);
    assert (events + [e])[..|events|] == events;
    RunFits(env, w, events);
  }

  // ----- the ways off the documented lifecycle

  /** The state this worker's transaction sets on a candidate, whatever state the row had. */
  ghost function StateSet(w: World, p: Pid, act: Action, c: CandidateId): Option<CandidateState>
    requires c < |w.db.candidates|
  {
    if act.Acquire? then
      if Takes(w, p, act.gone, act.token) && w.procs[p].queue in w.leases
         && w.db.candidates[c].queue == w.procs[p].queue && w.db.candidates[c].state.IsActive()
      then Some(Superseded) else None
    else if !Ticks(w, p) then None
    else
      var phase := w.procs[p].phase;
      match act
      case MarkTesting =>
        if phase.Assembling? && |phase.tips| == |phase.job.picks| + 1 && phase.job.candidate == c
        then Some(Testing)
        else None
      case StoreLand => if phase.Moved? && phase.job.candidate == c then Some(Passed) else None
      case StoreAbandon =>
        if phase.Discarding? && phase.job.candidate == c
            then Some(if phase.split then CandidateState.Failed else Superseded) else None
      case StoreBlame =>
        if phase.Blaming? && phase.job.candidate == c && phase.culprit < |w.db.entries|
        then Some(CandidateState.Failed)
        else None
      case _ => None
  }

  /** The state an event sets on a candidate that exists, if it sets any. */
  ghost function StateWritten(w: World, e: Event, c: CandidateId): Option<CandidateState>
    requires c < |w.db.candidates|
  {
    match e
    case Around(_) => None
    case By(p, act) => StateSet(w, p, act, c)
  }

  predicate SetTo(row: CandidateRow, row': CandidateRow, written: Option<CandidateState>) {
    if written.Some? then row'.state == written.value else row' == row
  }

  /** What is said to be written is what the row then says, and nothing else touches the row. */
  ghost predicate RowSet(db: Db, db': Db, c: CandidateId, written: Option<CandidateState>)
    requires c < |db.candidates|
  {
    c < |db'.candidates| && SetTo(db.candidates[c], db'.candidates[c], written)
  }

  lemma AcquireSets(env: Env, w: World, p: Pid, gone: bool, token: Token, c: CandidateId)
    requires c < |w.db.candidates|
    ensures RowSet(w.db, StepAcquire(env, w, p, gone, token).db, c, StateSet(w, p, Acquire(gone, token), c))
  {
  }

  lemma OpenSets(w: World, p: Pid, c: CandidateId)
    requires c < |w.db.candidates|
    ensures RowSet(w.db, StepOpen(w, p).db, c, None)
  {
  }

  lemma MarkSets(w: World, p: Pid, c: CandidateId)
    requires c < |w.db.candidates|
    ensures RowSet(w.db, StepMarkTesting(w, p).db, c, StateSet(w, p, MarkTesting, c))
  {
  }

  lemma LandSets(w: World, p: Pid, c: CandidateId)
    requires c < |w.db.candidates|
    ensures RowSet(w.db, StepStoreLand(w, p).db, c, StateSet(w, p, StoreLand, c))
  {
  }

  lemma AbandonSets(w: World, p: Pid, c: CandidateId)
    requires c < |w.db.candidates|
    ensures RowSet(w.db, StepStoreAbandon(w, p).db, c, StateSet(w, p, StoreAbandon, c))
  {
  }

  lemma BlamedRow(db: Db, blamed: CandidateId, culprit: EntryId, maxAttempts: nat, reason: string, c: CandidateId)
    requires c < |db.candidates|
    ensures RowSet(db, Blamed(db, blamed, culprit, maxAttempts, reason), c,
                   if culprit < |db.entries| && blamed == c then Some(CandidateState.Failed) else None)
  {
  }

  lemma BlamingSets(w: World, p: Pid, job: Job, culprit: EntryId, fault: string, c: CandidateId)
    requires c < |w.db.candidates| && Ticks(w, p) && w.procs[p].phase == Blaming(job, culprit, fault)
    ensures StateSet(w, p, StoreBlame, c)
         == if culprit < |w.db.entries| && job.candidate == c then Some(CandidateState.Failed) else None
    ensures StepStoreBlame(w, p).db == Blamed(w.db, job.candidate, culprit, job.config.maxAttempts, fault)
  {
  }

  lemma BlameSets(w: World, p: Pid, c: CandidateId)
    requires c < |w.db.candidates|
    ensures RowSet(w.db, StepStoreBlame(w, p).db, c, StateSet(w, p, StoreBlame, c))
  {
    if Ticks(w, p) && w.procs[p].phase.Blaming? {
      var job, culprit, fault := w.procs[p].phase.job, w.procs[p].phase.culprit, w.procs[p].phase.fault;
      BlamingSets(w, p, job, culprit, fault, c);
      BlamedRow(w.db, job.candidate, culprit, job.config.maxAttempts, fault, c);
    }
  }

  lemma HandsSetNone(w: World, what: Happening, c: CandidateId)
    requires c < |w.db.candidates|
    ensures RowSet(w.db, StepAround(w, what).db, c, None)
  {
  }

  lemma ActSets(env: Env, w: World, p: Pid, act: Action, c: CandidateId)
    requires c < |w.db.candidates|
    ensures RowSet(w.db, StepBy(env, w, p, act).db, c, StateSet(w, p, act, c))
  {
    match act {
      case Acquire(gone, token) => AcquireSets(env, w, p, gone, token, c);
      case Open => OpenSets(w, p, c);
      case MarkTesting => MarkSets(w, p, c);
      case StoreLand => LandSets(w, p, c);
      case StoreAbandon => AbandonSets(w, p, c);
      case StoreBlame => BlameSets(w, p, c);
      case _ => ReadsOnly(env, w, p, act);
    }
  }

  lemma WrittenIsSet(env: Env, w: World, e: Event, c: CandidateId)
    requires c < |w.db.candidates|
    ensures RowSet(w.db, Step(env, w, e).db, c, StateWritten(w, e, c))
  {
    match e {
      case Around(what) => HandsSetNone(w, what, c);
      case By(p, act) => ActSets(env, w, p, act, c);
    }
  }

  /** An event sets a state the documented lifecycle does not lead to. */
  ghost predicate LeavesTable(w: World, e: Event, c: CandidateId)
    requires c < |w.db.candidates|
  {
    var written := StateWritten(w, e, c);
    written.Some? && !w.db.candidates[c].state.CanTransitionTo(written.value)
  }

  /** A conflict is blamed on an entry while the candidate is still being built. */
  ghost predicate BlamedWhileBuilding(w: World, e: Event, c: CandidateId)
    requires c < |w.db.candidates|
  {
    && e.By? && e.act.StoreBlame? && Ticks(w, e.pid) && w.procs[e.pid].phase.Blaming?
    && w.procs[e.pid].phase.job.candidate == c && w.db.candidates[c].state.Building?
    && w.procs[e.pid].phase.fault == CONFLICTS
  }

  /** A candidate already under test, resumed and assembled again, is put under test. */
  ghost predicate TestedAgain(w: World, e: Event, c: CandidateId)
    requires c < |w.db.candidates|
  {
    && e.By? && e.act.MarkTesting? && Ticks(w, e.pid) && w.procs[e.pid].phase.Assembling?
    && |w.procs[e.pid].phase.tips| == |w.procs[e.pid].phase.job.picks| + 1
    && w.procs[e.pid].phase.job.candidate == c && w.db.candidates[c].state.Testing?
  }

  lemma MarkOffTable(w: World, p: Pid, c: CandidateId)
    requires Sane(w) && c < |w.db.candidates|
    ensures LeavesTable(w, By(p, MarkTesting), c) <==> TestedAgain(w, By(p, MarkTesting), c)
  {
  }

  lemma BlameOffTable(w: World, p: Pid, c: CandidateId)
    requires Sane(w) && c < |w.db.candidates|
    ensures LeavesTable(w, By(p, StoreBlame), c) <==> BlamedWhileBuilding(w, By(p, StoreBlame), c)
  {
    if Ticks(w, p) && w.procs[p].phase.Blaming? {
      var q, phase := w.procs[p].queue, w.procs[p].phase;
      assert Working(w.db, q, phase.job) && Sound(w.db.entries, w.db.candidates[phase.job.candidate]);
      assert phase.culprit in Ids(w.db.candidates[phase.job.candidate]);
    }
  }

  lemma CloseOnTable(w: World, p: Pid, c: CandidateId)
    requires Sane(w) && c < |w.db.candidates|
    ensures !LeavesTable(w, By(p, StoreLand), c) && !LeavesTable(w, By(p, StoreAbandon), c)
  {
  }

  lemma StepOffTable(w: World, e: Event, c: CandidateId)
    requires Sane(w) && c < |w.db.candidates|
    ensures LeavesTable(w, e, c) <==> BlamedWhileBuilding(w, e, c) || TestedAgain(w, e, c)
  {
    if e.By? {
      match e.act {
        case MarkTesting => MarkOffTable(w, e.pid, c);
        case StoreBlame => BlameOffTable(w, e.pid, c);
        case StoreLand => CloseOnTable(w, e.pid, c);
        case StoreAbandon => CloseOnTable(w, e.pid, c);
        case _ =>
      }
    }
  }

  /** The row's state becomes another one that the documented lifecycle does not lead to. */
  ghost predicate ChangesOffTable(db: Db, db': Db, c: CandidateId)
    requires c < |db.candidates|
  {
    && c < |db'.candidates| && db'.candidates[c].state != db.candidates[c].state
    && !db.candidates[c].state.CanTransitionTo(db'.candidates[c].state)
  }

  /** Of what leaves the table, being tested again alone leaves the state as it was. */
  lemma ChangingIsLeaving(w: World, db': Db, e: Event, c: CandidateId)
    requires c < |w.db.candidates| && RowSet(w.db, db', c, StateWritten(w, e, c))
    requires LeavesTable(w, e, c) <==> BlamedWhileBuilding(w, e, c) || TestedAgain(w, e, c)
    ensures ChangesOffTable(w.db, db', c) <==> BlamedWhileBuilding(w, e, c)
  {
    if BlamedWhileBuilding(w, e, c) { assert !TestedAgain(w, e, c); }
  }

  /**
   A candidate's state is set to one its documented lifecycle does not lead to
   in two situations only: a conflict is blamed on an entry while the candidate
   is still being built, or a candidate already under test is assembled again
   and put under test. Only the first changes the state.
   */
  lemma OffTheTable(env: Env, w: World, events: seq<Event>, e: Event, c: CandidateId)
    requires Initial(w) && DisciplinedRun(env, w, events)
    requires c < |Run(env, w, events).db.candidates|
    ensures var now, next := Run(env, w, events), Run(env, w, events + [e]);
            && RowSet(now.db, next.db, c, StateWritten(now, e, c))
            && (LeavesTable(now, e, c) <==> BlamedWhileBuilding(now, e, c) || TestedAgain(now, e, c))
            && (ChangesOffTable(now.db, next.db, c) <==> BlamedWhileBuilding(now, e, c))
  {
    var now := Run(env, w, events);
    RunFits(env, w, events);
    RunSnoc(env, w, events, e);
    WrittenIsSet(env, now, e, c);
    StepOffTable(now, e, c);
    ChangingIsLeaving(now, Step(env, now, e).db, e, c);
  }

  // ----- and without discipline

  /** An event sets the state of a candidate that has finished. */
  ghost predicate RewritesFinished(w: World, e: Event, c: CandidateId)
    requires c < |w.db.candidates|
  {
    StateWritten(w, e, c).Some? && w.db.candidates[c].state.IsTerminal()
  }

  /** The job in this phase has had its candidate put under test. */
  predicate PastBuilding(phase: Phase) {
    || phase.Gating? || phase.Judged? || phase.Moved?
    || (phase.Discarding? && phase.split) || (phase.Blaming? && phase.fault != CONFLICTS)
  }

  /** A candidate some worker has put under test is not being built, whatever has become of it since. */
  ghost predicate Advanced(w: World) {
    forall p :: Ticks(w, p) && PastBuilding(w.procs[p].phase) ==> NotBuilding(w.db, w.procs[p].phase.job.candidate)
  }

  predicate NotBuilding(db: Db, c: CandidateId) {
    c < |db.candidates| && !db.candidates[c].state.Building?
  }

  /** Nothing is set back to building. */
  lemma StaysNotBuilding(env: Env, w: World, e: Event, c: CandidateId)
    requires NotBuilding(w.db, c)
    ensures NotBuilding(Step(env, w, e).db, c)
  {
    WrittenIsSet(env, w, e, c);
  }

  lemma MarkAdvances(env: Env, w: World, p: Pid)
    requires BaseSafety.ProcSafe(env, w, p) && Ticks(w, p)
    requires PastBuilding(w.procs[p].phase) ==> NotBuilding(w.db, w.procs[p].phase.job.candidate)
    ensures var w' := StepMarkTesting(w, p);
            && Ticks(w', p)
            && (PastBuilding(w'.procs[p].phase) ==> NotBuilding(w'.db, w'.procs[p].phase.job.candidate))
  {
  }

  /** Nothing else takes a worker past building that was not there with this candidate already. */
  ghost predicate GoesOnWith(w: World, w': World, p: Pid) {
    Ticks(w', p) && PastBuilding(w'.procs[p].phase) ==>
      && Ticks(w, p) && PastBuilding(w.procs[p].phase)
      && w'.procs[p].phase.job.candidate == w.procs[p].phase.job.candidate
  }

  lemma DecidedOnSame(job: Job, interrupted: bool)
    ensures PastBuilding(Decided(job, interrupted)) ==> Decided(job, interrupted).job == job
  {
  }

  lemma JudgingGoesOn(w: World, p: Pid, flag: bool)
    ensures GoesOnWith(w, StepGate(w, p, flag), p)
    ensures GoesOnWith(w, StepDecide(w, p, flag), p)
  {
    if Ticks(w, p) && w.procs[p].phase.Judged? { DecidedOnSame(w.procs[p].phase.job, flag); }
  }

  lemma LandingGoesOn(w: World, p: Pid)
    ensures GoesOnWith(w, StepFastForward(w, p), p)
    ensures GoesOnWith(w, StepStoreLand(w, p), p)
  {
  }

  lemma ClosingGoesOn(w: World, p: Pid)
    ensures GoesOnWith(w, StepStoreAbandon(w, p), p)
    ensures GoesOnWith(w, StepStoreBlame(w, p), p)
    ensures GoesOnWith(w, StepAnnounce(w, p), p)
  {
  }

  lemma StartingGoesOn(env: Env, w: World, p: Pid)
    ensures GoesOnWith(w, StepReadBase(env, w, p), p)
    ensures GoesOnWith(w, StepCheckout(w, p), p)
  {
  }

  lemma ChosenIsEarly(db: Db, q: Queue, base: Sha, config: Config)
    ensures !PastBuilding(Chosen(db, q, base, config))
  {
  }

  lemma ChoosingGoesOn(w: World, p: Pid)
    ensures GoesOnWith(w, StepChoose(w, p), p)
    ensures GoesOnWith(w, StepOpen(w, p), p)
  {
    if Ticks(w, p) && w.procs[p].phase.Based? {
      ChosenIsEarly(w.db, w.procs[p].queue, w.procs[p].phase.base, w.procs[p].phase.config);
    }
  }

  lemma MergingGoesOn(w: World, p: Pid, result: Option<Sha>)
    ensures GoesOnWith(w, StepMerge(w, p, result), p)
  {
  }

  lemma ActGoesOn(env: Env, w: World, p: Pid, act: Action)
    requires !act.MarkTesting?
    ensures GoesOnWith(w, StepBy(env, w, p, act), p)
  {
    if Edges(act) { EdgeIsAtEdge(env, w, p, act); }
    else if act.ReadBase? || act.Checkout? { StartingGoesOn(env, w, p); }
    else if act.Choose? || act.Open? { ChoosingGoesOn(w, p); }
    else if act.Merge? { MergingGoesOn(w, p, act.result); }
    else if act.Gate? { JudgingGoesOn(w, p, act.passed); }
    else if act.Decide? { JudgingGoesOn(w, p, act.interrupted); }
    else if Lands(act) { LandingGoesOn(w, p); }
    else { ClosingGoesOn(w, p); }
  }

  lemma OwnStaysAdvanced(env: Env, w: World, p: Pid, act: Action)
    requires Advanced(w) && BaseSafety.SafeWorld(env, w)
    ensures var w' := StepBy(env, w, p, act);
            Ticks(w', p) && PastBuilding(w'.procs[p].phase) ==> NotBuilding(w'.db, w'.procs[p].phase.job.candidate)
  {
    if act.MarkTesting? {
      if Ticks(w, p) {
        assert BaseSafety.ProcSafe(env, w, p);
        MarkAdvances(env, w, p);
      }
    } else {
      var w' := StepBy(env, w, p, act);
      ActGoesOn(env, w, p, act);
      if Ticks(w', p) && PastBuilding(w'.procs[p].phase) {
        StaysNotBuilding(env, w, By(p, act), w.procs[p].phase.job.candidate);
      }
    }
  }

  /** Every other worker is where it was. */
  lemma OthersStay(env: Env, w: World, e: Event, o: Pid)
    requires Ticks(Step(env, w, e), o) && (e.By? ==> o != e.pid)
    ensures Ticks(w, o) && Step(env, w, e).procs[o] == w.procs[o]
  {
    if e.By? {
      if Edges(e.act) { EdgeIsAtEdge(env, w, e.pid, e.act); } else { WorkIsWithinTick(env, w, e.pid, e.act); }
    }
  }

  lemma StepAdvances(env: Env, w: World, e: Event)
    requires Advanced(w) && BaseSafety.SafeWorld(env, w)
    ensures Advanced(Step(env, w, e))
  {
    var w' := Step(env, w, e);
    forall o | Ticks(w', o) && PastBuilding(w'.procs[o].phase)
      ensures NotBuilding(w'.db, w'.procs[o].phase.job.candidate)
    {
      if e.By? && o == e.pid {
        OwnStaysAdvanced(env, w, o, e.act);
      } else {
        OthersStay(env, w, e, o);
        StaysNotBuilding(env, w, e, w.procs[o].phase.job.candidate);
      }
    }
  }

  lemma {:induction false} RunAdvances(env: Env, w: World, events: seq<Event>)
    requires Initial(w)
    ensures Advanced(Run(env, w, events))
  {
    if events != [] {
      var n := |events| - 1;
      RunAdvances(env, w, events[..n]);
      BaseSafety.RunSafe(env, w, events[..n]);
      StepAdvances(env, Run(env, w, events[..n]), events[n]);
    }
  }

  /** The only ways an event can set a state its candidate's lifecycle does not lead to. */
  ghost predicate OneOfThree(w: World, e: Event, c: CandidateId)
    requires c < |w.db.candidates|
  {
    || (BlamedWhileBuilding(w, e, c) && StateWritten(w, e, c).Some?)
    || TestedAgain(w, e, c)
    || RewritesFinished(w, e, c)
  }

  lemma BlameIsOneOfThree(w: World, p: Pid, c: CandidateId)
    requires Advanced(w) && c < |w.db.candidates|
    ensures LeavesTable(w, By(p, StoreBlame), c) <==> OneOfThree(w, By(p, StoreBlame), c)
  {
  }

  lemma StoreIsOneOfThree(w: World, p: Pid, act: Action, c: CandidateId)
    requires Advanced(w) && c < |w.db.candidates| && (act.StoreLand? || act.StoreAbandon?)
    ensures LeavesTable(w, By(p, act), c) <==> OneOfThree(w, By(p, act), c)
  {
  }

  lemma OtherIsOneOfThree(w: World, e: Event, c: CandidateId)
    requires c < |w.db.candidates| && !(e.By? && (e.act.StoreLand? || e.act.StoreAbandon? || e.act.StoreBlame?))
    ensures LeavesTable(w, e, c) <==> OneOfThree(w, e, c)
  {
  }

  /**
   In every run whatever, an event sets a candidate to a state its documented
   lifecycle does not lead to in three situations only: a conflict is blamed
   while the candidate is still being built, a candidate already under test is
   put under test, or a candidate that has finished is written once more, which
   no disciplined run comes to.
   */
  lemma EveryWayOffTheTable(env: Env, w: World, events: seq<Event>, e: Event, c: CandidateId)
    requires Initial(w) && c < |Run(env, w, events).db.candidates|
    ensures var now := Run(env, w, events);
            && RowSet(now.db, Run(env, w, events + [e]).db, c, StateWritten(now, e, c))
            && (LeavesTable(now, e, c) <==> OneOfThree(now, e, c))
  {
    var now := Run(env, w, events);
    RunAdvances(env, w, events);
    RunSnoc(env, w, events, e);
    WrittenIsSet(env, now, e, c);
    if e.By? && e.act.StoreBlame? { BlameIsOneOfThree(now, e.pid, c); }
    else if e.By? && (e.act.StoreLand? || e.act.StoreAbandon?) { StoreIsOneOfThree(now, e.pid, e.act, c); }
    else { OtherIsOneOfThree(now, e, c); }
  }
}
