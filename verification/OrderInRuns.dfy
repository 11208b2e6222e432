/** No overtaking, over whole disciplined runs with no promotion past a candidate in flight. */
module OrderInRuns {
  import opened Vocabulary
  import opened States
  import opened Tables
  import opened Ranking
  import opened TableInvariant
  import opened Overtaking
  import opened Protocol
  import LeaseExclusion
  import opened Discipline

  ghost predicate BatchInFront(db: Db, q: Queue, phase: Phase) {
    phase.Opening? ==> PickIds(phase.batch) <= Line(db, q)
  }

  ghost predicate Orderly(w: World) {
    && InOrder(w.db)
    && forall p :: Ticks(w, p) ==> BatchInFront(w.db, w.procs[p].queue, w.procs[p].phase)
  }

  /** No promotion takes an entry past one in flight. */
  ghost predicate Patient(w: World, e: Event) {
    e.Around? && e.what.Promote? && Waits(w.db, e.what.queue, e.what.entry) ==>
      forall c: CandidateId :: ActiveIs(w.db, e.what.queue, c) ==> StaysBehind(w.db, e.what.queue, e.what.entry, c)
  }

  ghost predicate PatientRun(env: Env, w: World, events: seq<Event>) {
    events == [] ||
    (var n := |events| - 1;
     PatientRun(env, w, events[..n]) && Patient(Run(env, w, events[..n]), events[n]))
  }

  /** Nothing waits behind a line that did not change. */
  lemma SameDbOrderly(w: World, w': World, p: Pid)
    requires Orderly(w) && w'.db == w.db
    requires forall o :: Ticks(w', o) && o != p ==> Ticks(w, o) && w'.procs[o] == w.procs[o]
    requires Ticks(w', p) ==> BatchInFront(w.db, w'.procs[p].queue, w'.procs[p].phase)
    ensures Orderly(w')
  {
  }

  /** A worker changed its own queue, every candidate stayed in front, and so did what it will open. */
  lemma OneActedOrderly(w: World, w': World, p: Pid, q: Queue)
    requires Orderly(w) && Alone(w') && InOrder(w'.db)
    requires TouchesOnly(w.db, w'.db, q) && Written(w.db, w'.db)
    requires forall o :: o in w'.procs && o != p ==> o in w.procs && w'.procs[o] == w.procs[o]
    requires Ticks(w', p) && w'.procs[p].queue == q && BatchInFront(w'.db, q, w'.procs[p].phase)
    ensures Orderly(w')
  {
    forall o | Ticks(w', o) ensures BatchInFront(w'.db, w'.procs[o].queue, w'.procs[o].phase) {
      if o != p {
        OtherLinesStay(w.db, w'.db, q, w'.procs[o].queue);
      }
    }
  }

  lemma ChooseOrderly(w: World, p: Pid)
    requires Sane(w) && Orderly(w)
    ensures Orderly(StepChoose(w, p))
  {
    if Ticks(w, p) && w.procs[p].phase.Based? {
      var w', q, phase := StepChoose(w, p), w.procs[p].queue, w.procs[p].phase;
      if w'.procs[p].phase.Opening? {
        NothingBatched(w.db, q);
        WaitingIsLine(w.db, q);
        var batch := SelectBatch(w.db, q, phase.config.maxBatch);
        assert PickIds(Picks(w.db.entries, batch)) == batch;
      }
      SameDbOrderly(w, w', p);
    }
  }

  lemma NothingBatched(db: Db, q: Queue)
    requires TableInv(db) && NoneActive(db, q)
    ensures forall e :: 0 <= e < |db.entries| && db.entries[e].queue == q ==> !db.entries[e].state.Batched?
  {
    forall e | 0 <= e < |db.entries| && InFlight(db.candidates, e) ensures db.entries[e].queue != q {
      var c :| 0 <= c < |db.candidates| && db.candidates[c].state.IsActive() && Holds(db.candidates[c], e);
      assert Sound(db.entries, db.candidates[c]);
    }
  }

  lemma OpenedOrderly(w: World, w': World, p: Pid, q: Queue, phase: Phase)
    requires Sane(w) && Orderly(w) && Alone(w')
    requires Ticks(w, p) && phase.Opening? && w.procs[p].queue == q && w.procs[p].phase == phase
    requires w'.db == Opened(w.db, q, phase.base, PickIds(phase.batch), phase.parent)
    requires Ticks(w', p) && !w'.procs[p].phase.Opening? && w'.procs == Goto(w, p, w'.procs[p].phase).procs
    ensures Orderly(w')
  {
    OpenedFits(w.db, q, phase.base, phase.config, phase.batch, phase.parent);
    OpenKeepsOrder(w.db, q, phase.base, PickIds(phase.batch), phase.parent);
    OneActedOrderly(w, w', p, q);
  }

  lemma OpenOrderly(w: World, p: Pid)
    requires Sane(w) && Orderly(w) && Alone(StepOpen(w, p))
    ensures Orderly(StepOpen(w, p))
  {
    if Ticks(w, p) && w.procs[p].phase.Opening? {
      var phase := w.procs[p].phase;
      if MayOpen(w.db, PickIds(phase.batch), phase.parent) {
        OpenedOrderly(w, StepOpen(w, p), p, w.procs[p].queue, phase);
      } else {
        SameDbOrderly(w, StepOpen(w, p), p);
      }
    }
  }

  lemma MarkTestingOrderly(w: World, p: Pid)
    requires Sane(w) && Orderly(w) && Alone(StepMarkTesting(w, p))
    ensures Orderly(StepMarkTesting(w, p))
  {
    var w' := StepMarkTesting(w, p);
    if w' != w {
      var q, phase := w.procs[p].queue, w.procs[p].phase;
      UnderTestKeeps(w.db, q, phase.job.candidate, phase.tips[|phase.tips| - 1]);
      UnderTestKeepsOrder(w.db, phase.job.candidate, phase.tips[|phase.tips| - 1]);
      OneActedOrderly(w, w', p, q);
    }
  }

  lemma StoreLandOrderly(w: World, p: Pid)
    requires Sane(w) && Orderly(w) && Alone(StepStoreLand(w, p))
    ensures Orderly(StepStoreLand(w, p))
  {
    var w' := StepStoreLand(w, p);
    if w' != w {
      LandKeeps(w.db, w.procs[p].queue, w.procs[p].phase.job.candidate);
      CloseKeepsOrder(w.db, w'.db, w.procs[p].queue);
      OneActedOrderly(w, w', p, w.procs[p].queue);
    }
  }

  lemma StoreBlameOrderly(w: World, p: Pid)
    requires Sane(w) && Orderly(w) && Alone(StepStoreBlame(w, p))
    ensures Orderly(StepStoreBlame(w, p))
  {
    var w' := StepStoreBlame(w, p);
    if w' != w {
      var q, phase := w.procs[p].queue, w.procs[p].phase;
      BlameKeeps(w.db, q, phase.job.candidate, phase.culprit, phase.job.config.maxAttempts, phase.fault);
      CloseKeepsOrder(w.db, w'.db, q);
      OneActedOrderly(w, w', p, q);
    }
  }

  /** The left half of what was in front is in front. */
  lemma LeftHalfInFront(db: Db, q: Queue, c: CandidateId, picks: seq<Pick>)
    requires TableInv(db) && InOrder(db) && ActiveIs(db, q, c)
    requires Ids(db.candidates[c]) == PickIds(picks) && |picks| >= 2
    ensures PickIds(LeftHalf(picks)) <= Line(Abandoned(db, c, Failed), q)
  {
    AbandonKeepsLine(db, q, c, Failed);
    assert Sound(db.entries, db.candidates[c]);
    LeftHalfIs(picks);
  }

  lemma AbandonedInOrder(db: Db, q: Queue, job: Job, split: bool)
    requires TableInv(db) && InOrder(db) && PhaseFits(db, q, Discarding(job, split))
    ensures var db' := Abandoned(db, job.candidate, if split then Failed else Superseded);
            && KeptBy(db, db', q) && InOrder(db')
            && (split ==> PickIds(LeftHalf(job.picks)) <= Line(db', q))
  {
    var to := if split then Failed else Superseded;
    AbandonKeeps(db, q, job.candidate, to);
    CloseKeepsOrder(db, Abandoned(db, job.candidate, to), q);
    if split { LeftHalfInFront(db, q, job.candidate, job.picks); }
  }

  lemma StoreAbandonOrderly(w: World, p: Pid)
    requires Sane(w) && Orderly(w) && Alone(StepStoreAbandon(w, p))
    ensures Orderly(StepStoreAbandon(w, p))
  {
    if Ticks(w, p) && w.procs[p].phase.Discarding? {
      var q, phase := w.procs[p].queue, w.procs[p].phase;
      AbandonedInOrder(w.db, q, phase.job, phase.split);
      OneActedOrderly(w, StepStoreAbandon(w, p), p, q);
    }
  }

  lemma ReclaimOrderly(w: World, w': World, p: Pid, q: Queue)
    requires Sane(w) && Orderly(w) && Alone(w') && w'.db == Reclaimed(w.db, q)
    requires Ticks(w', p) && w'.procs[p].queue == q && w'.procs[p].phase == Ready && p in w.procs
             && w'.procs == w.procs[p := w'.procs[p]]
    ensures Orderly(w')
  {
    ReclaimKeeps(w.db, q);
    CloseKeepsOrder(w.db, w'.db, q);
    OneActedOrderly(w, w', p, q);
  }

  lemma AcquireOrderly(env: Env, w: World, p: Pid, gone: bool, token: Token)
    requires Sane(w) && Orderly(w) && Alone(StepAcquire(env, w, p, gone, token))
    ensures Orderly(StepAcquire(env, w, p, gone, token))
  {
    if p in w.procs && w.procs[p].Asking? {
      var w', q := StepAcquire(env, w, p, gone, token), w.procs[p].queue;
      AcquireOrRest(env, w, p, gone, token);
      if w'.db == w.db { SameDbOrderly(w, w', p); } else { ReclaimOrderly(w, w', p, q); }
    }
  }

  lemma AmendOrderly(w: World, q: Queue, db': Db)
    requires Sane(w) && Orderly(w) && KeptBy(w.db, db', q) && InOrder(db') && !OpeningOn(w, q)
    ensures Orderly(w.(db := db'))
  {
    forall p | Ticks(w, p) ensures BatchInFront(db', w.procs[p].queue, w.procs[p].phase) {
      if w.procs[p].phase.Opening? {
        OtherLinesStay(w.db, db', q, w.procs[p].queue);
      }
    }
  }

  lemma AroundOrderly(w: World, what: Happening)
    requires Sane(w) && Orderly(w) && Patient(w, Around(what))
    requires forall q :: ByHandOn(what, q) ==> !OpeningOn(w, q)
    ensures Orderly(StepAround(w, what))
  {
    match what {
      case Enqueue(q, branch, sha) =>
        EnqueueKeepsOrder(w.db, q, branch, sha);
      case Dequeue(q, e) =>
        assert ByHandOn(what, q);
        DequeueKeeps(w.db, q, e);
        DequeueKeepsOrder(w.db, q, e);
        AmendOrderly(w, q, Dequeued(w.db, q, e));
      case Promote(q, e) =>
        assert ByHandOn(what, q);
        PromoteKeeps(w.db, q, e);
        PromoteInTurn(w.db, q, e);
        AmendOrderly(w, q, Promoted(w.db, q, e));
      case _ =>
    }
  }

  lemma WriteOrderly(env: Env, w: World, p: Pid, act: Action)
    requires Sane(w) && Orderly(w) && Writes(act) && Alone(StepBy(env, w, p, act))
    ensures Orderly(StepBy(env, w, p, act))
  {
    match act {
      case Acquire(gone, token) => AcquireOrderly(env, w, p, gone, token);
      case Open => OpenOrderly(w, p);
      case MarkTesting => MarkTestingOrderly(w, p);
      case StoreLand => StoreLandOrderly(w, p);
      case StoreAbandon => StoreAbandonOrderly(w, p);
      case StoreBlame => StoreBlameOrderly(w, p);
    }
  }

  lemma EdgeOrderly(env: Env, w: World, p: Pid, act: Action)
    requires Orderly(w) && Edges(act) && !act.Acquire?
    ensures Orderly(StepBy(env, w, p, act))
  {
    EdgeIsAtEdge(env, w, p, act);
    EdgeKeepsTables(env, w, p, act);
    SameDbOrderly(w, StepBy(env, w, p, act), p);
  }

  lemma FastForwardOrderly(w: World, p: Pid)
    requires Orderly(w)
    ensures Orderly(StepFastForward(w, p))
  {
    SameDbOrderly(w, StepFastForward(w, p), p);
  }

  lemma AnnounceOrderly(w: World, p: Pid)
    requires Orderly(w)
    ensures Orderly(StepAnnounce(w, p))
  {
    SameDbOrderly(w, StepAnnounce(w, p), p);
  }

  lemma QuietOrderly(env: Env, w: World, p: Pid, act: Action)
    requires Orderly(w) && Quiet(act) && !Writes(act)
    ensures Orderly(StepBy(env, w, p, act))
  {
    var w' := StepBy(env, w, p, act);
    QuietIsQuiet(env, w, p, act);
    WorkIsWithinTick(env, w, p, act);
    ReadsOnly(env, w, p, act);
    if w' != w { SameDbOrderly(w, w', p); }
  }

  lemma StepOrderly(env: Env, w: World, e: Event)
    requires Sane(w) && LeaseExclusion.LeaseInv(w) && Orderly(w) && Disciplined(env, w, e) && Patient(w, e)
    ensures Orderly(Step(env, w, e))
  {
    LeaseExclusion.StepExcludes(env, w, e);
    TimelyIsAlone(Step(env, w, e));
    match e {
      case Around(what) => AroundOrderly(w, what);
      case By(p, act) =>
        if Writes(act) { WriteOrderly(env, w, p, act); }
        else if act.Choose? { ChooseOrderly(w, p); }
        else if Edges(act) { EdgeOrderly(env, w, p, act); }
        else if Quiet(act) { QuietOrderly(env, w, p, act); }
        else if act.FastForward? { FastForwardOrderly(w, p); }
        else { AnnounceOrderly(w, p); }
    }
  }

  lemma {:induction false} RunOrderly(env: Env, w: World, events: seq<Event>)
    requires Initial(w) && DisciplinedRun(env, w, events) && PatientRun(env, w, events)
    ensures Orderly(Run(env, w, events))
  {
    if events != [] {
      var n := |events| - 1;
      RunOrderly(env, w, events[..n]);
      RunFits(env, w, events[..n]);
      StepOrderly(env, Run(env, w, events[..n]), events[n]);
    }
  }

  /**
   Whatever splits, blames, requeues, reclaims, enqueues and removals came before,
   a candidate in flight is exactly the front of its line in line order; so when
   it lands, no live entry ranked ahead of any of its entries is left behind.
   */
  lemma NoOvertaking(env: Env, w: World, events: seq<Event>, q: Queue, c: CandidateId)
    requires Initial(w) && DisciplinedRun(env, w, events) && PatientRun(env, w, events)
    requires ActiveIs(Run(env, w, events).db, q, c)
    ensures var db := Run(env, w, events).db;
            && Ids(db.candidates[c]) <= Line(db, q)
            && forall e, f :: Holds(db.candidates[c], e) && Lives(Landed(db, c), q, f) ==> Before(db.entries, e, f)
  {
    RunOrderly(env, w, events);
    RunFits(env, w, events);
    var db := Run(env, w, events).db;
    forall e, f | Holds(db.candidates[c], e) && Lives(Landed(db, c), q, f) ensures Before(db.entries, e, f) {
      NoneLeftBehind(db, q, c, e, f);
    }
  }

  /** Every candidate in flight was at the front of its line after every event. */
  ghost predicate InOrderThroughout(env: Env, w: World, events: seq<Event>) {
    InOrder(Run(env, w, events).db) && (events == [] || InOrderThroughout(env, w, events[..|events| - 1]))
  }

  lemma ImpatientOvertakes(db: Db, q: Queue, e: EntryId)
    requires TableInv(db) && InOrder(db) && Waits(db, q, e)
    requires exists c: CandidateId :: ActiveIs(db, q, c) && !StaysBehind(db, q, e, c)
    ensures !InOrder(Promoted(db, q, e))
  {
    var c: CandidateId :| ActiveIs(db, q, c) && !StaysBehind(db, q, e, c);
    PromoteInFlight(db, q, e, c);
  }

  /**
   Throughout a disciplined run nobody in flight is overtaken if and only if no
   promotion takes an entry past one in flight.
   */
  lemma {:induction false} OvertakenByHandOnly(env: Env, w: World, events: seq<Event>)
    requires Initial(w) && DisciplinedRun(env, w, events)
    ensures InOrderThroughout(env, w, events) <==> PatientRun(env, w, events)
  {
    if events != [] {
      var n := |events| - 1;
      OvertakenByHandOnly(env, w, events[..n]);
      if PatientRun(env, w, events[..n]) {
        var now := Run(env, w, events[..n]);
        RunOrderly(env, w, events[..n]);
        RunFits(env, w, events[..n]);
        if Patient(now, events[n]) {
          RunOrderly(env, w, events);
        } else {
          ImpatientOvertakes(now.db, events[n].what.queue, events[n].what.entry);
        }
      }
    }
  }
}
