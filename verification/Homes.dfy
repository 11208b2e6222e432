/** In every run, whoever holds which lease: a candidate's entries are entries of its own queue. */
module Homes {
  import opened Vocabulary
  import opened States
  import opened Tables
  import opened TableInvariant
  import opened Protocol
  import opened BaseSafety
  import Ranking

  ghost predicate Home(db: Db, q: Queue, ids: seq<EntryId>) {
    forall i :: 0 <= i < |ids| ==> ids[i] < |db.entries| && db.entries[ids[i]].queue == q
  }

  ghost predicate AllHome(db: Db) {
    forall c :: 0 <= c < |db.candidates| ==> Home(db, db.candidates[c].queue, Ids(db.candidates[c]))
  }

  ghost predicate PhaseHome(db: Db, q: Queue, phase: Phase) {
    phase.Opening? ==> Home(db, q, PickIds(phase.batch))
  }

  ghost predicate Homely(w: World) {
    AllHome(w.db) && forall p :: Ticks(w, p) ==> PhaseHome(w.db, w.procs[p].queue, w.procs[p].phase)
  }

  /** Rows keep their queues, and there are no new candidates. */
  ghost predicate Settled(db: Db, db': Db) {
    Written(db, db') && |db'.candidates| == |db.candidates|
  }

  lemma SettledStaysHome(db: Db, db': Db)
    requires Settled(db, db') && AllHome(db)
    ensures AllHome(db')
    ensures forall q, ids :: Home(db, q, ids) ==> Home(db', q, ids)
  {
  }

  /** One worker moved on; the tables settled. */
  lemma OneMovedHome(w: World, w': World, p: Pid)
    requires Homely(w) && Settled(w.db, w'.db)
    requires forall o :: o != p && Ticks(w', o) ==> Ticks(w, o) && w'.procs[o] == w.procs[o]
    requires Ticks(w', p) ==> PhaseHome(w'.db, w'.procs[p].queue, w'.procs[p].phase)
    ensures Homely(w')
  {
    SettledStaysHome(w.db, w'.db);
  }

  // ----- what gets ready to open

  lemma ChosenHome(db: Db, q: Queue, base: Sha, config: Config)
    ensures PhaseHome(db, q, Chosen(db, q, base, config))
  {
    var batch := Ranking.SelectBatch(db, q, config.maxBatch);
    forall i | 0 <= i < |batch| ensures Waits(db, q, batch[i]) {
      assert batch[i] == Ranking.Waiting(db, q)[i] && batch[i] in Ranking.Waiting(db, q);
    }
  }

  lemma ChooseHome(w: World, p: Pid)
    requires Homely(w)
    ensures Homely(StepChoose(w, p))
  {
    if Ticks(w, p) && w.procs[p].phase.Based? {
      ChosenHome(w.db, w.procs[p].queue, w.procs[p].phase.base, w.procs[p].phase.config);
      OneMovedHome(w, StepChoose(w, p), p);
    }
  }

  lemma LeftHome(db: Db, q: Queue, picks: seq<Pick>)
    requires Home(db, q, PickIds(picks))
    ensures Home(db, q, PickIds(LeftHalf(picks)))
  {
    var left := LeftHalf(picks);
    forall i | 0 <= i < |left| ensures left[i].id < |db.entries| && db.entries[left[i].id].queue == q {
      assert left[i] in picks;
      var k :| 0 <= k < |picks| && picks[k] == left[i];
      assert PickIds(picks)[k] == left[i].id;
    }
  }

  lemma AbandonedHome(env: Env, w: World, p: Pid, job: Job, split: bool)
    requires Homely(w) && SafeWorld(env, w) && Ticks(w, p) && w.procs[p].phase == Discarding(job, split)
    ensures PhaseHome(w.db, w.procs[p].queue, StepStoreAbandon(w, p).procs[p].phase)
  {
    assert ProcSafe(env, w, p);
    if split { LeftHome(w.db, w.procs[p].queue, job.picks); }
  }

  lemma StoreAbandonHome(env: Env, w: World, p: Pid)
    requires Homely(w) && SafeWorld(env, w)
    ensures Homely(StepStoreAbandon(w, p))
  {
    if Ticks(w, p) && w.procs[p].phase.Discarding? {
      var job, split := w.procs[p].phase.job, w.procs[p].phase.split;
      AbandonedHome(env, w, p, job, split);
      CloseWrites(w.db, job.candidate, if split then Failed else Superseded, 0);
      SettledStaysHome(w.db, StepStoreAbandon(w, p).db);
      OneMovedHome(w, StepStoreAbandon(w, p), p);
    }
  }

  // ----- opening

  lemma OpenedHome(db: Db, q: Queue, base: Sha, batch: seq<EntryId>, parent: Option<CandidateId>)
    requires AllHome(db) && Home(db, q, batch)
    ensures AllHome(Opened(db, q, base, batch, parent))
    ensures forall r, ids :: Home(db, r, ids) ==> Home(Opened(db, q, base, batch, parent), r, ids)
  {
    OpenWrites(db, q, base, batch, parent);
  }

  lemma OpenHome(w: World, p: Pid)
    requires Homely(w)
    ensures Homely(StepOpen(w, p))
  {
    if Ticks(w, p) && w.procs[p].phase.Opening? {
      var w', phase := StepOpen(w, p), w.procs[p].phase;
      assert !Ticks(w', p) || !w'.procs[p].phase.Opening? by { OpeningIsQuiet(w, p); }
      OpenedHome(w.db, w.procs[p].queue, phase.base, PickIds(phase.batch), phase.parent);
    }
  }

  // ----- and everything else

  /** A worker went on to a phase in which it opens nothing. */
  lemma WorkedHome(w: World, w': World, p: Pid, phase: Phase)
    requires Homely(w) && Settled(w.db, w'.db) && Ticks(w, p) && !phase.Opening? && w'.procs == Goto(w, p, phase).procs
    ensures Homely(w')
  {
    OneMovedHome(w, w', p);
  }

  lemma MarkTestingHome(w: World, p: Pid)
    requires Homely(w)
    ensures Homely(StepMarkTesting(w, p))
  {
    if Ticks(w, p) && w.procs[p].phase.Assembling? && |w.procs[p].phase.tips| == |w.procs[p].phase.job.picks| + 1 {
      var phase := w.procs[p].phase;
      CloseWrites(w.db, phase.job.candidate, Failed, phase.tips[|phase.tips| - 1]);
      WorkedHome(w, StepMarkTesting(w, p), p, Gating(phase.job, phase.tips));
    }
  }

  lemma StoreLandHome(w: World, p: Pid)
    requires Homely(w)
    ensures Homely(StepStoreLand(w, p))
  {
    if Ticks(w, p) && w.procs[p].phase.Moved? {
      CloseWrites(w.db, w.procs[p].phase.job.candidate, Failed, 0);
      WorkedHome(w, StepStoreLand(w, p), p, StepStoreLand(w, p).procs[p].phase);
    }
  }

  lemma StoreBlameHome(w: World, p: Pid)
    requires Homely(w)
    ensures Homely(StepStoreBlame(w, p))
  {
    if Ticks(w, p) && w.procs[p].phase.Blaming? {
      var phase := w.procs[p].phase;
      BlameWrites(w.db, phase.job.candidate, phase.culprit, phase.job.config.maxAttempts, phase.fault);
      WorkedHome(w, StepStoreBlame(w, p), p, StepStoreBlame(w, p).procs[p].phase);
    }
  }

  lemma EdgeHome(env: Env, w: World, p: Pid, act: Action)
    requires Homely(w) && Edges(act)
    ensures Homely(StepBy(env, w, p, act))
  {
    EdgeIsAtEdge(env, w, p, act);
    if act.Acquire? {
      if p in w.procs && w.procs[p].Asking? {
        AcquireOrRest(env, w, p, act.gone, act.token);
        ReclaimWrites(w.db, w.procs[p].queue);
      }
    } else {
      EdgeKeepsTables(env, w, p, act);
    }
    OneMovedHome(w, StepBy(env, w, p, act), p);
  }

  /** The steps that read no tables and write none. */
  predicate LooksAway(act: Action) {
    act.ReadBase? || Assembles(act) || act.Gate? || act.Decide? || act.FastForward? || act.Announce?
  }

  lemma LooksAwayHome(env: Env, w: World, p: Pid, act: Action)
    requires Homely(w) && LooksAway(act)
    ensures Homely(StepBy(env, w, p, act))
  {
    var w' := StepBy(env, w, p, act);
    WorkIsWithinTick(env, w, p, act);
    KeepsTables(env, w, p, act);
    if act.FastForward? { LandingOpensNone(w, p); }
    else if act.Announce? { AnnouncingOpensNone(w, p); }
    else { QuietIsQuiet(env, w, p, act); }
    if Ticks(w, p) { OneMovedHome(w, w', p); }
  }

  lemma KeepsTables(env: Env, w: World, p: Pid, act: Action)
    requires LooksAway(act)
    ensures StepBy(env, w, p, act).db == w.db
  {
  }

  lemma LandingOpensNone(w: World, p: Pid)
    ensures var w' := StepFastForward(w, p); w' == w || (Ticks(w', p) && !w'.procs[p].phase.Opening?)
  {
  }

  lemma AnnouncingOpensNone(w: World, p: Pid)
    ensures var w' := StepAnnounce(w, p); w' == w || (Ticks(w', p) && !w'.procs[p].phase.Opening?)
  {
  }

  lemma AroundHome(w: World, what: Happening)
    requires Homely(w)
    ensures Homely(StepAround(w, what))
  {
    OneMovedHome(w, StepAround(w, what), if what.Spawn? then what.pid else 0);
  }

  lemma StepHome(env: Env, w: World, e: Event)
    requires Homely(w) && SafeWorld(env, w)
    ensures Homely(Step(env, w, e))
  {
    match e {
      case Around(what) => AroundHome(w, what);
      case By(p, act) =>
        if Edges(act) { EdgeHome(env, w, p, act); }
        else if act.Choose? { ChooseHome(w, p); }
        else if act.Open? { OpenHome(w, p); }
        else if act.StoreAbandon? { StoreAbandonHome(env, w, p); }
        else if LooksAway(act) { LooksAwayHome(env, w, p, act); }
        else if act.MarkTesting? { MarkTestingHome(w, p); }
        else if act.StoreLand? { StoreLandHome(w, p); }
        else { StoreBlameHome(w, p); }
    }
  }

  lemma {:induction false} RunHome(env: Env, w: World, events: seq<Event>)
    requires Initial(w)
    ensures Homely(Run(env, w, events))
  {
    if events != [] {
      var n := |events| - 1;
      RunHome(env, w, events[..n]);
      RunSafe(env, w, events[..n]);
      StepHome(env, Run(env, w, events[..n]), events[n]);
    }
  }
}
