/**
 What holds of the tables and of every worker in a disciplined run: no lease
 runs out under a live worker, and no hand command lands between a tick's
 selecting entries and its opening a candidate over them. Enqueues, pushes from
 outside, errors and crashes may come anywhere.
 */
module Discipline {
  import opened Vocabulary
  import opened States
  import opened Tables
  import Ranking
  import opened TableInvariant
  import opened Protocol
  import opened LeaseExclusion

  ghost predicate Timely(w: World) {
    forall p :: Ticks(w, p) ==> w.procs[p].lease.expires > w.clock
  }

  ghost predicate OpeningOn(w: World, q: Queue) {
    exists p :: Ticks(w, p) && w.procs[p].queue == q && w.procs[p].phase.Opening?
  }

  predicate ByHandOn(what: Happening, q: Queue) {
    (what.Dequeue? || what.Promote?) && what.queue == q
  }

  ghost predicate Disciplined(env: Env, w: World, e: Event) {
    && Timely(Step(env, w, e))
    && (forall q :: e.Around? && ByHandOn(e.what, q) ==> !OpeningOn(w, q))
  }

  ghost predicate DisciplinedRun(env: Env, w: World, events: seq<Event>) {
    events == [] ||
    (var n := |events| - 1;
     DisciplinedRun(env, w, events[..n]) && Disciplined(env, Run(env, w, events[..n]), events[n]))
  }

  // ----- what each phase may count on

  ghost predicate Working(db: Db, q: Queue, job: Job) {
    && ActiveIs(db, q, job.candidate)
    && Ids(db.candidates[job.candidate]) == PickIds(job.picks)
  }

  ghost predicate UnderGate(db: Db, q: Queue, job: Job, tip: Sha) {
    && Working(db, q, job)
    && db.candidates[job.candidate].state.Testing?
    && db.candidates[job.candidate].commit == Some(tip)
  }

  ghost predicate PhaseFits(db: Db, q: Queue, phase: Phase) {
    match phase
    case Opening(_, _, batch, _) => Openable(db, q, PickIds(batch))
    case Assembling(job, _) => Working(db, q, job)
    case Gating(job, tips) => tips != [] && UnderGate(db, q, job, tips[|tips| - 1])
    case Judged(job, tips, _) => tips != [] && UnderGate(db, q, job, tips[|tips| - 1])
    case Discarding(job, split) =>
      Working(db, q, job) && (split ==> db.candidates[job.candidate].state.Testing? && |job.picks| >= 2)
    case Blaming(job, culprit, fault) =>
      && Working(db, q, job) && culprit in PickIds(job.picks)
      && (fault == CONFLICTS || (fault == FAILED_ALONE && db.candidates[job.candidate].state.Testing?))
    case Moved(job, tip) => UnderGate(db, q, job, tip)
    case _ => true
  }

  ghost predicate AllFit(w: World) {
    forall p :: Ticks(w, p) ==> PhaseFits(w.db, w.procs[p].queue, w.procs[p].phase)
  }

  ghost predicate Sane(w: World) {
    TableInv(w.db) && AllFit(w) && Alone(w)
  }

  lemma TimelyIsAlone(w: World)
    requires LeaseInv(w) && Timely(w)
    ensures Alone(w)
  {
    forall p, o | Ticks(w, p) && Ticks(w, o) && w.procs[p].queue == w.procs[o].queue ensures p == o {
      var q := w.procs[p].queue;
      assert Leased(w, p, q) && Leased(w, o, q);
      assert RowIs(w, p, q) && RowIs(w, o, q);
    }
  }

  /** A phase rests on the rows of its own queue alone. */
  lemma FitsElsewhere(db: Db, db': Db, q: Queue, r: Queue, phase: Phase)
    requires PhaseFits(db, r, phase) && TouchesOnly(db, db', q) && Written(db, db') && r != q
    ensures PhaseFits(db', r, phase)
  {
    if phase.Opening? {
      forall c | 0 <= c < |db'.candidates| && db'.candidates[c].queue == r
        ensures !db'.candidates[c].state.IsActive() {}
    }
  }

  /** One worker acted on its own queue: its new phase is all there is to look at. */
  lemma OneActed(w: World, w': World, p: Pid, q: Queue)
    requires Sane(w) && KeptBy(w.db, w'.db, q) && Alone(w')
    requires forall o :: o in w'.procs && o != p ==> o in w.procs && w'.procs[o] == w.procs[o]
    requires Ticks(w', p) ==> w'.procs[p].queue == q && PhaseFits(w'.db, q, w'.procs[p].phase)
    requires w'.db == w.db || Ticks(w', p)
    ensures Sane(w')
  {
    forall o | Ticks(w', o) ensures PhaseFits(w'.db, w'.procs[o].queue, w'.procs[o].phase) {
      if o != p && w'.db != w.db {
        assert w'.procs[o].queue != q;
        FitsElsewhere(w.db, w'.db, q, w'.procs[o].queue, w'.procs[o].phase);
      } else if o != p {
        assert Ticks(w, o);
      }
    }
  }

  lemma SameKept(db: Db, q: Queue)
    requires TableInv(db)
    ensures KeptBy(db, db, q)
  {
  }

  /** Only the phase of one process changed. */
  lemma OnlyPhase(w: World, w': World, p: Pid, phase: Phase)
    requires Sane(w) && Ticks(w, p) && w'.db == w.db && w'.procs == Goto(w, p, phase).procs
    requires PhaseFits(w.db, w.procs[p].queue, phase)
    ensures Sane(w')
  {
  }

  // ----- the tick

  lemma ChosenFits(db: Db, q: Queue, base: Sha, config: Config)
    requires TableInv(db)
    ensures PhaseFits(db, q, Chosen(db, q, base, config))
  {
    var active := ActiveCandidate(db, q);
    if active.Some? {
      var ids := Ids(db.candidates[active.value]);
      assert Sound(db.entries, db.candidates[active.value]);
      assert forall i :: 0 <= i < |ids| ==> ids[i] in ids;
      assert PickIds(Picks(db.entries, ids)) == ids;
    } else {
      var batch := Ranking.SelectBatch(db, q, config.maxBatch);
      if batch != [] { BatchIsOpenable(db, q, config.maxBatch); }
      assert PickIds(Picks(db.entries, batch)) == batch;
    }
  }

  lemma BatchIsOpenable(db: Db, q: Queue, limit: nat)
    requires NoneActive(db, q) && Ranking.SelectBatch(db, q, limit) != []
    ensures Openable(db, q, Ranking.SelectBatch(db, q, limit))
  {
    var batch, queued := Ranking.SelectBatch(db, q, limit), Ranking.Waiting(db, q);
    Ranking.RankedDistinct(db.entries, queued);
    forall e | e in batch ensures Waits(db, q, e) { assert e in queued; }
  }

  lemma ChooseFits(w: World, p: Pid)
    requires Sane(w)
    ensures Sane(StepChoose(w, p))
  {
    if Ticks(w, p) && w.procs[p].phase.Based? {
      var q, phase := w.procs[p].queue, w.procs[p].phase;
      ChosenFits(w.db, q, phase.base, phase.config);
      OnlyPhase(w, StepChoose(w, p), p, Chosen(w.db, q, phase.base, phase.config));
    }
  }

  lemma OpenedFits(db: Db, q: Queue, base: Sha, config: Config, batch: seq<Pick>, parent: Option<CandidateId>)
    requires TableInv(db) && Openable(db, q, PickIds(batch))
    ensures var db' := Opened(db, q, base, PickIds(batch), parent);
            KeptBy(db, db', q) && Working(db', q, Job(|db.candidates|, base, config, batch))
  {
    OpenKeeps(db, q, base, PickIds(batch), parent);
    assert Ids(Opened(db, q, base, PickIds(batch), parent).candidates[|db.candidates|]) == PickIds(batch);
  }

  lemma OpenStepFits(w: World, p: Pid)
    requires Sane(w) && Ticks(w, p) && w.procs[p].phase.Opening?
    requires MayOpen(w.db, PickIds(w.procs[p].phase.batch), w.procs[p].phase.parent)
    ensures Sane(StepOpen(w, p)) && RowsEvolve(w.db, StepOpen(w, p).db)
  {
    var q, phase := w.procs[p].queue, w.procs[p].phase;
    OpenedFits(w.db, q, phase.base, phase.config, phase.batch, phase.parent);
    OneActed(w, StepOpen(w, p), p, q);
  }

  lemma OpenFits(w: World, p: Pid)
    requires Sane(w)
    ensures Sane(StepOpen(w, p)) && RowsEvolve(w.db, StepOpen(w, p).db)
  {
    if Ticks(w, p) && w.procs[p].phase.Opening? {
      if MayOpen(w.db, PickIds(w.procs[p].phase.batch), w.procs[p].phase.parent) {
        OpenStepFits(w, p);
      } else {
        OnlyPhase(w, StepOpen(w, p), p, Releasing);
      }
    }
  }

  lemma MergeFits(w: World, p: Pid, result: Option<Sha>)
    requires Sane(w)
    ensures Sane(StepMerge(w, p, result))
  {
    var w' := StepMerge(w, p, result);
    if w' != w {
      var phase := w.procs[p].phase;
      assert PickIds(phase.job.picks)[|phase.tips| - 1] in PickIds(phase.job.picks);
      OnlyPhase(w, w', p, w'.procs[p].phase);
    }
  }

  lemma MarkTestingFits(w: World, p: Pid)
    requires Sane(w)
    ensures Sane(StepMarkTesting(w, p)) && RowsEvolve(w.db, StepMarkTesting(w, p).db)
  {
    var w' := StepMarkTesting(w, p);
    if w' != w {
      var q, phase := w.procs[p].queue, w.procs[p].phase;
      var tip := phase.tips[|phase.tips| - 1];
      UnderTestKeeps(w.db, q, phase.job.candidate, tip);
      assert Ids(w'.db.candidates[phase.job.candidate]) == Ids(w.db.candidates[phase.job.candidate]);
      OneActed(w, w', p, q);
    }
  }

  lemma StoreLandFits(w: World, p: Pid)
    requires Sane(w)
    ensures Sane(StepStoreLand(w, p)) && RowsEvolve(w.db, StepStoreLand(w, p).db)
  {
    var w' := StepStoreLand(w, p);
    if w' != w {
      LandKeeps(w.db, w.procs[p].queue, w.procs[p].phase.job.candidate);
      OneActed(w, w', p, w.procs[p].queue);
    }
  }

  lemma StoreBlameFits(w: World, p: Pid)
    requires Sane(w)
    ensures Sane(StepStoreBlame(w, p)) && RowsEvolve(w.db, StepStoreBlame(w, p).db)
  {
    var w' := StepStoreBlame(w, p);
    if w' != w {
      var q, phase := w.procs[p].queue, w.procs[p].phase;
      BlameKeeps(w.db, q, phase.job.candidate, phase.culprit, phase.job.config.maxAttempts, phase.fault);
      OneActed(w, w', p, q);
    }
  }

  lemma DecidedFits(db: Db, q: Queue, job: Job, tip: Sha, interrupted: bool)
    requires UnderGate(db, q, job, tip)
    ensures PhaseFits(db, q, Decided(job, interrupted))
  {
  }

  lemma DecideFits(w: World, p: Pid, interrupted: bool)
    requires Sane(w)
    ensures Sane(StepDecide(w, p, interrupted))
  {
    if Ticks(w, p) && w.procs[p].phase.Judged? && !w.procs[p].phase.passed {
      var phase := w.procs[p].phase;
      DecidedFits(w.db, w.procs[p].queue, phase.job, phase.tips[|phase.tips| - 1], interrupted);
      OnlyPhase(w, StepDecide(w, p, interrupted), p, Decided(phase.job, interrupted));
    }
  }

  /** Picking the left half out by id again gives the left half. */
  lemma {:induction false} KeepIsPrefix(picks: seq<Pick>, n: nat)
    requires n <= |picks| && Distinct(PickIds(picks))
    ensures Keep(picks, PickIds(picks)[..n]) == picks[..n]
  {
    var ids := PickIds(picks);
    if picks != [] {
      var rest := picks[1..];
      assert PickIds(rest) == ids[1..];
      if n == 0 {
        KeepIsPrefix(rest, 0);
        assert ids[..0] == ids[1..][..0] == [];
      } else {
        var front := PickIds(rest)[..n - 1];
        KeepIsPrefix(rest, n - 1);
        assert ids[..n] == [ids[0]] + front && picks[..n] == [picks[0]] + rest[..n - 1];
        KeepIgnores(rest, ids[0], front);
        KeepsFirst(picks, ids[..n]);
      }
    }
  }

  lemma KeepsFirst(picks: seq<Pick>, ids: seq<EntryId>)
    requires picks != [] && picks[0].id in ids
    ensures Keep(picks, ids) == [picks[0]] + Keep(picks[1..], ids)
  {
  }

  lemma {:induction false} KeepIgnores(picks: seq<Pick>, id: EntryId, ids: seq<EntryId>)
    requires id !in PickIds(picks)
    ensures Keep(picks, [id] + ids) == Keep(picks, ids)
  {
    if picks != [] {
      assert picks[0].id == PickIds(picks)[0] && PickIds(picks[1..]) == PickIds(picks)[1..];
      KeepIgnores(picks[1..], id, ids);
    }
  }

  lemma LeftHalfIs(picks: seq<Pick>)
    requires |picks| >= 2 && Distinct(PickIds(picks))
    ensures LeftHalf(picks) == picks[..|picks| / 2]
    ensures PickIds(LeftHalf(picks)) == PickIds(picks)[..|picks| / 2]
  {
    KeepIsPrefix(picks, |picks| / 2);
  }

  lemma AbandonRequeues(db: Db, q: Queue, c: CandidateId, to: CandidateState, e: EntryId)
    requires TableInv(db) && ActiveIs(db, q, c) && Holds(db.candidates[c], e)
    ensures Waits(Abandoned(db, c, to), q, e) && Abandoned(db, c, to).entries[e].attempts == db.entries[e].attempts
  {
    assert Sound(db.entries, db.candidates[c]);
    assert InFlight(db.candidates, e);
  }

  lemma AbandonRequeuesAll(db: Db, q: Queue, c: CandidateId, to: CandidateState)
    requires TableInv(db) && ActiveIs(db, q, c)
    ensures forall e :: e in Ids(db.candidates[c]) ==>
              Waits(Abandoned(db, c, to), q, e) && Abandoned(db, c, to).entries[e].attempts == db.entries[e].attempts
  {
    forall e | e in Ids(db.candidates[c])
      ensures Waits(Abandoned(db, c, to), q, e) && Abandoned(db, c, to).entries[e].attempts == db.entries[e].attempts
    {
      assert Holds(db.candidates[c], e);
      AbandonRequeues(db, q, c, to, e);
    }
  }

  lemma FrontIsOpenable(db: Db, q: Queue, ids: seq<EntryId>, n: nat)
    requires 0 < n <= |ids| && Distinct(ids) && NoneActive(db, q)
    requires forall e :: e in ids ==> Waits(db, q, e) && db.entries[e].attempts == 0
    ensures Openable(db, q, ids[..n])
  {
    assert forall e :: e in ids[..n] ==> e in ids;
  }

  /** After a split's abandon, the left half may be opened. */
  lemma LeftHalfIsOpenable(db: Db, q: Queue, c: CandidateId, picks: seq<Pick>)
    requires TableInv(db) && ActiveIs(db, q, c) && NoneActive(Abandoned(db, c, Failed), q)
    requires Ids(db.candidates[c]) == PickIds(picks) && |picks| >= 2
    ensures Openable(Abandoned(db, c, Failed), q, PickIds(LeftHalf(picks)))
  {
    var ids := PickIds(picks);
    assert Sound(db.entries, db.candidates[c]) && Quarantined(db.entries, ids);
    LeftHalfIs(picks);
    AbandonRequeuesAll(db, q, c, Failed);
    FrontIsOpenable(Abandoned(db, c, Failed), q, ids, |picks| / 2);
  }

  lemma AbandonedFits(db: Db, q: Queue, job: Job, split: bool)
    requires TableInv(db) && PhaseFits(db, q, Discarding(job, split))
    ensures var db' := Abandoned(db, job.candidate, if split then Failed else Superseded);
            KeptBy(db, db', q) && (split ==> Openable(db', q, PickIds(LeftHalf(job.picks))))
  {
    AbandonKeeps(db, q, job.candidate, if split then Failed else Superseded);
    if split { LeftHalfIsOpenable(db, q, job.candidate, job.picks); }
  }

  lemma StoreAbandonFits(w: World, p: Pid)
    requires Sane(w)
    ensures Sane(StepStoreAbandon(w, p)) && RowsEvolve(w.db, StepStoreAbandon(w, p).db)
  {
    if Ticks(w, p) && w.procs[p].phase.Discarding? {
      var w', q, phase := StepStoreAbandon(w, p), w.procs[p].queue, w.procs[p].phase;
      AbandonedFits(w.db, q, phase.job, phase.split);
      OneActed(w, w', p, q);
    }
  }

  // ----- around it

  lemma AcquireFits(env: Env, w: World, p: Pid, gone: bool, token: Token)
    requires Sane(w) && Alone(StepAcquire(env, w, p, gone, token))
    ensures Sane(StepAcquire(env, w, p, gone, token)) && RowsEvolve(w.db, StepAcquire(env, w, p, gone, token).db)
  {
    var w' := StepAcquire(env, w, p, gone, token);
    if p in w.procs && w.procs[p].Asking? {
      var q := w.procs[p].queue;
      AcquireOrRest(env, w, p, gone, token);
      ReclaimKeeps(w.db, q);
      SameKept(w.db, q);
      if w' != w { OneActed(w, w', p, q); }
    }
  }

  lemma EnqueueFits(w: World, q: Queue, branch: string, sha: Sha)
    requires Sane(w)
    ensures Sane(w.(db := Enqueued(w.db, q, branch, sha))) && RowsEvolve(w.db, Enqueued(w.db, q, branch, sha))
  {
    EnqueueKeeps(w.db, q, branch, sha);
  }

  /** A hand command changes a waiting row and no candidate. */
  lemma AmendFits(w: World, q: Queue, db': Db)
    requires Sane(w) && KeptBy(w.db, db', q) && db'.candidates == w.db.candidates && !OpeningOn(w, q)
    ensures Sane(w.(db := db'))
  {
    forall p | Ticks(w, p) ensures PhaseFits(db', w.procs[p].queue, w.procs[p].phase) {
      if w.procs[p].queue != q {
        FitsElsewhere(w.db, db', q, w.procs[p].queue, w.procs[p].phase);
      }
    }
  }

  lemma HandFits(w: World, what: Happening)
    requires Sane(w) && (what.Dequeue? || what.Promote?) && !OpeningOn(w, what.queue)
    ensures Sane(StepAround(w, what)) && RowsEvolve(w.db, StepAround(w, what).db)
  {
    if what.Dequeue? {
      DequeueKeeps(w.db, what.queue, what.entry);
    } else {
      PromoteKeeps(w.db, what.queue, what.entry);
    }
    AmendFits(w, what.queue, StepAround(w, what).db);
  }

  lemma AroundFits(w: World, what: Happening)
    requires Sane(w) && forall q :: ByHandOn(what, q) ==> !OpeningOn(w, q)
    ensures Sane(StepAround(w, what)) && RowsEvolve(w.db, StepAround(w, what).db)
  {
    match what {
      case Enqueue(q, branch, sha) => EnqueueFits(w, q, branch, sha);
      case Dequeue(q, _) => assert ByHandOn(what, q); HandFits(w, what);
      case Promote(q, _) => assert ByHandOn(what, q); HandFits(w, what);
      case _ =>
    }
  }

  /** Steps that leave every phase alone or let go of it. */
  lemma LetGo(w: World, w': World)
    requires Sane(w) && w'.db == w.db
    requires forall o :: Ticks(w', o) ==> Ticks(w, o) && w'.procs[o].queue == w.procs[o].queue
    requires forall o :: Ticks(w', o) && Ticks(w, o) ==>
               w'.procs[o].phase == w.procs[o].phase || w'.procs[o].phase.Releasing?
    ensures Sane(w')
  {
  }

  lemma EdgeFits(env: Env, w: World, p: Pid, act: Action)
    requires Sane(w) && Edges(act) && !act.Acquire?
    ensures Sane(StepBy(env, w, p, act)) && StepBy(env, w, p, act).db == w.db
  {
    EdgeIsAtEdge(env, w, p, act);
    EdgeKeepsTables(env, w, p, act);
    EdgeTakesNothing(env, w, p, act);
    LetGo(w, StepBy(env, w, p, act));
  }

  /** Only acquiring the lease puts a process to work. */
  lemma EdgeTakesNothing(env: Env, w: World, p: Pid, act: Action)
    requires Edges(act) && !act.Acquire?
    ensures var w' := StepBy(env, w, p, act);
            (Ticks(w', p) ==>
               && Ticks(w, p) && w'.procs[p].queue == w.procs[p].queue
               && (w'.procs[p].phase == w.procs[p].phase || w'.procs[p].phase.Releasing?))
  {
  }

  lemma PlainFits(env: Env, w: World, p: Pid, passed: bool)
    requires Sane(w)
    ensures Sane(StepReadBase(env, w, p)) && Sane(StepCheckout(w, p)) && Sane(StepGate(w, p, passed))
  {
    if Ticks(w, p) {
      var base, out, gated := StepReadBase(env, w, p), StepCheckout(w, p), StepGate(w, p, passed);
      if base != w { OnlyPhase(w, base, p, base.procs[p].phase); }
      if out != w { OnlyPhase(w, out, p, out.procs[p].phase); }
      if gated != w { OnlyPhase(w, gated, p, gated.procs[p].phase); }
    }
  }

  lemma FastForwardFits(w: World, p: Pid)
    requires Sane(w)
    ensures Sane(StepFastForward(w, p))
  {
    if Ticks(w, p) && w.procs[p].phase.Judged? && w.procs[p].phase.passed && w.procs[p].phase.tips != [] {
      var w' := StepFastForward(w, p);
      assert w'.procs == Goto(w, p, w'.procs[p].phase).procs;
      OnlyPhase(w, w', p, w'.procs[p].phase);
    }
  }

  lemma AnnounceFits(w: World, p: Pid)
    requires Sane(w)
    ensures Sane(StepAnnounce(w, p))
  {
    if Ticks(w, p) && w.procs[p].phase.Announcing? {
      var w' := StepAnnounce(w, p);
      OnlyPhase(w, w', p, w'.procs[p].phase);
    }
  }

  predicate Writes(act: Action) {
    act.Acquire? || act.Open? || act.MarkTesting? || act.StoreLand? || act.StoreAbandon? || act.StoreBlame?
  }

  lemma WriteFits(env: Env, w: World, p: Pid, act: Action)
    requires Sane(w) && Writes(act) && Alone(StepBy(env, w, p, act))
    ensures Sane(StepBy(env, w, p, act)) && RowsEvolve(w.db, StepBy(env, w, p, act).db)
  {
    match act {
      case Acquire(gone, token) => AcquireFits(env, w, p, gone, token);
      case Open => OpenFits(w, p);
      case MarkTesting => MarkTestingFits(w, p);
      case StoreLand => StoreLandFits(w, p);
      case StoreAbandon => StoreAbandonFits(w, p);
      case StoreBlame => StoreBlameFits(w, p);
    }
  }

  lemma ReadFits(env: Env, w: World, p: Pid, act: Action)
    requires Sane(w) && !Writes(act)
    ensures Sane(StepBy(env, w, p, act))
  {
    match act {
      case Choose => ChooseFits(w, p);
      case Merge(result) => MergeFits(w, p, result);
      case Decide(interrupted) => DecideFits(w, p, interrupted);
      case ReadBase => PlainFits(env, w, p, false);
      case Checkout => PlainFits(env, w, p, false);
      case Gate(passed) => PlainFits(env, w, p, passed);
      case FastForward => FastForwardFits(w, p);
      case Announce => AnnounceFits(w, p);
      case _ => EdgeFits(env, w, p, act);
    }
  }

  lemma WorkReadsOnly(env: Env, w: World, p: Pid, act: Action)
    requires Works(act) && !Writes(act)
    ensures StepBy(env, w, p, act).db == w.db
  {
  }

  lemma ReadsOnly(env: Env, w: World, p: Pid, act: Action)
    requires !Writes(act)
    ensures StepBy(env, w, p, act).db == w.db
  {
    if Works(act) { WorkReadsOnly(env, w, p, act); } else { EdgeKeepsTables(env, w, p, act); }
  }

  lemma ByFits(env: Env, w: World, p: Pid, act: Action)
    requires Sane(w) && Alone(StepBy(env, w, p, act))
    ensures Sane(StepBy(env, w, p, act)) && RowsEvolve(w.db, StepBy(env, w, p, act).db)
  {
    if Writes(act) {
      WriteFits(env, w, p, act);
    } else {
      ReadFits(env, w, p, act);
      ReadsOnly(env, w, p, act);
      SameKept(w.db, Queue("", ""));
    }
  }

  lemma StepFits(env: Env, w: World, e: Event)
    requires Sane(w) && LeaseInv(w) && Disciplined(env, w, e)
    ensures LeaseInv(Step(env, w, e)) && Sane(Step(env, w, e)) && RowsEvolve(w.db, Step(env, w, e).db)
  {
    StepExcludes(env, w, e);
    TimelyIsAlone(Step(env, w, e));
    match e {
      case Around(what) => AroundFits(w, what);
      case By(p, act) => ByFits(env, w, p, act);
    }
  }

  /** After every transaction of a disciplined run the tables are sound and every worker counts on what is so. */
  lemma {:induction false} RunFits(env: Env, w: World, events: seq<Event>)
    requires Initial(w) && DisciplinedRun(env, w, events)
    ensures var now := Run(env, w, events); Sane(now) && LeaseInv(now)
  {
    if events != [] {
      var n := |events| - 1;
      RunFits(env, w, events[..n]);
      StepFits(env, Run(env, w, events[..n]), events[n]);
    }
  }
}
