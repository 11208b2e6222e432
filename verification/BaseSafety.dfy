/**
 Merge exactly what was gated.

 Nothing here leans on the lease: any number of workers, with any interleaving,
 any expiry and any crash, may be running. Each has its own checkout.
 */
module BaseSafety {
  import opened Vocabulary
  import opened States
  import opened Tables
  import opened TableInvariant
  import opened Protocol

  // ----- what is written is never rewritten, whatever state the tables are in

  lemma OpenWrites(db: Db, q: Queue, base: Sha, batch: seq<EntryId>, parent: Option<CandidateId>)
    ensures Written(db, Opened(db, q, base, batch, parent))
    ensures Ids(Opened(db, q, base, batch, parent).candidates[|db.candidates|]) == batch
  {
  }

  lemma CloseWrites(db: Db, c: CandidateId, to: CandidateState, commit: Sha)
    ensures Written(db, Landed(db, c)) && Written(db, Abandoned(db, c, to)) && Written(db, UnderTest(db, c, commit))
  {
    if c < |db.candidates| {
      assert Ids(Landed(db, c).candidates[c]) == Ids(db.candidates[c]);
      assert Ids(Abandoned(db, c, to).candidates[c]) == Ids(db.candidates[c]);
      assert Ids(UnderTest(db, c, commit).candidates[c]) == Ids(db.candidates[c]);
    }
  }

  lemma BlameWrites(db: Db, c: CandidateId, culprit: EntryId, maxAttempts: nat, reason: string)
    ensures Written(db, Blamed(db, c, culprit, maxAttempts, reason))
  {
    if c < |db.candidates| && culprit < |db.entries| {
      assert Ids(Blamed(db, c, culprit, maxAttempts, reason).candidates[c]) == Ids(db.candidates[c]);
    }
  }

  lemma ReclaimWrites(db: Db, q: Queue)
    ensures Written(db, Reclaimed(db, q))
  {
    assert forall c :: 0 <= c < |db.candidates| ==> Ids(Reclaimed(db, q).candidates[c]) == Ids(db.candidates[c]);
  }

  // ----- the invariant

  /** `tips` is the trail of commits left by merging `shas` in order onto `base`. */
  ghost predicate Trail(merges: set<MergeFact>, base: Sha, shas: seq<Sha>, tips: seq<Sha>) {
    && 0 < |tips| <= |shas| + 1
    && tips[0] == base
    && forall k :: 0 <= k < |tips| - 1 ==> MergeFact(tips[k], shas[k], tips[k + 1]) in merges
  }

  /** `tip` is the in-order merge of `shas` onto `base`. */
  ghost predicate InOrderMerge(merges: set<MergeFact>, base: Sha, shas: seq<Sha>, tip: Sha) {
    exists tips :: Trail(merges, base, shas, tips) && |tips| == |shas| + 1 && tips[|shas|] == tip
  }

  ghost function PickShas(picks: seq<Pick>): (r: seq<Sha>)
    ensures |r| == |picks| && forall i :: 0 <= i < |picks| ==> r[i] == picks[i].sha
  {
    seq(|picks|, i requires 0 <= i < |picks| => picks[i].sha)
  }

  ghost predicate PicksAgree(es: seq<EntryRow>, picks: seq<Pick>) {
    forall i :: 0 <= i < |picks| ==> picks[i].id < |es| && es[picks[i].id].sha == picks[i].sha
  }

  ghost predicate AllKnown(db: Db) {
    forall c :: 0 <= c < |db.candidates| ==> Known(db.entries, Ids(db.candidates[c]))
  }

  ghost predicate JobSafe(env: Env, db: Db, q: Queue, job: Job) {
    && job.candidate < |db.candidates|
    && db.candidates[job.candidate].queue == q
    && db.candidates[job.candidate].base == job.base
    && Ids(db.candidates[job.candidate]) == PickIds(job.picks)
    && PicksAgree(db.entries, job.picks)
    && env.configs(job.base) == Some(job.config)
  }

  ghost predicate TrailSafe(env: Env, w: World, p: Pid, q: Queue, job: Job, tips: seq<Sha>) {
    && JobSafe(env, w.db, q, job)
    && Trail(w.merges, job.base, PickShas(job.picks), tips)
    && p in w.heads && w.heads[p] == tips[|tips| - 1]
  }

  ghost predicate PhaseSafe(env: Env, w: World, p: Pid, q: Queue, phase: Phase) {
    match phase
    case Based(base, config) => env.configs(base) == Some(config)
    case Opening(base, config, batch, _) => env.configs(base) == Some(config) && PicksAgree(w.db.entries, batch)
    case Assembling(job, tips) =>
      if tips == [] then JobSafe(env, w.db, q, job) else TrailSafe(env, w, p, q, job, tips)
    case Gating(job, tips) => TrailSafe(env, w, p, q, job, tips) && |tips| == |job.picks| + 1
    case Judged(job, tips, passed) =>
      && TrailSafe(env, w, p, q, job, tips) && |tips| == |job.picks| + 1
      && (passed ==> Pass(job.config.gate, tips[|tips| - 1]) in w.passes)
    case Discarding(job, split) =>
      PicksAgree(w.db.entries, job.picks) && (split ==> JobSafe(env, w.db, q, job))
    case Blaming(job, _, _) => env.configs(job.base) == Some(job.config)
    case Moved(job, _) => JobSafe(env, w.db, q, job)
    case _ => true
  }

  /** The move went from A to the in-order merge of its candidate onto A, which passed the gate A asks for. */
  ghost predicate MoveSafe(env: Env, w: World, m: Move) {
    && m.candidate < |w.db.candidates|
    && w.db.candidates[m.candidate].queue == m.queue
    && w.db.candidates[m.candidate].base == m.from
    && Known(w.db.entries, Ids(w.db.candidates[m.candidate]))
    && InOrderMerge(w.merges, m.from, ShasAt(w.db.entries, Ids(w.db.candidates[m.candidate])), m.to)
    && env.configs(m.from).Some?
    && Pass(env.configs(m.from).value.gate, m.to) in w.passes
  }

  ghost predicate ProcSafe(env: Env, w: World, p: Pid) {
    Ticks(w, p) ==> PhaseSafe(env, w, p, w.procs[p].queue, w.procs[p].phase)
  }

  ghost predicate SafeWorld(env: Env, w: World) {
    && AllKnown(w.db)
    && (forall p :: p in w.procs ==> ProcSafe(env, w, p))
    && (forall m :: m in w.moves ==> MoveSafe(env, w, m))
  }

  // ----- it only ever grows

  ghost predicate Grows(w: World, w': World) {
    Written(w.db, w'.db) && w.merges <= w'.merges && w.passes <= w'.passes
  }

  lemma MoveStaysSafe(env: Env, w: World, w': World, m: Move)
    requires Grows(w, w') && MoveSafe(env, w, m)
    ensures MoveSafe(env, w', m)
  {
    var ids := Ids(w.db.candidates[m.candidate]);
    var shas := ShasAt(w.db.entries, ids);
    assert Ids(w'.db.candidates[m.candidate]) == ids && ShasAt(w'.db.entries, ids) == shas;
    var tips :| Trail(w.merges, m.from, shas, tips) && |tips| == |shas| + 1 && tips[|shas|] == m.to;
    assert Trail(w'.merges, m.from, shas, tips);
  }

  lemma PhaseStaysSafe(env: Env, w: World, w': World, p: Pid, q: Queue, phase: Phase)
    requires Grows(w, w') && PhaseSafe(env, w, p, q, phase)
    requires p in w.heads ==> p in w'.heads && w'.heads[p] == w.heads[p]
    ensures PhaseSafe(env, w', p, q, phase)
  {
  }

  lemma KnownStays(db: Db, db': Db)
    requires Written(db, db') && AllKnown(db)
    requires forall c :: |db.candidates| <= c < |db'.candidates| ==> Known(db'.entries, Ids(db'.candidates[c]))
    ensures AllKnown(db')
  {
  }

  /** One process moved: only its own phase and the newest base move need looking at. */
  lemma OneMoved(env: Env, w: World, w': World, p: Pid)
    requires SafeWorld(env, w) && Grows(w, w') && AllKnown(w'.db)
    requires forall o :: o in w'.procs && o != p ==> o in w.procs && w'.procs[o] == w.procs[o]
    requires forall o :: o in w.heads && o != p ==> o in w'.heads && w'.heads[o] == w.heads[o]
    requires p in w'.procs ==> ProcSafe(env, w', p)
    requires forall m :: m in w'.moves ==> m in w.moves || MoveSafe(env, w', m)
    ensures SafeWorld(env, w')
  {
    forall o | o in w'.procs ensures ProcSafe(env, w', o) {
      if o != p && Ticks(w', o) {
        PhaseStaysSafe(env, w, w', o, w.procs[o].queue, w.procs[o].phase);
      }
    }
    forall m | m in w'.moves ensures MoveSafe(env, w', m) {
      if m in w.moves { MoveStaysSafe(env, w, w', m); }
    }
  }

  // ----- every event keeps it

  /** Only the phase of one process changed. */
  lemma PhaseMoved(env: Env, w: World, p: Pid, phase: Phase)
    requires SafeWorld(env, w) && Ticks(w, p) && PhaseSafe(env, w, p, w.procs[p].queue, phase)
    ensures SafeWorld(env, Goto(w, p, phase))
  {
    PhaseStaysSafe(env, w, Goto(w, p, phase), p, w.procs[p].queue, phase);
    OneMoved(env, w, Goto(w, p, phase), p);
  }

  lemma ChosenIsSafe(env: Env, w: World, p: Pid, q: Queue, base: Sha, config: Config)
    requires AllKnown(w.db) && env.configs(base) == Some(config)
    ensures PhaseSafe(env, w, p, q, Chosen(w.db, q, base, config))
  {
    var active := ActiveCandidate(w.db, q);
    if active.Some? {
      var ids := Ids(w.db.candidates[active.value]);
      assert Known(w.db.entries, ids);
      assert PickIds(Picks(w.db.entries, ids)) == ids;
    }
  }

  lemma ChooseSafe(env: Env, w: World, p: Pid)
    requires SafeWorld(env, w)
    ensures SafeWorld(env, StepChoose(w, p))
  {
    if Ticks(w, p) && w.procs[p].phase.Based? {
      assert ProcSafe(env, w, p);
      var q, phase := w.procs[p].queue, w.procs[p].phase;
      ChosenIsSafe(env, w, p, q, phase.base, phase.config);
      PhaseMoved(env, w, p, Chosen(w.db, q, phase.base, phase.config));
    }
  }

  lemma OpenKnows(db: Db, q: Queue, base: Sha, batch: seq<EntryId>, parent: Option<CandidateId>)
    requires AllKnown(db) && CanOpen(db, batch)
    ensures AllKnown(Opened(db, q, base, batch, parent)) && Written(db, Opened(db, q, base, batch, parent))
  {
    var db' := Opened(db, q, base, batch, parent);
    OpenWrites(db, q, base, batch, parent);
    assert Known(db'.entries, batch) by { assert forall i :: 0 <= i < |batch| ==> batch[i] in batch; }
    KnownStays(db, db');
  }

  lemma OpenedJobIsSafe(env: Env, db: Db, q: Queue, base: Sha, config: Config, batch: seq<Pick>,
                        parent: Option<CandidateId>)
    requires env.configs(base) == Some(config) && PicksAgree(db.entries, batch)
    ensures JobSafe(env, Opened(db, q, base, PickIds(batch), parent), q, Job(|db.candidates|, base, config, batch))
  {
    OpenWrites(db, q, base, PickIds(batch), parent);
  }

  lemma OpenSafe(env: Env, w: World, p: Pid)
    requires SafeWorld(env, w)
    ensures SafeWorld(env, StepOpen(w, p))
  {
    if Ticks(w, p) && w.procs[p].phase.Opening? {
      assert ProcSafe(env, w, p);
      var w', q, phase := StepOpen(w, p), w.procs[p].queue, w.procs[p].phase;
      if MayOpen(w.db, PickIds(phase.batch), phase.parent) {
        OpenKnows(w.db, q, phase.base, PickIds(phase.batch), phase.parent);
        OpenedJobIsSafe(env, w.db, q, phase.base, phase.config, phase.batch, phase.parent);
        assert ProcSafe(env, w', p);
        OneMoved(env, w, w', p);
      } else {
        PhaseMoved(env, w, p, Releasing);
      }
    }
  }

  lemma CheckoutSafe(env: Env, w: World, p: Pid)
    requires SafeWorld(env, w)
    ensures SafeWorld(env, StepCheckout(w, p))
  {
    var w' := StepCheckout(w, p);
    if w' != w {
      assert ProcSafe(env, w, p);
      OneMoved(env, w, w', p);
    }
  }

  lemma MergedTrail(env: Env, w: World, p: Pid, result: Sha)
    requires ProcSafe(env, w, p) && Merging(w, p) && p in w.heads
    requires ValidMerge(w.commits, w.heads[p], w.procs[p].phase.job.picks[|w.procs[p].phase.tips| - 1].sha, result)
    ensures ProcSafe(env, StepMerge(w, p, Some(result)), p) && Grows(w, StepMerge(w, p, Some(result)))
  {
  }

  lemma MergedSafe(env: Env, w: World, p: Pid, result: Sha)
    requires SafeWorld(env, w) && Merging(w, p) && p in w.heads
    requires ValidMerge(w.commits, w.heads[p], w.procs[p].phase.job.picks[|w.procs[p].phase.tips| - 1].sha, result)
    ensures SafeWorld(env, StepMerge(w, p, Some(result)))
  {
    assert ProcSafe(env, w, p);
    MergedTrail(env, w, p, result);
    OneMoved(env, w, StepMerge(w, p, Some(result)), p);
  }

  lemma MergeSafe(env: Env, w: World, p: Pid, result: Option<Sha>)
    requires SafeWorld(env, w)
    ensures SafeWorld(env, StepMerge(w, p, result))
  {
    if Merging(w, p) && p in w.heads {
      var job, tips := w.procs[p].phase.job, w.procs[p].phase.tips;
      assert ProcSafe(env, w, p);
      if result.None? {
        PhaseMoved(env, w, p, Blaming(job, job.picks[|tips| - 1].id, CONFLICTS));
      } else if ValidMerge(w.commits, w.heads[p], job.picks[|tips| - 1].sha, result.value) {
        MergedSafe(env, w, p, result.value);
      }
    }
  }

  lemma MarkTestingSafe(env: Env, w: World, p: Pid)
    requires SafeWorld(env, w)
    ensures SafeWorld(env, StepMarkTesting(w, p))
  {
    var w' := StepMarkTesting(w, p);
    if w' != w {
      assert ProcSafe(env, w, p);
      var phase := w.procs[p].phase;
      CloseWrites(w.db, phase.job.candidate, Failed, phase.tips[|phase.tips| - 1]);
      KnownStays(w.db, w'.db);
      PhaseStaysSafe(env, w, w', p, w.procs[p].queue, phase);
      OneMoved(env, w, w', p);
    }
  }

  lemma GateSafe(env: Env, w: World, p: Pid, passed: bool)
    requires SafeWorld(env, w)
    ensures SafeWorld(env, StepGate(w, p, passed))
  {
    var w' := StepGate(w, p, passed);
    if w' != w {
      assert ProcSafe(env, w, p);
      OneMoved(env, w, w', p);
    }
  }

  /** The trail a worker walked is the in-order merge of the recorded candidate. */
  lemma WalkedIsMerged(env: Env, w: World, p: Pid, q: Queue, job: Job, tips: seq<Sha>)
    requires AllKnown(w.db) && TrailSafe(env, w, p, q, job, tips) && |tips| == |job.picks| + 1
    requires Pass(job.config.gate, tips[|tips| - 1]) in w.passes
    ensures MoveSafe(env, w, Move(q, job.base, tips[|tips| - 1], job.candidate))
  {
    var ids := Ids(w.db.candidates[job.candidate]);
    assert Known(w.db.entries, ids);
    assert PickShas(job.picks) == ShasAt(w.db.entries, ids);
    assert Trail(w.merges, job.base, ShasAt(w.db.entries, ids), tips);
  }

  /** A base move was recorded; the process that made it holds nothing to check any more. */
  lemma MoveRecorded(env: Env, w: World, w': World, p: Pid, m: Move)
    requires SafeWorld(env, w) && MoveSafe(env, w, m) && Ticks(w, p)
    requires w'.db == w.db && w'.heads == w.heads && w'.merges == w.merges && w'.passes == w.passes
    requires w'.moves == w.moves + [m]
    requires p in w'.procs && ProcSafe(env, w', p) && w'.procs == w.procs[p := w'.procs[p]] && w'.procs[p].Ticking?
             && w'.procs[p].phase.Moved?
    ensures SafeWorld(env, w')
  {
    MoveStaysSafe(env, w, w', m);
    OneMoved(env, w, w', p);
  }

  lemma FastForwardSafe(env: Env, w: World, p: Pid)
    requires SafeWorld(env, w)
    ensures SafeWorld(env, StepFastForward(w, p))
  {
    if Ticks(w, p) && w.procs[p].phase.Judged? && w.procs[p].phase.passed && w.procs[p].phase.tips != [] {
      assert ProcSafe(env, w, p);
      var q, job, tips := w.procs[p].queue, w.procs[p].phase.job, w.procs[p].phase.tips;
      if q !in w.refs {
        PhaseMoved(env, w, p, Releasing);
      } else if w.refs[q] != job.base {
        PhaseMoved(env, w, p, Discarding(job, false));
      } else {
        var tip := tips[|tips| - 1];
        WalkedIsMerged(env, w, p, q, job, tips);
        assert StepFastForward(w, p).procs == Goto(w, p, Moved(job, tip)).procs;
        MoveRecorded(env, w, StepFastForward(w, p), p, Move(q, job.base, tip, job.candidate));
      }
    }
  }

  lemma CloseSafe(env: Env, w: World, p: Pid)
    requires SafeWorld(env, w)
    ensures SafeWorld(env, StepStoreLand(w, p)) && SafeWorld(env, StepStoreBlame(w, p))
  {
    var landed, blamed := StepStoreLand(w, p), StepStoreBlame(w, p);
    if landed != w {
      CloseWrites(w.db, w.procs[p].phase.job.candidate, Failed, 0);
      KnownStays(w.db, landed.db);
      OneMoved(env, w, landed, p);
    }
    if blamed != w {
      var phase := w.procs[p].phase;
      BlameWrites(w.db, phase.job.candidate, phase.culprit, phase.job.config.maxAttempts, phase.fault);
      KnownStays(w.db, blamed.db);
      OneMoved(env, w, blamed, p);
    }
  }

  lemma DecideSafe(env: Env, w: World, p: Pid, interrupted: bool)
    requires SafeWorld(env, w)
    ensures SafeWorld(env, StepDecide(w, p, interrupted))
  {
    if Ticks(w, p) && w.procs[p].phase.Judged? && !w.procs[p].phase.passed {
      assert ProcSafe(env, w, p);
      PhaseMoved(env, w, p, Decided(w.procs[p].phase.job, interrupted));
    }
  }

  lemma AbandonSafe(env: Env, w: World, p: Pid)
    requires SafeWorld(env, w)
    ensures SafeWorld(env, StepStoreAbandon(w, p))
  {
    if Ticks(w, p) && w.procs[p].phase.Discarding? {
      assert ProcSafe(env, w, p);
      var w', job, split := StepStoreAbandon(w, p), w.procs[p].phase.job, w.procs[p].phase.split;
      CloseWrites(w.db, job.candidate, if split then Failed else Superseded, 0);
      KnownStays(w.db, w'.db);
      LeftHalfAgrees(w.db.entries, w'.db.entries, job.picks);
      OneMoved(env, w, w', p);
    }
  }

  lemma LeftHalfAgrees(es: seq<EntryRow>, es': seq<EntryRow>, picks: seq<Pick>)
    requires PicksAgree(es, picks) && |es| <= |es'| && forall e :: 0 <= e < |es| ==> es'[e].sha == es[e].sha
    ensures PicksAgree(es', LeftHalf(picks))
  {
    assert forall i :: 0 <= i < |LeftHalf(picks)| ==> LeftHalf(picks)[i] in picks;
  }

  /** Tables reclaimed or not, a process that holds nothing is as safe as before. */
  lemma TakingSafe(env: Env, w: World, w': World, p: Pid, q: Queue)
    requires SafeWorld(env, w) && w'.db in {w.db, Reclaimed(w.db, q)} && SameHistory(w, w')
    requires forall o :: o in w'.procs && o != p ==> o in w.procs && w'.procs[o] == w.procs[o]
    requires Ticks(w', p) ==> w'.procs[p].phase.Ready?
    ensures SafeWorld(env, w')
  {
    ReclaimWrites(w.db, q);
    KnownStays(w.db, w'.db);
    OneMoved(env, w, w', p);
  }

  lemma AcquireSafe(env: Env, w: World, p: Pid, gone: bool, token: Token)
    requires SafeWorld(env, w)
    ensures SafeWorld(env, StepAcquire(env, w, p, gone, token))
  {
    if p in w.procs && w.procs[p].Asking? {
      AcquireOrRest(env, w, p, gone, token);
      AcquireIsAtEdge(env, w, p, gone, token);
      TakingSafe(env, w, StepAcquire(env, w, p, gone, token), p, w.procs[p].queue);
    }
  }

  predicate HoldsNothing(phase: Phase) {
    phase.Ready? || phase.Releasing? || phase.Announcing?
  }

  predicate SamePlace(w: World, w': World, p: Pid) {
    Ticks(w, p) && Ticks(w', p) && w'.procs[p].phase == w.procs[p].phase && w'.procs[p].queue == w.procs[p].queue
  }

  /** Nothing changed that a phase depends on, but for one process coming, going or letting go. */
  lemma QuietSafe(env: Env, w: World, w': World, p: Pid)
    requires SafeWorld(env, w)
    requires w'.db == w.db && w'.heads == w.heads && w'.merges == w.merges && w'.passes == w.passes
             && w'.moves == w.moves
    requires forall o :: o in w'.procs && o != p ==> o in w.procs && w'.procs[o] == w.procs[o]
    requires Ticks(w', p) ==> HoldsNothing(w'.procs[p].phase) || SamePlace(w, w', p)
    ensures SafeWorld(env, w')
  {
    if p in w.procs { assert ProcSafe(env, w, p); }
    OneMoved(env, w, w', p);
  }

  lemma HandSafe(env: Env, w: World, db': Db)
    requires SafeWorld(env, w) && Written(w.db, db') && |db'.candidates| == |w.db.candidates|
    ensures SafeWorld(env, w.(db := db'))
  {
    var w' := w.(db := db');
    KnownStays(w.db, db');
    forall o | o in w.procs ensures ProcSafe(env, w', o) {
      if Ticks(w, o) { PhaseStaysSafe(env, w, w', o, w.procs[o].queue, w.procs[o].phase); }
    }
    forall m | m in w.moves ensures MoveSafe(env, w', m) {
      MoveStaysSafe(env, w, w', m);
    }
  }

  lemma AroundSafe(env: Env, w: World, what: Happening)
    requires SafeWorld(env, w)
    ensures SafeWorld(env, StepAround(w, what))
  {
    match what {
      case ClockTo(_) => QuietSafe(env, w, StepAround(w, what), 0);
      case Spawn(p) => QuietSafe(env, w, StepAround(w, what), p);
      case Enqueue(q, branch, sha) => HandSafe(env, w, Enqueued(w.db, q, branch, sha));
      case Dequeue(q, entry) => HandSafe(env, w, Dequeued(w.db, q, entry));
      case Promote(q, entry) => HandSafe(env, w, Promoted(w.db, q, entry));
      case OutsideMove(q, sha, history) => QuietSafe(env, w, StepOutsideMove(w, q, sha, history), 0);
    }
  }

  lemma ReadBaseSafe(env: Env, w: World, p: Pid)
    requires SafeWorld(env, w)
    ensures SafeWorld(env, StepReadBase(env, w, p))
  {
    if Ticks(w, p) && w.procs[p].phase.Ready? {
      PhaseMoved(env, w, p, StepReadBase(env, w, p).procs[p].phase);
    }
  }

  lemma AnnounceSafe(env: Env, w: World, p: Pid)
    requires SafeWorld(env, w)
    ensures SafeWorld(env, StepAnnounce(w, p))
  {
    QuietSafe(env, w, StepAnnounce(w, p), p);
  }

  lemma EdgeSafe(env: Env, w: World, p: Pid, act: Action)
    requires SafeWorld(env, w) && Edges(act) && !act.Acquire?
    ensures SafeWorld(env, StepBy(env, w, p, act))
  {
    EdgeIsAtEdge(env, w, p, act);
    EdgeKeepsTables(env, w, p, act);
    QuietSafe(env, w, StepBy(env, w, p, act), p);
  }

  lemma BySafe(env: Env, w: World, p: Pid, act: Action)
    requires SafeWorld(env, w)
    ensures SafeWorld(env, StepBy(env, w, p, act))
  {
    match act {
      case Acquire(gone, token) => AcquireSafe(env, w, p, gone, token);
      case ReadBase => ReadBaseSafe(env, w, p);
      case Choose => ChooseSafe(env, w, p);
      case Open => OpenSafe(env, w, p);
      case Checkout => CheckoutSafe(env, w, p);
      case Merge(result) => MergeSafe(env, w, p, result);
      case MarkTesting => MarkTestingSafe(env, w, p);
      case Gate(passed) => GateSafe(env, w, p, passed);
      case FastForward => FastForwardSafe(env, w, p);
      case StoreLand => CloseSafe(env, w, p);
      case Decide(interrupted) => DecideSafe(env, w, p, interrupted);
      case StoreAbandon => AbandonSafe(env, w, p);
      case StoreBlame => CloseSafe(env, w, p);
      case Announce => AnnounceSafe(env, w, p);
      case _ => EdgeSafe(env, w, p, act);
    }
  }

  lemma StepSafe(env: Env, w: World, e: Event)
    requires SafeWorld(env, w)
    ensures SafeWorld(env, Step(env, w, e))
  {
    match e {
      case Around(what) => AroundSafe(env, w, what);
      case By(p, act) => BySafe(env, w, p, act);
    }
  }

  lemma {:induction false} RunSafe(env: Env, w: World, events: seq<Event>)
    requires Initial(w)
    ensures SafeWorld(env, Run(env, w, events))
  {
    if events != [] {
      var n := |events| - 1;
      RunSafe(env, w, events[..n]);
      StepSafe(env, Run(env, w, events[..n]), events[n]);
    }
  }

  predicate PushesFromOutside(e: Event) {
    e.Around? && e.what.OutsideMove?
  }

  predicate FastForwards(e: Event) {
    e.By? && e.act.FastForward?
  }

  lemma WritingRefsStay(w: World, p: Pid)
    ensures StepChoose(w, p).refs == w.refs && StepChoose(w, p).moves == w.moves
    ensures StepStoreLand(w, p).refs == w.refs && StepStoreLand(w, p).moves == w.moves
    ensures StepStoreAbandon(w, p).refs == w.refs && StepStoreAbandon(w, p).moves == w.moves
    ensures StepStoreBlame(w, p).refs == w.refs && StepStoreBlame(w, p).moves == w.moves
    ensures StepAnnounce(w, p).refs == w.refs && StepAnnounce(w, p).moves == w.moves
  {
  }

  lemma RefsStay(env: Env, w: World, e: Event)
    requires !PushesFromOutside(e) && !FastForwards(e)
    ensures Step(env, w, e).refs == w.refs && Step(env, w, e).moves == w.moves
  {
    if e.By? {
      if Edges(e.act) { EdgeIsAtEdge(env, w, e.pid, e.act); }
      else if Quiet(e.act) { QuietIsQuiet(env, w, e.pid, e.act); }
      else { WritingRefsStay(w, e.pid); }
    }
  }

  /** A compare-and-set that moves a base branch records where it moved from and to. */
  lemma FastForwardRecords(w: World, p: Pid, q: Queue)
    ensures var w' := StepFastForward(w, p);
            && (q in w.refs <==> q in w'.refs)
            && (q in w.refs && w'.refs[q] != w.refs[q] ==>
                  && |w'.moves| == |w.moves| + 1
                  && var m := w'.moves[|w.moves|]; m.queue == q && m.from == w.refs[q] && m.to == w'.refs[q])
  {
  }

  /**
   In every run, whoever else is working: an event either leaves a base branch
   alone, or is a push from outside, or moves it from A to the in-order merge
   onto A of a recorded candidate built on A, a commit on which the gate command
   that A itself configures has passed.
   */
  lemma BaseMovesAreGated(env: Env, w: World, events: seq<Event>, e: Event, q: Queue)
    requires Initial(w) && !PushesFromOutside(e)
    requires var before, after := Run(env, w, events), Step(env, Run(env, w, events), e);
             q in before.refs && q in after.refs && after.refs[q] != before.refs[q]
    ensures var before, after := Run(env, w, events), Step(env, Run(env, w, events), e);
            exists m :: m in after.moves && m.queue == q && m.from == before.refs[q] && m.to == after.refs[q]
              && MoveSafe(env, after, m)
  {
    var before := Run(env, w, events);
    var after := Step(env, before, e);
    RunSafe(env, w, events);
    StepSafe(env, before, e);
    if !FastForwards(e) {
      RefsStay(env, before, e);
    } else {
      FastForwardRecords(before, e.pid, q);
    }
    assert after.moves[|before.moves|] in after.moves;
  }
}
