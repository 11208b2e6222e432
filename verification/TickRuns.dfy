/**
 One tick that nothing interferes with: the tables and the base it leaves are
 those of one whole Advance, given the answers its own steps got from git, the
 gate and the signal flag.
 */
module TickRuns {
  import opened Vocabulary
  import opened States
  import opened Tables
  import opened TableInvariant
  import opened Protocol
  import opened Discipline
  import opened Advancing
  import Bisection
  import Ranking
  import Termination

  /** Where the tick began. */
  datatype Origin = Origin(db: Db, queue: Queue, base: Sha, config: Config)

  ghost function Tables0(o: Origin): Db {
    Started(o.db, o.queue, o.base, o.config).0
  }

  ghost function InHand0(o: Origin): CandidateId {
    Started(o.db, o.queue, o.base, o.config).1
  }

  // ----- what a tick is told

  /** Nothing conflicted, passed or was interrupted, and the base stayed where it was. */
  const UNHEARD := Answers(None, 0, false, false, false)

  /** What a step adds to the answers of its tick. */
  function Heard(w: World, p: Pid, act: Action, a: Answers): Answers {
    if !Ticks(w, p) then a
    else
      var phase := w.procs[p].phase;
      match act
      case Merge(result) =>
        if Merging(w, p) && p in w.heads && result.None? then a.(conflict := Some(|phase.tips| - 1)) else a
      case MarkTesting =>
        if phase.Assembling? && |phase.tips| == |phase.job.picks| + 1
        then a.(tip := phase.tips[|phase.tips| - 1])
        else a
      case Gate(passed) => if phase.Gating? && p in w.heads then a.(passed := passed) else a
      case Decide(interrupted) => if phase.Judged? && !phase.passed then a.(interrupted := interrupted) else a
      case _ => a
  }

  /** The answers the steps of a tick got. */
  ghost function AnswersOf(env: Env, w: World, before: seq<Event>, events: seq<Event>, p: Pid): Answers {
    if events == [] then UNHEARD
    else
      var n := |events| - 1;
      var a := AnswersOf(env, w, before, events[..n], p);
      if events[n].By? then Heard(Run(env, w, before + events[..n]), p, events[n].act, a) else a
  }

  // ----- where a tick has got to

  /** The worker's job is the candidate the tick works on. */
  ghost predicate OnIt(o: Origin, job: Job) {
    && Picked(o.db, o.queue, o.config) != [] && InHand0(o) < |Tables0(o).candidates|
    && job.candidate == InHand0(o) && job.config == o.config
    && PickIds(job.picks) == Ids(Tables0(o).candidates[InHand0(o)])
    && job.base == Tables0(o).candidates[InHand0(o)].base
  }

  ghost predicate Assembled(o: Origin, job: Job, db: Db, tip: Sha) {
    OnIt(o, job) && job.base == o.base && db == UnderTest(Tables0(o), job.candidate, tip)
  }

  /** The tables and the base that a whole tick with these answers leaves. */
  ghost function Whole(o: Origin, a: Answers): (Db, Sha) {
    var (db, out) := Advance(o.db, o.queue, o.base, o.config, a);
    (db, Termination.NextBase(o.base, out))
  }

  ghost predicate Gives(o: Origin, a: Answers, db: Db, base: Sha) {
    (db, base) == Whole(o, a)
  }

  /** These are the tables and the base the whole tick gives, without spelling out which those are. */
  ghost predicate Ended(o: Origin, db: Db, base: Sha, a: Answers) {
    forall d, b :: Gives(o, a, d, b) ==> d == db && b == base
  }

  lemma EndedIsWhole(o: Origin, db: Db, base: Sha, a: Answers)
    ensures Ended(o, db, base, a) <==> (db, base) == Whole(o, a)
  {
    assert Gives(o, a, Whole(o, a).0, Whole(o, a).1);
  }

  /** The candidate was tested and abandoned as failed; its left half is to be opened. */
  ghost predicate Halved(o: Origin, db: Db, c: CandidateId, left: seq<EntryId>, a: Answers) {
    exists job, tested ::
      && Assembled(o, job, tested, a.tip) && c == job.candidate && a == UNHEARD.(tip := a.tip)
      && |PickIds(job.picks)| >= 2 && left == PickIds(job.picks)[..|job.picks| / 2]
      && db == Tables.Abandoned(tested, c, CandidateState.Failed)
  }

  ghost predicate Gated(o: Origin, job: Job, tips: seq<Sha>, db: Db, a: Answers) {
    tips != [] && tips[|tips| - 1] == a.tip && Assembled(o, job, db, a.tip)
  }

  /** The candidate was gated from a base that has moved, or its failure was an interruption. */
  ghost predicate NoVerdict(o: Origin, job: Job, db: Db, a: Answers) {
    || (OnIt(o, job) && job.base != o.base && db == Tables0(o) && a == UNHEARD)
    || (Assembled(o, job, db, a.tip) && a == UNHEARD.(tip := a.tip, interrupted := true))
  }

  ghost predicate Conflicted(o: Origin, job: Job, culprit: EntryId, db: Db, a: Answers) {
    && OnIt(o, job) && job.base == o.base && db == Tables0(o)
    && a.conflict.Some? && a == UNHEARD.(conflict := a.conflict)
    && a.conflict.value < |job.picks| && PickIds(job.picks)[a.conflict.value] == culprit
  }

  ghost predicate FailedAlone(o: Origin, job: Job, culprit: EntryId, db: Db, a: Answers) {
    Assembled(o, job, db, a.tip) && PickIds(job.picks) == [culprit] && a == UNHEARD.(tip := a.tip)
  }

  predicate Over(phase: Phase) {
    phase.Announcing? || phase.Releasing?
  }

  /** What the tables, the base and the answers are when the tick has come to this phase. */
  ghost predicate Stage(o: Origin, db: Db, ref: Sha, phase: Phase, a: Answers) {
    if Over(phase) then Ended(o, db, ref, a) else Underway(o, db, ref, phase, a)
  }

  ghost predicate Underway(o: Origin, db: Db, ref: Sha, phase: Phase, a: Answers) {
    match phase
    case Ready => db == o.db && ref == o.base && a == UNHEARD
    case Based(base, config) => db == o.db && ref == o.base && a == UNHEARD && base == o.base && config == o.config
    case Opening(base, config, batch, parent) =>
      && base == o.base && config == o.config && ref == o.base
      && (if parent.None? then
            && db == o.db && a == UNHEARD && ActiveCandidate(db, o.queue).None?
            && PickIds(batch) == Ranking.SelectBatch(db, o.queue, config.maxBatch) != []
          else Halved(o, db, parent.value, PickIds(batch), a))
    case Assembling(job, _) => OnIt(o, job) && job.base == o.base && db == Tables0(o) && ref == o.base && a == UNHEARD
    case Gating(job, tips) => Gated(o, job, tips, db, a) && ref == o.base && a == UNHEARD.(tip := a.tip)
    case Judged(job, tips, passed) => Gated(o, job, tips, db, a) && ref == o.base
      && a == UNHEARD.(tip := a.tip, passed := passed)
    case Discarding(job, split) =>
      && ref == o.base
      && (if split
          then Assembled(o, job, db, a.tip) && |job.picks| >= 2 && a == UNHEARD.(tip := a.tip)
          else NoVerdict(o, job, db, a))
    case Blaming(job, culprit, fault) =>
      && ref == o.base
      && ((fault == CONFLICTS && Conflicted(o, job, culprit, db, a))
          || (fault == FAILED_ALONE && FailedAlone(o, job, culprit, db, a)))
    case Moved(job, tip) => Assembled(o, job, db, a.tip) && tip == a.tip == ref
      && a == UNHEARD.(tip := a.tip, passed := true)
    case _ => false
  }

  // ----- ends of a tick

  lemma EndsWith(o: Origin, job: Job, db: Db, base: Sha, a: Answers)
    requires OnIt(o, job)
    requires var (db', out) := Work(Tables0(o), o.queue, job.candidate, o.base, o.config, a);
             db == db' && base == Termination.NextBase(o.base, out)
    ensures Ended(o, db, base, a)
  {
    AdvanceIsWork(o.db, o.queue, o.base, o.config, a);
    EndedIsWhole(o, db, base, a);
  }

  lemma MarkedIds(db: Db, c: CandidateId, tip: Sha)
    requires c < |db.candidates|
    ensures Ids(UnderTest(db, c, tip).candidates[c]) == Ids(db.candidates[c])
  {
  }

  lemma LandingEnds(o: Origin, job: Job, db: Db, a: Answers)
    requires Assembled(o, job, db, a.tip) && a == UNHEARD.(tip := a.tip, passed := true)
    ensures Ended(o, Tables.Landed(db, job.candidate), a.tip, a)
  {
    EndsWith(o, job, Tables.Landed(db, job.candidate), a.tip, a);
  }

  lemma DiscardingEnds(o: Origin, job: Job, db: Db, a: Answers)
    requires NoVerdict(o, job, db, a)
    ensures Ended(o, Tables.Abandoned(db, job.candidate, Superseded), o.base, a)
  {
    EndsWith(o, job, Tables.Abandoned(db, job.candidate, Superseded), o.base, a);
  }

  lemma ConflictEnds(o: Origin, job: Job, culprit: EntryId, db: Db, a: Answers)
    requires Conflicted(o, job, culprit, db, a)
    ensures Ended(o, Tables.Blamed(db, job.candidate, culprit, o.config.maxAttempts, CONFLICTS), o.base, a)
  {
    assert Ids(Tables0(o).candidates[job.candidate])[a.conflict.value] == culprit;
    EndsWith(o, job, Tables.Blamed(db, job.candidate, culprit, o.config.maxAttempts, CONFLICTS), o.base, a);
  }

  lemma LoneFailureEnds(o: Origin, job: Job, culprit: EntryId, db: Db, a: Answers)
    requires FailedAlone(o, job, culprit, db, a)
    ensures Ended(o, Tables.Blamed(db, job.candidate, culprit, o.config.maxAttempts, FAILED_ALONE), o.base, a)
  {
    MarkedIds(Tables0(o), job.candidate, a.tip);
    assert Bisection.Decide([culprit]) == Ok(Bisection.Culprit(culprit));
    EndsWith(o, job, Tables.Blamed(db, job.candidate, culprit, o.config.maxAttempts, FAILED_ALONE), o.base, a);
  }

  lemma SplitEnds(o: Origin, db: Db, c: CandidateId, left: seq<EntryId>, a: Answers)
    requires Halved(o, db, c, left, a)
    ensures Ended(o, Opened(db, o.queue, o.base, left, Some(c)), o.base, a)
  {
    var job, tested :|
      && Assembled(o, job, tested, a.tip) && c == job.candidate && a == UNHEARD.(tip := a.tip)
      && |PickIds(job.picks)| >= 2 && left == PickIds(job.picks)[..|job.picks| / 2]
      && db == Tables.Abandoned(tested, c, CandidateState.Failed);
    MarkedIds(Tables0(o), c, a.tip);
    var ids := Ids(tested.candidates[c]);
    assert Bisection.Decide(ids) == Ok(Bisection.Bisect(ids[..|ids| / 2], ids[|ids| / 2..]));
    EndsWith(o, job, Opened(db, o.queue, o.base, left, Some(c)), o.base, a);
  }

  // ----- each step

  /** This worker is on this queue, at this stage of the tick. */
  ghost predicate At(o: Origin, w: World, p: Pid, a: Answers) {
    Ticks(w, p) && w.procs[p].queue == o.queue && o.queue in w.refs
        && Stage(o, w.db, w.refs[o.queue], w.procs[p].phase, a)
  }

  /** After this step the worker is at a stage again, with what it has heard by then. */
  ghost predicate StepsOn(env: Env, o: Origin, w: World, p: Pid, act: Action, a: Answers) {
    At(o, StepBy(env, w, p, act), p, Heard(w, p, act, a))
  }

  lemma ChosenStage(o: Origin)
    requires TableInv(o.db)
    ensures Stage(o, o.db, o.base, Chosen(o.db, o.queue, o.base, o.config), UNHEARD)
  {
    var active := ActiveCandidate(o.db, o.queue);
    if active.Some? {
      var ids := Ids(o.db.candidates[active.value]);
      assert Sound(o.db.entries, o.db.candidates[active.value]);
      assert forall i :: 0 <= i < |ids| ==> ids[i] in ids;
      assert PickIds(Picks(o.db.entries, ids)) == ids;
    } else {
      var batch := Ranking.SelectBatch(o.db, o.queue, o.config.maxBatch);
      assert PickIds(Picks(o.db.entries, batch)) == batch;
    }
  }

  lemma ReadStage(env: Env, o: Origin, w: World, p: Pid, a: Answers)
    requires At(o, w, p, a) && env.configs(o.base) == Some(o.config)
    ensures At(o, StepReadBase(env, w, p), p, a)
  {
  }

  lemma ChooseStage(o: Origin, w: World, p: Pid, a: Answers)
    requires At(o, w, p, a) && Sane(w)
    ensures At(o, StepChoose(w, p), p, a)
  {
    if w.procs[p].phase.Based? { ChosenStage(o); }
  }

  lemma FirstOpened(o: Origin, batch: seq<Pick>)
    requires ActiveCandidate(o.db, o.queue).None?
    requires PickIds(batch) == Ranking.SelectBatch(o.db, o.queue, o.config.maxBatch) != []
    ensures OnIt(o, Job(|o.db.candidates|, o.base, o.config, batch))
    ensures Opened(o.db, o.queue, o.base, PickIds(batch), None) == Tables0(o)
  {
    assert Ids(Tables0(o).candidates[|o.db.candidates|]) == PickIds(batch);
  }

  lemma OpenStage(o: Origin, w: World, p: Pid, a: Answers)
    requires At(o, w, p, a) && Sane(w)
    ensures At(o, StepOpen(w, p), p, a)
  {
    if w.procs[p].phase.Opening? {
      OpeningAt(o, w, p, a);
      OpeningMoves(o, w, p, w.procs[p].phase, a);
    }
  }

  lemma OpeningAt(o: Origin, w: World, p: Pid, a: Answers)
    requires At(o, w, p, a) && w.procs[p].phase.Opening?
    ensures Underway(o, w.db, w.refs[o.queue], w.procs[p].phase, a)
  {
  }

  lemma OpeningMoves(o: Origin, w: World, p: Pid, phase: Phase, a: Answers)
    requires Sane(w) && Ticks(w, p) && w.procs[p].queue == o.queue && w.procs[p].phase == phase && phase.Opening?
    requires o.queue in w.refs && Underway(o, w.db, w.refs[o.queue], phase, a)
    ensures At(o, StepOpen(w, p), p, a)
  {
    assert PhaseFits(w.db, o.queue, phase);
    if phase.parent.None? {
      FirstOpened(o, phase.batch);
      WasOpened(o, w, p, Assembling(Job(|o.db.candidates|, o.base, o.config, phase.batch), []), Tables0(o), a);
    } else {
      SplitEnds(o, w.db, phase.parent.value, PickIds(phase.batch), a);
      WasOpened(o, w, p, Releasing, Opened(w.db, o.queue, o.base, PickIds(phase.batch), phase.parent), a);
    }
  }

  lemma WasOpened(o: Origin, w: World, p: Pid, phase: Phase, db: Db, a: Answers)
    requires Ticks(w, p) && w.procs[p].queue == o.queue && o.queue in w.refs && Stage(o, db, w.refs[o.queue], phase, a)
    ensures At(o, Goto(w, p, phase).(db := db), p, a)
  {
  }

  lemma CheckoutStage(o: Origin, w: World, p: Pid, a: Answers)
    requires At(o, w, p, a)
    ensures At(o, StepCheckout(w, p), p, a)
  {
  }

  lemma MergeStage(o: Origin, w: World, p: Pid, result: Option<Sha>, a: Answers)
    requires At(o, w, p, a)
    ensures At(o, StepMerge(w, p, result), p, Heard(w, p, Merge(result), a))
  {
  }

  lemma MovedWith(o: Origin, w: World, p: Pid, phase: Phase, db: Db, a: Answers)
    requires Ticks(w, p) && w.procs[p].queue == o.queue && o.queue in w.refs && Stage(o, db, w.refs[o.queue], phase, a)
    ensures At(o, Goto(w, p, phase).(db := db), p, a)
  {
  }

  lemma MarkedStage(o: Origin, db: Db, ref: Sha, job: Job, tips: seq<Sha>, a: Answers)
    requires Stage(o, db, ref, Assembling(job, tips), a) && tips != []
    ensures var tip := tips[|tips| - 1];
            Stage(o, UnderTest(db, job.candidate, tip), ref, Gating(job, tips), a.(tip := tip))
  {
  }

  lemma MarkStage(o: Origin, w: World, p: Pid, a: Answers)
    requires At(o, w, p, a)
    ensures At(o, StepMarkTesting(w, p), p, Heard(w, p, MarkTesting, a))
  {
    var phase := w.procs[p].phase;
    if phase.Assembling? && |phase.tips| == |phase.job.picks| + 1 {
      var tip := phase.tips[|phase.tips| - 1];
      MarkedStage(o, w.db, w.refs[o.queue], phase.job, phase.tips, a);
      MovedWith(o, w, p, Gating(phase.job, phase.tips), UnderTest(w.db, phase.job.candidate, tip), a.(tip := tip));
    }
  }

  lemma GateStage(o: Origin, w: World, p: Pid, passed: bool, a: Answers)
    requires At(o, w, p, a)
    ensures At(o, StepGate(w, p, passed), p, Heard(w, p, Gate(passed), a))
  {
  }

  lemma PassedAt(o: Origin, db: Db, ref: Sha, job: Job, tips: seq<Sha>, a: Answers)
    requires Stage(o, db, ref, Judged(job, tips, true), a)
    ensures Gated(o, job, tips, db, a) && a == UNHEARD.(tip := a.tip, passed := true) && ref == o.base
  {
  }

  lemma LandedAt(o: Origin, w: World, p: Pid, job: Job, tips: seq<Sha>, a: Answers)
    requires Ticks(w, p) && w.procs[p].queue == o.queue && w.procs[p].phase == Judged(job, tips, true)
    requires o.queue in w.refs && w.refs[o.queue] == o.base && Gated(o, job, tips, w.db, a)
             && a == UNHEARD.(tip := a.tip, passed := true)
    ensures At(o, StepFastForward(w, p), p, a)
  {
    var w' := StepFastForward(w, p);
    assert w'.procs == Goto(w, p, Moved(job, a.tip)).procs && w'.refs[o.queue] == a.tip && w'.db == w.db;
  }

  lemma FastForwardStage(o: Origin, w: World, p: Pid, a: Answers)
    requires At(o, w, p, a)
    ensures At(o, StepFastForward(w, p), p, a)
  {
    if w.procs[p].phase.Judged? && w.procs[p].phase.passed {
      PassedAt(o, w.db, w.refs[o.queue], w.procs[p].phase.job, w.procs[p].phase.tips, a);
      LandedAt(o, w, p, w.procs[p].phase.job, w.procs[p].phase.tips, a);
    }
  }

  lemma DecidedStage(o: Origin, db: Db, job: Job, tips: seq<Sha>, interrupted: bool, a: Answers)
    requires Gated(o, job, tips, db, a) && a == UNHEARD.(tip := a.tip) && job.picks != []
    ensures Stage(o, db, o.base, Decided(job, interrupted), a.(interrupted := interrupted))
  {
    assert |PickIds(job.picks)| == |job.picks|;
  }

  /** A worker's candidate is never empty. */
  lemma JobHasPicks(db: Db, q: Queue, job: Job, tips: seq<Sha>, passed: bool)
    requires TableInv(db) && PhaseFits(db, q, Judged(job, tips, passed))
    ensures job.picks != []
  {
    assert Sound(db.entries, db.candidates[job.candidate]);
    assert |job.picks| == |PickIds(job.picks)| >= 1;
  }

  lemma MovedOn(o: Origin, w: World, p: Pid, phase: Phase, a: Answers)
    requires Ticks(w, p) && w.procs[p].queue == o.queue && o.queue in w.refs
             && Stage(o, w.db, w.refs[o.queue], phase, a)
    ensures At(o, Goto(w, p, phase), p, a)
  {
  }

  lemma JudgedAt(o: Origin, db: Db, ref: Sha, job: Job, tips: seq<Sha>, a: Answers)
    requires Stage(o, db, ref, Judged(job, tips, false), a)
    ensures Gated(o, job, tips, db, a) && a == UNHEARD.(tip := a.tip) && ref == o.base
  {
  }

  lemma DecideStage(o: Origin, w: World, p: Pid, interrupted: bool, a: Answers)
    requires At(o, w, p, a) && Sane(w)
    ensures At(o, StepDecide(w, p, interrupted), p, Heard(w, p, Decide(interrupted), a))
  {
    if w.procs[p].phase.Judged? && !w.procs[p].phase.passed {
      JudgedAt(o, w.db, w.refs[o.queue], w.procs[p].phase.job, w.procs[p].phase.tips, a);
      JudgedMoves(o, w, p, w.procs[p].phase.job, w.procs[p].phase.tips, interrupted, a);
    }
  }

  lemma JudgedMoves(o: Origin, w: World, p: Pid, job: Job, tips: seq<Sha>, interrupted: bool, a: Answers)
    requires Sane(w) && Ticks(w, p) && w.procs[p].queue == o.queue && w.procs[p].phase == Judged(job, tips, false)
    requires o.queue in w.refs && w.refs[o.queue] == o.base && Gated(o, job, tips, w.db, a)
             && a == UNHEARD.(tip := a.tip)
    ensures At(o, Goto(w, p, Decided(job, interrupted)), p, a.(interrupted := interrupted))
  {
    JobHasPicks(w.db, o.queue, job, tips, false);
    DecidedStage(o, w.db, job, tips, interrupted, a);
    MovedOn(o, w, p, Decided(job, interrupted), a.(interrupted := interrupted));
  }

  /** Only a candidate that was tested is split. */
  lemma SplittingHasFailed(o: Origin, db: Db, ref: Sha, job: Job, a: Answers)
    requires Stage(o, db, ref, Discarding(job, true), a)
    ensures Assembled(o, job, db, a.tip) && |job.picks| >= 2 && a == UNHEARD.(tip := a.tip) && ref == o.base
  {
  }

  lemma HalfOfJob(db: Db, q: Queue, job: Job)
    requires TableInv(db) && Working(db, q, job) && |job.picks| >= 2
    ensures PickIds(LeftHalf(job.picks)) == PickIds(job.picks)[..|PickIds(job.picks)| / 2]
  {
    assert Sound(db.entries, db.candidates[job.candidate]);
    LeftHalfIs(job.picks);
  }

  lemma SplitIsHalved(o: Origin, db: Db, job: Job, left: seq<EntryId>, a: Answers)
    requires Assembled(o, job, db, a.tip) && |job.picks| >= 2 && a == UNHEARD.(tip := a.tip)
    requires left == PickIds(job.picks)[..|PickIds(job.picks)| / 2]
    ensures Halved(o, Tables.Abandoned(db, job.candidate, CandidateState.Failed), job.candidate, left, a)
  {
  }

  lemma DiscardingHasNone(o: Origin, db: Db, ref: Sha, job: Job, a: Answers)
    requires Stage(o, db, ref, Discarding(job, false), a)
    ensures NoVerdict(o, job, db, a) && ref == o.base
  {
  }

  predicate Discards(o: Origin, w: World, p: Pid, job: Job, split: bool) {
    && Ticks(w, p) && w.procs[p].queue == o.queue && w.procs[p].phase == Discarding(job, split)
    && o.queue in w.refs && w.refs[o.queue] == o.base
  }

  lemma SplitOn(env: Env, o: Origin, w: World, p: Pid, job: Job, db: Db, a: Answers)
    requires Discards(o, w, p, job, true) && job.base == o.base && job.config == o.config
    requires Halved(o, db, job.candidate, PickIds(LeftHalf(job.picks)), a)
    ensures At(o, Goto(w, p, Opening(job.base, job.config, LeftHalf(job.picks), Some(job.candidate))).(db := db), p, a)
  {
    MovedWith(o, w, p, Opening(job.base, job.config, LeftHalf(job.picks), Some(job.candidate)), db, a);
  }

  lemma DiscardOn(env: Env, o: Origin, w: World, p: Pid, job: Job, db: Db, a: Answers)
    requires Discards(o, w, p, job, false) && Ended(o, db, o.base, a)
    ensures At(o, Goto(w, p, Releasing).(db := db), p, a)
  {
    MovedWith(o, w, p, Releasing, db, a);
  }

  lemma AbandonStage(env: Env, o: Origin, w: World, p: Pid, a: Answers)
    requires At(o, w, p, a) && Sane(w)
    ensures StepsOn(env, o, w, p, StoreAbandon, a)
  {
    var phase := w.procs[p].phase;
    if !phase.Discarding? {
    } else if phase.split {
      SplittingHasFailed(o, w.db, w.refs[o.queue], phase.job, a);
      HalfOfJob(w.db, o.queue, phase.job);
      SplitIsHalved(o, w.db, phase.job, PickIds(LeftHalf(phase.job.picks)), a);
      SplitOn(env, o, w, p, phase.job, Tables.Abandoned(w.db, phase.job.candidate, CandidateState.Failed), a);
    } else {
      DiscardingHasNone(o, w.db, w.refs[o.queue], phase.job, a);
      DiscardingEnds(o, phase.job, w.db, a);
      DiscardOn(env, o, w, p, phase.job, Tables.Abandoned(w.db, phase.job.candidate, Superseded), a);
    }
  }

  lemma LandStage(o: Origin, w: World, p: Pid, a: Answers)
    requires At(o, w, p, a)
    ensures At(o, StepStoreLand(w, p), p, a)
  {
    if w.procs[p].phase.Moved? { LandingEnds(o, w.procs[p].phase.job, w.db, a); }
  }

  lemma BlamingHasCause(o: Origin, db: Db, ref: Sha, job: Job, culprit: EntryId, fault: string, a: Answers)
    requires Stage(o, db, ref, Blaming(job, culprit, fault), a)
    ensures ref == o.base && job.config == o.config
    ensures || (fault == CONFLICTS && Conflicted(o, job, culprit, db, a))
            || (fault == FAILED_ALONE && FailedAlone(o, job, culprit, db, a))
  {
  }

  lemma BlamingEnds(o: Origin, db: Db, ref: Sha, job: Job, culprit: EntryId, fault: string, a: Answers)
    requires Stage(o, db, ref, Blaming(job, culprit, fault), a)
    ensures Ended(o, Tables.Blamed(db, job.candidate, culprit, job.config.maxAttempts, fault), ref, a)
  {
    BlamingHasCause(o, db, ref, job, culprit, fault, a);
    if fault == CONFLICTS && Conflicted(o, job, culprit, db, a) {
      ConflictEnds(o, job, culprit, db, a);
    } else {
      LoneFailureEnds(o, job, culprit, db, a);
    }
  }

  lemma BlameStage(env: Env, o: Origin, w: World, p: Pid, a: Answers)
    requires At(o, w, p, a)
    ensures StepsOn(env, o, w, p, StoreBlame, a)
  {
    var phase := w.procs[p].phase;
    if phase.Blaming? {
      BlamingEnds(o, w.db, w.refs[o.queue], phase.job, phase.culprit, phase.fault, a);
    }
  }

  lemma AnnounceStage(o: Origin, w: World, p: Pid, a: Answers)
    requires At(o, w, p, a)
    ensures At(o, StepAnnounce(w, p), p, a)
  {
  }

  lemma BuildStage(env: Env, o: Origin, w: World, p: Pid, act: Action, a: Answers)
    requires At(o, w, p, a) && env.configs(o.base) == Some(o.config) && Sane(w)
             && (Chooses(act) || act.Open? || Assembles(act))
    ensures StepsOn(env, o, w, p, act, a)
  {
    match act {
      case ReadBase => ReadStage(env, o, w, p, a);
      case Choose => ChooseStage(o, w, p, a);
      case Open => OpenStage(o, w, p, a);
      case Checkout => CheckoutStage(o, w, p, a);
      case Merge(result) => MergeStage(o, w, p, result, a);
    }
  }

  lemma TestStage(env: Env, o: Origin, w: World, p: Pid, act: Action, a: Answers)
    requires At(o, w, p, a) && Sane(w) && (Gates(act) || Lands(act))
    ensures StepsOn(env, o, w, p, act, a)
  {
    match act {
      case MarkTesting => MarkStage(o, w, p, a);
      case Gate(passed) => GateStage(o, w, p, passed, a);
      case FastForward => FastForwardStage(o, w, p, a);
      case StoreLand => LandStage(o, w, p, a);
    }
  }

  lemma DecideOn(env: Env, o: Origin, w: World, p: Pid, interrupted: bool, a: Answers)
    requires At(o, w, p, a) && Sane(w)
    ensures StepsOn(env, o, w, p, Decide(interrupted), a)
  {
    DecideStage(o, w, p, interrupted, a);
  }

  lemma AnnounceOn(env: Env, o: Origin, w: World, p: Pid, a: Answers)
    requires At(o, w, p, a)
    ensures StepsOn(env, o, w, p, Announce, a)
  {
    AnnounceStage(o, w, p, a);
  }

  lemma ConcludeStage(env: Env, o: Origin, w: World, p: Pid, act: Action, a: Answers)
    requires At(o, w, p, a) && Sane(w) && Concludes(act)
    ensures StepsOn(env, o, w, p, act, a)
  {
    match act {
      case Decide(interrupted) => DecideOn(env, o, w, p, interrupted, a);
      case StoreAbandon => AbandonStage(env, o, w, p, a);
      case StoreBlame => BlameStage(env, o, w, p, a);
      case Announce => AnnounceOn(env, o, w, p, a);
    }
  }

  lemma WorkStage(env: Env, o: Origin, w: World, p: Pid, act: Action, a: Answers)
    requires At(o, w, p, a) && env.configs(o.base) == Some(o.config) && Sane(w) && Works(act)
    ensures At(o, StepBy(env, w, p, act), p, Heard(w, p, act, a))
  {
    if Concludes(act) {
      ConcludeStage(env, o, w, p, act, a);
    } else if Gates(act) || Lands(act) {
      TestStage(env, o, w, p, act, a);
    } else {
      BuildStage(env, o, w, p, act, a);
    }
  }

  // ----- the whole tick

  /** Nothing but this worker's own steps. */
  ghost predicate Solo(events: seq<Event>, p: Pid) {
    forall i :: 0 <= i < |events| ==> events[i].By? && events[i].pid == p && Works(events[i].act)
  }

  ghost predicate Begins(env: Env, o: Origin, w: World, p: Pid) {
    && Ticks(w, p) && w.procs[p].phase.Ready? && w.procs[p].queue == o.queue && w.db == o.db
    && o.queue in w.refs && w.refs[o.queue] == o.base && env.configs(o.base) == Some(o.config)
  }

  lemma OneMoreStage(env: Env, w: World, all: seq<Event>, e: Event, p: Pid, o: Origin, a: Answers)
    requires Initial(w) && DisciplinedRun(env, w, all) && env.configs(o.base) == Some(o.config)
    requires At(o, Run(env, w, all), p, a) && e.By? && e.pid == p && Works(e.act)
    ensures At(o, Run(env, w, all + [e]), p, Heard(Run(env, w, all), p, e.act, a))
  {
    RunFits(env, w, all);
    RunSnoc(env, w, all, e);
    WorkStage(env, o, Run(env, w, all), p, e.act, a);
  }

  lemma DisciplinedButLast(env: Env, w: World, all: seq<Event>, e: Event)
    requires DisciplinedRun(env, w, all + [e])
    ensures DisciplinedRun(env, w, all)
  {
    assert (all + [e])[..|all|] == all;
  }

  lemma SoloStageSnoc(env: Env, w: World, before: seq<Event>, events: seq<Event>, e: Event, p: Pid, o: Origin)
    requires Initial(w) && DisciplinedRun(env, w, before + events) && env.configs(o.base) == Some(o.config)
    requires At(o, Run(env, w, before + events), p, AnswersOf(env, w, before, events, p))
    requires e.By? && e.pid == p && Works(e.act)
    ensures At(o, Run(env, w, before + (events + [e])), p, AnswersOf(env, w, before, events + [e], p))
  {
    assert before + (events + [e]) == (before + events) + [e] && (events + [e])[..|events|] == events;
    OneMoreStage(env, w, before + events, e, p, o, AnswersOf(env, w, before, events, p));
  }

  lemma {:induction false} SoloStage(env: Env, w: World, before: seq<Event>, events: seq<Event>, p: Pid, o: Origin)
    requires Initial(w) && DisciplinedRun(env, w, before + events) && Solo(events, p)
    requires Begins(env, o, Run(env, w, before), p)
    ensures At(o, Run(env, w, before + events), p, AnswersOf(env, w, before, events, p))
    decreases |events|
  {
    if events == [] {
      assert before + events == before;
    } else {
      var n := |events| - 1;
      assert events == events[..n] + [events[n]];
      assert before + events == (before + events[..n]) + [events[n]];
      DisciplinedButLast(env, w, before + events[..n], events[n]);
      SoloStage(env, w, before, events[..n], p, o);
      SoloStageSnoc(env, w, before, events[..n], events[n], p, o);
    }
  }

  /**
   Whenever such a tick has finished its work, the tables and the base are those
   one whole Advance leaves, given the answers the steps of this tick got.
   */
  lemma SoloTickIsAdvance(env: Env, w: World, before: seq<Event>, events: seq<Event>, p: Pid, o: Origin)
    requires Initial(w) && DisciplinedRun(env, w, before + events) && Solo(events, p)
    requires Begins(env, o, Run(env, w, before), p)
    requires var end := Run(env, w, before + events); Ticks(end, p) && Over(end.procs[p].phase)
    ensures var end := Run(env, w, before + events);
            o.queue in end.refs && (end.db, end.refs[o.queue]) == Whole(o, AnswersOf(env, w, before, events, p))
  {
    SoloStage(env, w, before, events, p, o);
    AtEnd(o, Run(env, w, before + events), p, AnswersOf(env, w, before, events, p));
  }

  lemma AtEnd(o: Origin, w: World, p: Pid, a: Answers)
    requires At(o, w, p, a) && Over(w.procs[p].phase)
    ensures (w.db, w.refs[o.queue]) == Whole(o, a)
  {
    EndedIsWhole(o, w.db, w.refs[o.queue], a);
  }
}
