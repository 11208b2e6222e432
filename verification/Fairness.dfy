/**
 Nobody pays for what somebody else did. If git and the gate go by what is wrong
 with each entry, then in every run whatever, with pushes, crashes, reclaims,
 lost leases and interruptions anywhere, no entry with nothing wrong is ever
 charged or thrown out, and none with something wrong is ever merged.
 */
module Fairness {
  import opened Vocabulary
  import opened States
  import opened Tables
  import TableInvariant
  import opened Protocol
  import BaseSafety
  import opened Drain

  // ----- answers that go by the trial

  ghost predicate NoneIn(ids: seq<EntryId>, marked: set<EntryId>) {
    forall i :: 0 <= i < |ids| ==> ids[i] !in marked
  }

  /** The entry a worker is about to merge. */
  function NextPick(w: World, p: Pid): EntryId
    requires Merging(w, p)
  {
    w.procs[p].phase.job.picks[|w.procs[p].phase.tips| - 1].id
  }

  /**
   Exactly the conflicting entries conflict, nothing faulty passes the gate, and a
   failure taken for a verdict has a fault in it.
   */
  ghost predicate Faithful(trial: Trial, w: World, e: Event) {
    e.By? && Ticks(w, e.pid) ==>
      && (e.act.Merge? && Merging(w, e.pid) ==> (e.act.result.None? <==> NextPick(w, e.pid) in trial.conflicting))
      && (e.act.Gate? && e.act.passed && w.procs[e.pid].phase.Gating? ==>
            NoneIn(PickIds(w.procs[e.pid].phase.job.picks), trial.faulty))
      && (e.act.Decide? && !e.act.interrupted && w.procs[e.pid].phase.Judged? && !w.procs[e.pid].phase.passed ==>
            !NoneIn(PickIds(w.procs[e.pid].phase.job.picks), trial.faulty))
  }

  ghost predicate FaithfulRun(env: Env, w: World, events: seq<Event>, trial: Trial) {
    events == [] ||
    (var n := |events| - 1;
     FaithfulRun(env, w, events[..n], trial) && Faithful(trial, Run(env, w, events[..n]), events[n]))
  }

  // ----- the invariant

  predicate Spared(row: EntryRow) {
    row.attempts == 0 && (row.state.Evicted? ==> row.reason == Some(REMOVED_BY_HAND))
  }

  ghost predicate FairTables(trial: Trial, db: Db) {
    && (forall e :: 0 <= e < |db.entries| && trial.Innocent(e) ==> Spared(db.entries[e]))
    && (forall e :: 0 <= e < |db.entries| && !trial.Innocent(e) ==> !db.entries[e].state.Merged?)
    && (forall c, i ::
          0 <= c < |db.candidates| && 0 <= i < |db.candidates[c].members|
          && db.candidates[c].members[i].outcome.Culprit? ==>
          !trial.Innocent(db.candidates[c].members[i].entry))
  }

  ghost predicate AllInnocent(trial: Trial, ids: seq<EntryId>) {
    forall i :: 0 <= i < |ids| ==> trial.Innocent(ids[i])
  }

  ghost predicate FairPhase(trial: Trial, phase: Phase) {
    match phase
    case Assembling(job, tips) => tips != [] ==>
      |tips| <= |job.picks| + 1 && NoneIn(PickIds(job.picks)[..|tips| - 1], trial.conflicting)
    case Gating(job, _) => NoneIn(PickIds(job.picks), trial.conflicting)
    case Judged(job, _, passed) => NoneIn(PickIds(job.picks), trial.conflicting)
      && (passed ==> NoneIn(PickIds(job.picks), trial.faulty))
    case Blaming(_, culprit, _) => !trial.Innocent(culprit)
    case Moved(job, _) => AllInnocent(trial, PickIds(job.picks))
    case _ => true
  }

  ghost predicate Fair(trial: Trial, w: World) {
    FairTables(trial, w.db) && forall p :: Ticks(w, p) ==> FairPhase(trial, w.procs[p].phase)
  }

  // ----- transactions

  lemma OpenIsFair(trial: Trial, db: Db, q: Queue, base: Sha, batch: seq<EntryId>, parent: Option<CandidateId>)
    requires FairTables(trial, db)
    ensures FairTables(trial, Opened(db, q, base, batch, parent))
  {
  }

  lemma TestIsFair(trial: Trial, db: Db, c: CandidateId, tip: Sha)
    requires FairTables(trial, db)
    ensures FairTables(trial, UnderTest(db, c, tip))
  {
  }

  lemma AbandonIsFair(trial: Trial, db: Db, c: CandidateId, to: CandidateState)
    requires FairTables(trial, db)
    ensures FairTables(trial, Abandoned(db, c, to))
  {
  }

  lemma ReclaimIsFair(trial: Trial, db: Db, q: Queue)
    requires FairTables(trial, db)
    ensures FairTables(trial, Reclaimed(db, q))
  {
  }

  lemma LandIsFair(trial: Trial, db: Db, c: CandidateId)
    requires FairTables(trial, db) && (c < |db.candidates| ==> AllInnocent(trial, Ids(db.candidates[c])))
    ensures FairTables(trial, Landed(db, c))
  {
  }

  lemma BlameIsFair(trial: Trial, db: Db, c: CandidateId, culprit: EntryId, maxAttempts: nat, fault: string)
    requires FairTables(trial, db) && !trial.Innocent(culprit)
    ensures FairTables(trial, Blamed(db, c, culprit, maxAttempts, fault))
  {
  }

  lemma HandsAreFair(trial: Trial, w: World, what: Happening)
    requires FairTables(trial, w.db)
    ensures FairTables(trial, StepAround(w, what).db)
  {
  }

  // ----- events

  /** One worker's phase, and the tables, are all there is to look at. */
  lemma OneFair(trial: Trial, w: World, w': World, p: Pid)
    requires Fair(trial, w) && FairTables(trial, w'.db)
    requires forall o :: o != p && o in w'.procs ==> o in w.procs && w'.procs[o] == w.procs[o]
    requires Ticks(w', p) ==> FairPhase(trial, w'.procs[p].phase)
    ensures Fair(trial, w')
  {
  }

  lemma EdgeIsFair(env: Env, trial: Trial, w: World, p: Pid, act: Action)
    requires Fair(trial, w) && Edges(act)
    ensures Fair(trial, StepBy(env, w, p, act))
  {
    EdgeIsAtEdge(env, w, p, act);
    if act.Acquire? {
      if p in w.procs && w.procs[p].Asking? {
        AcquireOrRest(env, w, p, act.gone, act.token);
        ReclaimIsFair(trial, w.db, w.procs[p].queue);
      }
    } else {
      EdgeKeepsTables(env, w, p, act);
    }
    OneFair(trial, w, StepBy(env, w, p, act), p);
  }

  /** Only this worker's phase changed, to one that promises nothing. */
  lemma LetGoIsFair(trial: Trial, w: World, w': World, p: Pid)
    requires Fair(trial, w) && w'.db == w.db && Ticks(w, p) && Ticks(w', p)
    requires w'.procs == Goto(w, p, w'.procs[p].phase).procs && FairPhase(trial, w'.procs[p].phase)
    ensures Fair(trial, w')
  {
    OneFair(trial, w, w', p);
  }

  lemma ChosenIsFair(trial: Trial, db: Db, q: Queue, base: Sha, config: Config)
    ensures FairPhase(trial, Chosen(db, q, base, config))
  {
  }

  lemma ChooseIsFair(trial: Trial, w: World, p: Pid)
    requires Fair(trial, w)
    ensures Fair(trial, StepChoose(w, p))
  {
    if Ticks(w, p) && w.procs[p].phase.Based? {
      ChosenIsFair(trial, w.db, w.procs[p].queue, w.procs[p].phase.base, w.procs[p].phase.config);
      LetGoIsFair(trial, w, StepChoose(w, p), p);
    }
  }

  lemma ReadIsFair(env: Env, trial: Trial, w: World, p: Pid)
    requires Fair(trial, w)
    ensures Fair(trial, StepReadBase(env, w, p))
  {
    if Ticks(w, p) && w.procs[p].phase.Ready? { LetGoIsFair(trial, w, StepReadBase(env, w, p), p); }
  }

  lemma PlainIsFair(trial: Trial, w: World, p: Pid)
    requires Fair(trial, w)
    ensures Fair(trial, StepCheckout(w, p)) && Fair(trial, StepAnnounce(w, p))
  {
    if Ticks(w, p) && w.procs[p].phase.Assembling? { LetGoIsFair(trial, w, StepCheckout(w, p), p); }
    if Ticks(w, p) && w.procs[p].phase.Announcing? { LetGoIsFair(trial, w, StepAnnounce(w, p), p); }
  }

  lemma OpenStepIsFair(trial: Trial, w: World, p: Pid)
    requires Fair(trial, w)
    ensures Fair(trial, StepOpen(w, p))
  {
    if Ticks(w, p) && w.procs[p].phase.Opening? {
      var q, phase := w.procs[p].queue, w.procs[p].phase;
      if MayOpen(w.db, PickIds(phase.batch), phase.parent) {
        var job := Job(|w.db.candidates|, phase.base, phase.config, phase.batch);
        var db' := Opened(w.db, q, phase.base, PickIds(phase.batch), phase.parent);
        OpenIsFair(trial, w.db, q, phase.base, PickIds(phase.batch), phase.parent);
        MovedOnIsFair(trial, w, p, if phase.parent.None? then Assembling(job, []) else Releasing, db');
      } else {
        MovedOnIsFair(trial, w, p, Releasing, w.db);
      }
    }
  }

  lemma MovedOnIsFair(trial: Trial, w: World, p: Pid, phase: Phase, db': Db)
    requires Fair(trial, w) && Ticks(w, p) && FairTables(trial, db') && FairPhase(trial, phase)
    ensures Fair(trial, Goto(w, p, phase).(db := db'))
  {
    OneFair(trial, w, Goto(w, p, phase).(db := db'), p);
  }

  lemma MergeIsFair(trial: Trial, w: World, p: Pid, result: Option<Sha>)
    requires Fair(trial, w) && Faithful(trial, w, By(p, Merge(result)))
    ensures Fair(trial, StepMerge(w, p, result))
  {
    if Merging(w, p) {
      var ids, n := PickIds(w.procs[p].phase.job.picks), |w.procs[p].phase.tips|;
      assert ids[..n] == ids[..n - 1] + [ids[n - 1]];
      OneFair(trial, w, StepMerge(w, p, result), p);
    }
  }

  lemma MarkIsFair(trial: Trial, w: World, p: Pid)
    requires Fair(trial, w)
    ensures Fair(trial, StepMarkTesting(w, p))
  {
    if Ticks(w, p) && w.procs[p].phase.Assembling? && |w.procs[p].phase.tips| == |w.procs[p].phase.job.picks| + 1 {
      var phase := w.procs[p].phase;
      assert PickIds(phase.job.picks)[..|phase.tips| - 1] == PickIds(phase.job.picks);
      TestIsFair(trial, w.db, phase.job.candidate, phase.tips[|phase.tips| - 1]);
      OneFair(trial, w, StepMarkTesting(w, p), p);
    }
  }

  lemma GateIsFair(trial: Trial, w: World, p: Pid, passed: bool)
    requires Fair(trial, w) && Faithful(trial, w, By(p, Gate(passed)))
    ensures Fair(trial, StepGate(w, p, passed))
  {
    if Ticks(w, p) { OneFair(trial, w, StepGate(w, p, passed), p); }
  }

  lemma PassedAreInnocent(trial: Trial, ids: seq<EntryId>)
    requires NoneIn(ids, trial.conflicting) && NoneIn(ids, trial.faulty)
    ensures AllInnocent(trial, ids)
  {
  }

  lemma LandingIsFair(trial: Trial, w: World, p: Pid, job: Job, tips: seq<Sha>)
    requires Fair(trial, w) && Ticks(w, p) && w.procs[p].phase == Judged(job, tips, true) && tips != []
    ensures Fair(trial, StepFastForward(w, p))
  {
    PassedAreInnocent(trial, PickIds(job.picks));
    LetGoIsFair(trial, w, StepFastForward(w, p), p);
  }

  lemma FastForwardIsFair(trial: Trial, w: World, p: Pid)
    requires Fair(trial, w)
    ensures Fair(trial, StepFastForward(w, p))
  {
    if Ticks(w, p) && w.procs[p].phase.Judged? && w.procs[p].phase.passed && w.procs[p].phase.tips != [] {
      LandingIsFair(trial, w, p, w.procs[p].phase.job, w.procs[p].phase.tips);
    }
  }

  lemma DecideIsFair(trial: Trial, w: World, p: Pid, interrupted: bool)
    requires Fair(trial, w) && Faithful(trial, w, By(p, Decide(interrupted)))
    ensures Fair(trial, StepDecide(w, p, interrupted))
  {
    if Ticks(w, p) { OneFair(trial, w, StepDecide(w, p, interrupted), p); }
  }

  /** The entries landed are those that were picked, and picked entries under a landing have nothing wrong. */
  lemma StoreLandIsFair(env: Env, trial: Trial, w: World, p: Pid)
    requires Fair(trial, w) && BaseSafety.SafeWorld(env, w)
    ensures Fair(trial, StepStoreLand(w, p))
  {
    if Ticks(w, p) && w.procs[p].phase.Moved? {
      assert BaseSafety.ProcSafe(env, w, p);
      LandIsFair(trial, w.db, w.procs[p].phase.job.candidate);
      OneFair(trial, w, StepStoreLand(w, p), p);
    }
  }

  lemma StoreAbandonIsFair(trial: Trial, w: World, p: Pid)
    requires Fair(trial, w)
    ensures Fair(trial, StepStoreAbandon(w, p))
  {
    if Ticks(w, p) && w.procs[p].phase.Discarding? {
      var phase := w.procs[p].phase;
      AbandonIsFair(trial, w.db, phase.job.candidate, if phase.split then Failed else Superseded);
      OneFair(trial, w, StepStoreAbandon(w, p), p);
    }
  }

  lemma StoreBlameIsFair(trial: Trial, w: World, p: Pid)
    requires Fair(trial, w)
    ensures Fair(trial, StepStoreBlame(w, p))
  {
    if Ticks(w, p) && w.procs[p].phase.Blaming? {
      var phase := w.procs[p].phase;
      BlameIsFair(trial, w.db, phase.job.candidate, phase.culprit, phase.job.config.maxAttempts, phase.fault);
      OneFair(trial, w, StepStoreBlame(w, p), p);
    }
  }

  lemma StepIsFair(env: Env, trial: Trial, w: World, e: Event)
    requires Fair(trial, w) && BaseSafety.SafeWorld(env, w) && Faithful(trial, w, e)
    ensures Fair(trial, Step(env, w, e))
  {
    match e {
      case Around(what) => HandsAreFair(trial, w, what); SurroundingsAreFair(trial, w, what);
      case By(p, act) =>
        match act {
          case Open => OpenStepIsFair(trial, w, p);
          case Merge(result) => MergeIsFair(trial, w, p, result);
          case MarkTesting => MarkIsFair(trial, w, p);
          case Gate(passed) => GateIsFair(trial, w, p, passed);
          case FastForward => FastForwardIsFair(trial, w, p);
          case StoreLand => StoreLandIsFair(env, trial, w, p);
          case Decide(interrupted) => DecideIsFair(trial, w, p, interrupted);
          case StoreAbandon => StoreAbandonIsFair(trial, w, p);
          case StoreBlame => StoreBlameIsFair(trial, w, p);
          case ReadBase => ReadIsFair(env, trial, w, p);
          case Choose => ChooseIsFair(trial, w, p);
          case Checkout => PlainIsFair(trial, w, p);
          case Announce => PlainIsFair(trial, w, p);
          case _ => EdgeIsFair(env, trial, w, p, act);
        }
    }
  }

  lemma SurroundingsAreFair(trial: Trial, w: World, what: Happening)
    requires Fair(trial, w) && FairTables(trial, StepAround(w, what).db)
    ensures Fair(trial, StepAround(w, what))
  {
    OneFair(trial, w, StepAround(w, what), if what.Spawn? then what.pid else 0);
  }

  lemma {:induction false} RunIsFair(env: Env, w: World, events: seq<Event>, trial: Trial)
    requires Initial(w) && FaithfulRun(env, w, events, trial)
    ensures Fair(trial, Run(env, w, events))
  {
    if events != [] {
      var n := |events| - 1;
      RunIsFair(env, w, events[..n], trial);
      BaseSafety.RunSafe(env, w, events[..n]);
      StepIsFair(env, trial, Run(env, w, events[..n]), events[n]);
    }
  }

  /**
   In every run in which git and the gate go by the trial, an innocent entry has
   burnt no attempt, has never been found the culprit and is out of the queue
   without having merged only if a hand removed it; a guilty one has not merged.
   */
  lemma NobodyIsWronged(env: Env, w: World, events: seq<Event>, trial: Trial, e: EntryId)
    requires Initial(w) && FaithfulRun(env, w, events, trial) && e < |Run(env, w, events).db.entries|
    ensures var db := Run(env, w, events).db;
            if trial.Innocent(e) then
              && db.entries[e].attempts == 0 && TableInvariant.Convictions(db.candidates, e) == {}
              && (db.entries[e].state.Evicted? ==> db.entries[e].reason == Some(REMOVED_BY_HAND))
            else !db.entries[e].state.Merged?
  {
    RunIsFair(env, w, events, trial);
    var db := Run(env, w, events).db;
    if trial.Innocent(e) {
      forall c | 0 <= c < |db.candidates| ensures Member(e, Culprit) !in db.candidates[c].members {}
    }
  }
}
