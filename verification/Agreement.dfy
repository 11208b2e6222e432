/** The tables and git agree, in every disciplined run, at every moment of it. */
module Agreement {
  import opened Vocabulary
  import opened States
  import opened Tables
  import opened TableInvariant
  import opened Protocol
  import opened BaseSafety
  import opened Discipline
  import Homes

  // ----- a candidate recorded passed was made the base

  ghost predicate MadeBase(w: World, c: CandidateId) {
    && c < |w.db.candidates|
    && exists m :: m in w.moves && m.candidate == c && m.queue == w.db.candidates[c].queue
         && m.from == w.db.candidates[c].base && Some(m.to) == w.db.candidates[c].commit
  }

  ghost predicate Recorded(w: World) {
    && (forall c :: 0 <= c < |w.db.candidates| && w.db.candidates[c].state.Passed? ==> MadeBase(w, c))
    && (forall p :: Ticks(w, p) && w.procs[p].phase.Moved? ==>
          var job, tip := w.procs[p].phase.job, w.procs[p].phase.tip;
          Move(w.procs[p].queue, job.base, tip, job.candidate) in w.moves)
  }

  ghost predicate PassesNone(db: Db, db': Db) {
    forall c :: 0 <= c < |db'.candidates| && db'.candidates[c].state.Passed? ==>
      c < |db.candidates| && db'.candidates[c] == db.candidates[c]
  }

  lemma OpenPassesNone(w: World, p: Pid)
    ensures PassesNone(w.db, StepOpen(w, p).db)
  {
  }

  lemma MarkPassesNone(w: World, p: Pid)
    requires Sane(w)
    ensures PassesNone(w.db, StepMarkTesting(w, p).db)
  {
  }

  lemma AbandonPassesNone(w: World, p: Pid)
    ensures PassesNone(w.db, StepStoreAbandon(w, p).db)
  {
  }

  lemma BlamePassesNone(w: World, p: Pid)
    ensures PassesNone(w.db, StepStoreBlame(w, p).db)
  {
  }

  lemma AcquirePassesNone(env: Env, w: World, p: Pid, gone: bool, token: Token)
    ensures PassesNone(w.db, StepAcquire(env, w, p, gone, token).db)
  {
  }

  lemma OnlyLandingPasses(env: Env, w: World, p: Pid, act: Action)
    requires Sane(w) && Writes(act) && !act.StoreLand?
    ensures PassesNone(w.db, StepBy(env, w, p, act).db)
  {
    match act {
      case Acquire(gone, token) => AcquirePassesNone(env, w, p, gone, token);
      case Open => OpenPassesNone(w, p);
      case MarkTesting => MarkPassesNone(w, p);
      case StoreAbandon => AbandonPassesNone(w, p);
      case StoreBlame => BlamePassesNone(w, p);
    }
  }

  lemma HandsPassNone(w: World, what: Happening)
    ensures PassesNone(w.db, StepAround(w, what).db) && StepAround(w, what).moves == w.moves
  {
  }

  lemma StaysRecorded(w: World, w': World, p: Pid)
    requires Recorded(w) && PassesNone(w.db, w'.db)
    requires forall m :: m in w.moves ==> m in w'.moves
    requires forall o :: Ticks(w', o) && o != p ==> Ticks(w, o) && w'.procs[o] == w.procs[o]
    requires Ticks(w', p) && w'.procs[p].phase.Moved? ==>
               var job, tip := w'.procs[p].phase.job, w'.procs[p].phase.tip;
               Move(w'.procs[p].queue, job.base, tip, job.candidate) in w'.moves
    ensures Recorded(w')
  {
    forall c | 0 <= c < |w'.db.candidates| && w'.db.candidates[c].state.Passed? ensures MadeBase(w', c) {
      assert MadeBase(w, c);
    }
  }

  lemma LandingRecorded(env: Env, w: World, p: Pid)
    requires Sane(w) && SafeWorld(env, w) && Recorded(w)
    ensures Recorded(StepStoreLand(w, p))
  {
    if Ticks(w, p) && w.procs[p].phase.Moved? {
      var w', q, job, tip := StepStoreLand(w, p), w.procs[p].queue, w.procs[p].phase.job, w.procs[p].phase.tip;
      assert ProcSafe(env, w, p);
      assert Move(q, job.base, tip, job.candidate) in w'.moves;
      forall c | 0 <= c < |w'.db.candidates| && w'.db.candidates[c].state.Passed? ensures MadeBase(w', c) {
        if c != job.candidate { assert MadeBase(w, c); }
      }
    }
  }

  lemma FastForwardRecorded(w: World, p: Pid)
    requires Recorded(w)
    ensures Recorded(StepFastForward(w, p))
  {
    if Ticks(w, p) && w.procs[p].phase.Judged? && w.procs[p].phase.passed && w.procs[p].phase.tips != [] {
      var w' := StepFastForward(w, p);
      if w'.procs[p].phase.Moved? {
        assert w'.moves[|w.moves|] in w'.moves;
      }
      StaysRecorded(w, w', p);
    }
  }

  lemma ChoosingRecorded(w: World, p: Pid)
    requires Recorded(w)
    ensures Recorded(StepChoose(w, p))
  {
    StaysRecorded(w, StepChoose(w, p), p);
  }

  lemma AnnouncingRecorded(w: World, p: Pid)
    requires Recorded(w)
    ensures Recorded(StepAnnounce(w, p))
  {
    StaysRecorded(w, StepAnnounce(w, p), p);
  }

  lemma AbandonRecorded(env: Env, w: World, p: Pid)
    requires Sane(w) && Recorded(w)
    ensures Recorded(StepStoreAbandon(w, p))
  {
    OnlyLandingPasses(env, w, p, StoreAbandon);
    if Ticks(w, p) && w.procs[p].phase.Discarding? { StaysRecorded(w, StepStoreAbandon(w, p), p); }
  }

  lemma BlameRecorded(env: Env, w: World, p: Pid)
    requires Sane(w) && Recorded(w)
    ensures Recorded(StepStoreBlame(w, p))
  {
    OnlyLandingPasses(env, w, p, StoreBlame);
    if Ticks(w, p) && w.procs[p].phase.Blaming? { StaysRecorded(w, StepStoreBlame(w, p), p); }
  }

  lemma AroundRecorded(w: World, what: Happening)
    requires Recorded(w)
    ensures Recorded(StepAround(w, what))
  {
    HandsPassNone(w, what);
    StaysRecorded(w, StepAround(w, what), if what.Spawn? then what.pid else 0);
  }

  lemma StepRecorded(env: Env, w: World, e: Event)
    requires Sane(w) && SafeWorld(env, w) && Recorded(w)
    ensures Recorded(Step(env, w, e))
  {
    match e {
      case Around(what) => AroundRecorded(w, what);
      case By(p, act) =>
        match act {
          case StoreLand => LandingRecorded(env, w, p);
          case FastForward => FastForwardRecorded(w, p);
          case Choose => ChoosingRecorded(w, p);
          case Announce => AnnouncingRecorded(w, p);
          case StoreAbandon => AbandonRecorded(env, w, p);
          case StoreBlame => BlameRecorded(env, w, p);
          case _ => QuietRecorded(env, w, p, act);
        }
    }
  }

  lemma QuietRecorded(env: Env, w: World, p: Pid, act: Action)
    requires Sane(w) && Recorded(w) && (Edges(act) || Quiet(act))
    ensures Recorded(StepBy(env, w, p, act))
  {
    var w' := StepBy(env, w, p, act);
    if Writes(act) { OnlyLandingPasses(env, w, p, act); } else { ReadsOnly(env, w, p, act); }
    if Edges(act) {
      EdgeIsAtEdge(env, w, p, act);
      StaysRecorded(w, w', p);
    } else {
      QuietIsQuiet(env, w, p, act);
      WorkIsWithinTick(env, w, p, act);
      if w' != w { StaysRecorded(w, w', p); }
    }
  }

  lemma {:induction false} RunRecorded(env: Env, w: World, events: seq<Event>)
    requires Initial(w) && DisciplinedRun(env, w, events)
    ensures Recorded(Run(env, w, events))
  {
    if events != [] {
      var n := |events| - 1;
      RunRecorded(env, w, events[..n]);
      RunFits(env, w, events[..n]);
      RunSafe(env, w, events[..n]);
      StepRecorded(env, Run(env, w, events[..n]), events[n]);
    }
  }

  /** A candidate recorded passed had its commit made the base of its queue. */
  lemma PassedMeansMoved(env: Env, w: World, events: seq<Event>, c: CandidateId)
    requires Initial(w) && DisciplinedRun(env, w, events)
    requires var db := Run(env, w, events).db; c < |db.candidates| && db.candidates[c].state.Passed?
    ensures MadeBase(Run(env, w, events), c)
  {
    RunRecorded(env, w, events);
  }

  lemma PassedOnce(db: Db, e: EntryId, c: CandidateId, d: CandidateId)
    requires PassedAreDisjoint(db.candidates) && PassedWith(db, c, e) && PassedWith(db, d, e)
    ensures c == d
  {
  }

  lemma MergedOnce(db: Db, e: EntryId)
    requires MergedArePassed(db) && PassedAreDisjoint(db.candidates) && e < |db.entries|
    ensures db.entries[e].state.Merged? <==>
              exists c :: PassedWith(db, c, e) && forall d :: PassedWith(db, d, e) ==> d == c
  {
    if InPassed(db.candidates, e) {
      var c :| 0 <= c < |db.candidates| && db.candidates[c].state.Passed? && Holds(db.candidates[c], e);
      assert PassedWith(db, c, e);
      forall d | PassedWith(db, d, e) ensures d == c { PassedOnce(db, e, c, d); }
    }
  }

  /** An entry is merged exactly when one, and only one, passed candidate holds it. */
  lemma MergedMeansPassedOnce(env: Env, w: World, events: seq<Event>, e: EntryId)
    requires Initial(w) && DisciplinedRun(env, w, events) && e < |Run(env, w, events).db.entries|
    ensures var db := Run(env, w, events).db;
            db.entries[e].state.Merged? <==>
              exists c :: PassedWith(db, c, e) && forall d :: PassedWith(db, d, e) ==> d == c
  {
    RunFits(env, w, events);
    MergedOnce(Run(env, w, events).db, e);
  }

  ghost predicate PassedWith(db: Db, c: CandidateId, e: EntryId) {
    c < |db.candidates| && db.candidates[c].state.Passed? && Holds(db.candidates[c], e)
  }

  // ----- with no pushes but fast-forwards from outside, the base contains what was merged

  /** The tip contains all its base did and the first n picks. */
  ghost predicate Covers(commits: map<Sha, set<Sha>>, tip: Sha, job: Job, n: nat)
    requires n <= |job.picks|
  {
    && job.base in commits && tip in commits
    && Contents(commits, job.base) <= Contents(commits, tip)
    && forall i :: 0 <= i < n ==> job.picks[i].sha in Contents(commits, tip)
  }

  ghost predicate PhaseCovers(w: World, q: Queue, phase: Phase) {
    match phase
    case Based(base, _) => base in w.commits
    case Opening(base, _, _, _) => base in w.commits
    case Assembling(job, tips) =>
      if tips == [] then job.base in w.commits
      else |tips| <= |job.picks| + 1 && Covers(w.commits, tips[|tips| - 1], job, |tips| - 1)
    case Gating(job, tips) => tips != [] && Covers(w.commits, tips[|tips| - 1], job, |job.picks|)
    case Judged(job, tips, _) => tips != [] && Covers(w.commits, tips[|tips| - 1], job, |job.picks|)
    case Discarding(job, split) => split ==> job.base in w.commits
    case Moved(job, _) => q in w.refs && forall i :: 0 <= i < |job.picks| ==>
      job.picks[i].sha in Contents(w.commits, w.refs[q])
    case _ => true
  }

  ghost predicate InBase(w: World, e: EntryId)
    requires e < |w.db.entries|
  {
    var row := w.db.entries[e];
    row.queue in w.refs && row.sha in Contents(w.commits, w.refs[row.queue])
  }

  ghost predicate Contained(w: World) {
    && (forall q :: q in w.refs ==> w.refs[q] in w.commits)
    && (forall e :: 0 <= e < |w.db.entries| && w.db.entries[e].state.Merged? ==> InBase(w, e))
    && (forall p :: Ticks(w, p) ==> PhaseCovers(w, w.procs[p].queue, w.procs[p].phase))
  }

  ghost predicate CommitsStay(w: World, w': World) {
    forall s :: s in w.commits ==> s in w'.commits && w'.commits[s] == w.commits[s]
  }

  ghost predicate BasesGrow(w: World, w': World) {
    forall q :: q in w.refs ==> q in w'.refs && Contents(w.commits, w.refs[q]) <= Contents(w'.commits, w'.refs[q])
  }

  /** Pushes from outside keep everything the branch had. */
  ghost predicate Forward(env: Env, w: World, e: Event) {
    PushesFromOutside(e) ==> BasesGrow(w, Step(env, w, e))
  }

  ghost predicate ForwardRun(env: Env, w: World, events: seq<Event>) {
    events == [] ||
    (var n := |events| - 1;
     ForwardRun(env, w, events[..n]) && Forward(env, Run(env, w, events[..n]), events[n]))
  }

  ghost predicate MergesNone(db: Db, db': Db) {
    forall e :: 0 <= e < |db'.entries| && db'.entries[e].state.Merged? ==>
      e < |db.entries| && db.entries[e].state.Merged?
  }

  lemma CoversStays(w: World, w': World, q: Queue, phase: Phase)
    requires CommitsStay(w, w') && BasesGrow(w, w') && PhaseCovers(w, q, phase)
    ensures PhaseCovers(w', q, phase)
  {
  }

  lemma StaysContained(w: World, w': World, p: Pid)
    requires Contained(w) && CommitsStay(w, w') && BasesGrow(w, w') && Written(w.db, w'.db) && MergesNone(w.db, w'.db)
    requires forall q :: q in w'.refs ==> w'.refs[q] in w'.commits
    requires forall o :: Ticks(w', o) && o != p ==> Ticks(w, o) && w'.procs[o] == w.procs[o]
    requires Ticks(w', p) ==> PhaseCovers(w', w'.procs[p].queue, w'.procs[p].phase)
    ensures Contained(w')
  {
    forall e | 0 <= e < |w'.db.entries| && w'.db.entries[e].state.Merged? ensures InBase(w', e) {
      assert InBase(w, e);
    }
    forall o | Ticks(w', o) && o != p ensures PhaseCovers(w', w'.procs[o].queue, w'.procs[o].phase) {
      CoversStays(w, w', w.procs[o].queue, w.procs[o].phase);
    }
  }

  lemma OpeningMergesNone(w: World, p: Pid)
    ensures MergesNone(w.db, StepOpen(w, p).db) && MergesNone(w.db, StepMarkTesting(w, p).db)
  {
  }

  lemma ClosingMergesNone(env: Env, w: World, p: Pid, gone: bool, token: Token)
    ensures MergesNone(w.db, StepStoreAbandon(w, p).db) && MergesNone(w.db, StepStoreBlame(w, p).db)
    ensures MergesNone(w.db, StepAcquire(env, w, p, gone, token).db)
  {
  }

  lemma MergeCovers(commits: map<Sha, set<Sha>>, job: Job, head: Sha, n: nat, result: Sha)
    requires n < |job.picks| && Covers(commits, head, job, n) && ValidMerge(commits, head, job.picks[n].sha, result)
    ensures Covers(AfterMerge(commits, head, job.picks[n].sha, result), result, job, n + 1)
  {
  }

  lemma MergedContained(w: World, w': World, p: Pid, job: Job, tips: seq<Sha>, result: Sha)
    requires Contained(w) && Ticks(w, p) && w.procs[p].phase == Assembling(job, tips)
    requires 0 < |tips| <= |job.picks| && ValidMerge(w.commits, tips[|tips| - 1], job.picks[|tips| - 1].sha, result)
    requires w'.commits == AfterMerge(w.commits, tips[|tips| - 1], job.picks[|tips| - 1].sha, result)
    requires w'.db == w.db && w'.refs == w.refs && w'.procs == Goto(w, p, Assembling(job, tips + [result])).procs
    ensures Contained(w')
  {
    assert PhaseCovers(w, w.procs[p].queue, w.procs[p].phase);
    MergeCovers(w.commits, job, tips[|tips| - 1], |tips| - 1, result);
    StaysContained(w, w', p);
  }

  lemma MergeContained(env: Env, w: World, p: Pid, result: Option<Sha>)
    requires SafeWorld(env, w) && Contained(w)
    ensures Contained(StepMerge(w, p, result))
  {
    if Merging(w, p) && p in w.heads {
      var phase := w.procs[p].phase;
      assert ProcSafe(env, w, p);
      NextMergeContained(w, p, phase.job, phase.tips, result);
    }
  }

  lemma NextMergeContained(w: World, p: Pid, job: Job, tips: seq<Sha>, result: Option<Sha>)
    requires Contained(w) && Merging(w, p) && w.procs[p].phase == Assembling(job, tips)
    requires p in w.heads && w.heads[p] == tips[|tips| - 1]
    ensures Contained(StepMerge(w, p, result))
  {
    var pick := job.picks[|tips| - 1];
    if result.None? {
      PhaseContained(w, p, Blaming(job, pick.id, CONFLICTS));
    } else if ValidMerge(w.commits, w.heads[p], pick.sha, result.value) {
      MergedContained(w, StepMerge(w, p, result), p, job, tips, result.value);
    }
  }

  lemma PhaseContained(w: World, p: Pid, phase: Phase)
    requires Contained(w) && Ticks(w, p) && PhaseCovers(w, w.procs[p].queue, phase)
    ensures Contained(Goto(w, p, phase))
  {
    StaysContained(w, Goto(w, p, phase), p);
  }

  /** The base moved from A to a commit covering A and every pick. */
  lemma MovedContained(w: World, w': World, p: Pid, q: Queue, job: Job, tip: Sha)
    requires Contained(w) && Ticks(w, p) && w.procs[p].queue == q && q in w.refs && w.refs[q] == job.base
    requires Covers(w.commits, tip, job, |job.picks|)
    requires w'.procs == Goto(w, p, Moved(job, tip)).procs && w'.db == w.db
    requires w'.refs == w.refs[q := tip] && w'.commits == w.commits
    ensures Contained(w')
  {
    StaysContained(w, w', p);
  }

  lemma FastForwardContained(w: World, p: Pid)
    requires Contained(w)
    ensures Contained(StepFastForward(w, p))
  {
    if Ticks(w, p) && w.procs[p].phase.Judged? && w.procs[p].phase.passed && w.procs[p].phase.tips != [] {
      var q, job, tips := w.procs[p].queue, w.procs[p].phase.job, w.procs[p].phase.tips;
      var tip := tips[|tips| - 1];
      assert PhaseCovers(w, q, w.procs[p].phase);
      if q !in w.refs {
        PhaseContained(w, p, Releasing);
      } else if w.refs[q] != job.base {
        PhaseContained(w, p, Discarding(job, false));
      } else {
        MovedContained(w, StepFastForward(w, p), p, q, job, tip);
      }
    }
  }

  lemma LandingContained(env: Env, w: World, p: Pid)
    requires Homes.AllHome(w.db) && SafeWorld(env, w) && Contained(w)
    ensures Contained(StepStoreLand(w, p))
  {
    if Ticks(w, p) && w.procs[p].phase.Moved? {
      var w', q, job := StepStoreLand(w, p), w.procs[p].queue, w.procs[p].phase.job;
      assert ProcSafe(env, w, p);
      forall e | 0 <= e < |w'.db.entries| && w'.db.entries[e].state.Merged? ensures InBase(w', e) {
        if e in PickIds(job.picks) {
          var i :| 0 <= i < |job.picks| && PickIds(job.picks)[i] == e;
          assert Homes.Home(w.db, q, PickIds(job.picks));
          assert job.picks[i].sha in Contents(w.commits, w.refs[q]);
        } else {
          assert InBase(w, e);
        }
      }
      forall o | Ticks(w', o) ensures PhaseCovers(w', w'.procs[o].queue, w'.procs[o].phase) {
        if o != p { CoversStays(w, w', w.procs[o].queue, w.procs[o].phase); }
      }
    }
  }

  /** Tables and phase changed, git did not. */
  lemma SameGitContained(w: World, w': World, p: Pid)
    requires Contained(w) && w'.commits == w.commits && w'.refs == w.refs
    requires Written(w.db, w'.db) && MergesNone(w.db, w'.db)
    requires forall o :: Ticks(w', o) && o != p ==> Ticks(w, o) && w'.procs[o] == w.procs[o]
    requires Ticks(w', p) ==> PhaseCovers(w, w'.procs[p].queue, w'.procs[p].phase)
    ensures Contained(w')
  {
    StaysContained(w, w', p);
  }

  lemma OpenContained(w: World, p: Pid)
    requires Contained(w)
    ensures Contained(StepOpen(w, p))
  {
    if Ticks(w, p) && w.procs[p].phase.Opening? {
      var phase := w.procs[p].phase;
      OpenWrites(w.db, w.procs[p].queue, phase.base, PickIds(phase.batch), phase.parent);
      OpeningMergesNone(w, p);
      SameGitContained(w, StepOpen(w, p), p);
    }
  }

  lemma MarkTestingContained(w: World, p: Pid)
    requires Contained(w)
    ensures Contained(StepMarkTesting(w, p))
  {
    if Ticks(w, p) && w.procs[p].phase.Assembling? && |w.procs[p].phase.tips| == |w.procs[p].phase.job.picks| + 1 {
      var phase := w.procs[p].phase;
      CloseWrites(w.db, phase.job.candidate, Failed, phase.tips[|phase.tips| - 1]);
      OpeningMergesNone(w, p);
      SameGitContained(w, StepMarkTesting(w, p), p);
    }
  }

  lemma AbandonContained(env: Env, w: World, p: Pid)
    requires Contained(w)
    ensures Contained(StepStoreAbandon(w, p))
  {
    if Ticks(w, p) && w.procs[p].phase.Discarding? {
      var phase := w.procs[p].phase;
      CloseWrites(w.db, phase.job.candidate, if phase.split then Failed else Superseded, 0);
      ClosingMergesNone(env, w, p, false, 0);
      SameGitContained(w, StepStoreAbandon(w, p), p);
    }
  }

  lemma BlameContained(env: Env, w: World, p: Pid)
    requires Contained(w)
    ensures Contained(StepStoreBlame(w, p))
  {
    if Ticks(w, p) && w.procs[p].phase.Blaming? {
      var phase := w.procs[p].phase;
      BlameWrites(w.db, phase.job.candidate, phase.culprit, phase.job.config.maxAttempts, phase.fault);
      ClosingMergesNone(env, w, p, false, 0);
      SameGitContained(w, StepStoreBlame(w, p), p);
    }
  }

  lemma AcquireContained(env: Env, w: World, p: Pid, gone: bool, token: Token)
    requires Contained(w)
    ensures Contained(StepAcquire(env, w, p, gone, token))
  {
    if p in w.procs && w.procs[p].Asking? {
      AcquireOrRest(env, w, p, gone, token);
      AcquireIsAtEdge(env, w, p, gone, token);
      ReclaimWrites(w.db, w.procs[p].queue);
      ClosingMergesNone(env, w, p, gone, token);
      SameGitContained(w, StepAcquire(env, w, p, gone, token), p);
    }
  }

  lemma ReadContained(env: Env, w: World, p: Pid)
    requires Contained(w) && Ticks(w, p)
    ensures Contained(StepReadBase(env, w, p)) && Contained(StepChoose(w, p))
  {
    var q, phase := w.procs[p].queue, w.procs[p].phase;
    assert PhaseCovers(w, q, phase);
    if phase.Ready? { PhaseContained(w, p, StepReadBase(env, w, p).procs[p].phase); }
    if phase.Based? { PhaseContained(w, p, Chosen(w.db, q, phase.base, phase.config)); }
  }

  lemma CheckContained(w: World, p: Pid, passed: bool)
    requires Contained(w) && Ticks(w, p)
    ensures Contained(StepCheckout(w, p)) && Contained(StepGate(w, p, passed))
  {
    var q, phase := w.procs[p].queue, w.procs[p].phase;
    assert PhaseCovers(w, q, phase);
    if phase.Assembling? { SameGitContained(w, StepCheckout(w, p), p); }
    if phase.Gating? { SameGitContained(w, StepGate(w, p, passed), p); }
  }

  lemma DecideContained(w: World, p: Pid, interrupted: bool)
    requires Contained(w) && Ticks(w, p)
    ensures Contained(StepDecide(w, p, interrupted))
  {
    var phase := w.procs[p].phase;
    assert PhaseCovers(w, w.procs[p].queue, phase);
    if phase.Judged? { PhaseContained(w, p, Decided(phase.job, interrupted)); }
  }

  lemma AnnounceContained(w: World, p: Pid)
    requires Contained(w) && Ticks(w, p)
    ensures Contained(StepAnnounce(w, p))
  {
    if w.procs[p].phase.Announcing? { SameGitContained(w, StepAnnounce(w, p), p); }
  }

  lemma EdgeContained(env: Env, w: World, p: Pid, act: Action)
    requires Contained(w) && Edges(act) && !act.Acquire?
    ensures Contained(StepBy(env, w, p, act))
  {
    EdgeIsAtEdge(env, w, p, act);
    EdgeKeepsTables(env, w, p, act);
    SameGitContained(w, StepBy(env, w, p, act), p);
  }

  lemma PushContained(w: World, q: Queue, sha: Sha, history: set<Sha>)
    requires Contained(w) && BasesGrow(w, StepOutsideMove(w, q, sha, history))
    ensures Contained(StepOutsideMove(w, q, sha, history))
  {
    StaysContained(w, StepOutsideMove(w, q, sha, history), 0);
  }

  lemma HandWrites(w: World, what: Happening)
    requires !what.OutsideMove?
    ensures Written(w.db, StepAround(w, what).db) && MergesNone(w.db, StepAround(w, what).db)
  {
  }

  lemma HandContained(w: World, what: Happening)
    requires Contained(w) && !what.OutsideMove?
    ensures Contained(StepAround(w, what))
  {
    HandWrites(w, what);
    SameGitContained(w, StepAround(w, what), if what.Spawn? then what.pid else 0);
  }

  lemma AroundContained(w: World, what: Happening)
    requires Contained(w) && (what.OutsideMove? ==> BasesGrow(w, StepAround(w, what)))
    ensures Contained(StepAround(w, what))
  {
    match what {
      case OutsideMove(q, sha, history) => PushContained(w, q, sha, history);
      case _ => HandContained(w, what);
    }
  }

  lemma ByContained(env: Env, w: World, p: Pid, act: Action)
    requires Homes.AllHome(w.db) && SafeWorld(env, w) && Contained(w)
    ensures Contained(StepBy(env, w, p, act))
  {
    match act {
      case Acquire(gone, token) => AcquireContained(env, w, p, gone, token);
      case Open => OpenContained(w, p);
      case Merge(result) => MergeContained(env, w, p, result);
      case MarkTesting => MarkTestingContained(w, p);
      case FastForward => FastForwardContained(w, p);
      case StoreLand => LandingContained(env, w, p);
      case StoreAbandon => AbandonContained(env, w, p);
      case StoreBlame => BlameContained(env, w, p);
      case Decide(interrupted) => if Ticks(w, p) { DecideContained(w, p, interrupted); }
      case Announce => if Ticks(w, p) { AnnounceContained(w, p); }
      case Gate(passed) => if Ticks(w, p) { CheckContained(w, p, passed); }
      case Checkout => if Ticks(w, p) { CheckContained(w, p, false); }
      case _ =>
        if Edges(act) { EdgeContained(env, w, p, act); }
        else if Ticks(w, p) { ReadContained(env, w, p); }
    }
  }

  lemma {:induction false} RunContained(env: Env, w: World, events: seq<Event>)
    requires Initial(w) && ForwardRun(env, w, events)
    requires forall q :: q in w.refs ==> w.refs[q] in w.commits
    ensures Contained(Run(env, w, events))
  {
    if events != [] {
      var n := |events| - 1;
      var now := Run(env, w, events[..n]);
      RunContained(env, w, events[..n]);
      Homes.RunHome(env, w, events[..n]);
      RunSafe(env, w, events[..n]);
      match events[n] {
        case Around(what) => AroundContained(now, what);
        case By(p, act) => ByContained(env, now, p, act);
      }
    }
  }

  /**
   In every run with no pushes but fast-forwards, the base contains the commit of
   every entry recorded merged, even when crashes fell between git and the
   tables and when leases were lost.
   */
  lemma MergedMeansContained(env: Env, w: World, events: seq<Event>, e: EntryId)
    requires Initial(w) && ForwardRun(env, w, events)
    requires forall q :: q in w.refs ==> w.refs[q] in w.commits
    requires var db := Run(env, w, events).db; e < |db.entries| && db.entries[e].state.Merged?
    ensures InBase(Run(env, w, events), e)
  {
    RunContained(env, w, events);
  }
}
