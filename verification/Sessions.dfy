/**
 Tick after tick of one worker that nobody gets in the way of: the stepwise
 protocol goes from tables to tables as the sequence of whole ticks does, given
 the answers its steps got, and so drains the queue and drains it fairly.
 */
module Sessions {
  import opened Vocabulary
  import opened Tables
  import opened TableInvariant
  import opened Protocol
  import opened Discipline
  import opened Advancing
  import opened Termination
  import opened Drain
  import opened TickRuns
  import opened Fairness
  import Isolation
  import Ranking

  // ----- what the ticks were told

  /** The answers of every finished tick, and of the tick under way so far. */
  datatype Log = Log(done: seq<Answers>, now: Answers)

  function Noted(w: World, p: Pid, act: Action, log: Log): Log {
    if act.Release? && Ticks(w, p) && w.procs[p].phase.Releasing? then Log(log.done + [log.now], UNHEARD)
    else if Works(act) then log.(now := Heard(w, p, act, log.now))
    else log
  }

  ghost function LogOf(env: Env, w: World, before: seq<Event>, events: seq<Event>, p: Pid): Log {
    if events == [] then Log([], UNHEARD)
    else
      var n := |events| - 1;
      var log := LogOf(env, w, before, events[..n], p);
      if events[n].By? then Noted(Run(env, w, before + events[..n]), p, events[n].act, log) else log
  }

  /** The clock runs, and otherwise one process acts, and only on one queue. */
  predicate Attends(e: Event, p: Pid, q: Queue) {
    match e
    case Around(what) => what.ClockTo?
    case By(o, act) => o == p && (Works(act) || act.Release? || act.Renew? || act.Acquire?
                                  || (act.Ask? && act.queue == q))
  }

  ghost predicate Session(events: seq<Event>, p: Pid, q: Queue) {
    forall i :: 0 <= i < |events| ==> Attends(events[i], p, q)
  }

  // ----- ticks one after another

  /** Where the tick after these begins. */
  ghost function After(o: Origin, done: seq<Answers>): Origin
    decreases |done|
  {
    if done == [] then o
    else
      var (db, base) := Whole(o, done[0]);
      After(o.(db := db, base := base), done[1..])
  }

  lemma {:induction false} AfterOneMore(o: Origin, done: seq<Answers>, a: Answers)
    ensures var last := After(o, done);
            After(o, done + [a]) == last.(db := Whole(last, a).0, base := Whole(last, a).1)
    decreases |done|
  {
    var all := done + [a];
    if done == [] {
      assert all[0] == a && all[1..] == [];
    } else {
      var (db, base) := Whole(o, done[0]);
      assert all[0] == done[0] && all[1..] == done[1..] + [a];
      AfterOneMore(o.(db := db, base := base), done[1..], a);
    }
  }

  lemma {:induction false} AfterIsTicked(o: Origin, done: seq<Answers>)
    ensures After(o, done).db == Ticked(o.db, o.queue, o.base, o.config, done)
    ensures After(o, done).queue == o.queue && After(o, done).config == o.config
    decreases |done|
  {
    if done != [] {
      var (db, base) := Whole(o, done[0]);
      AfterIsTicked(o.(db := db, base := base), done[1..]);
    }
  }

  /** The worker is inside a tick that began where the finished ones led, or between two. */
  ghost predicate InSession(s: Origin, w: World, p: Pid, log: Log) {
    p in w.procs && if Ticks(w, p) then Inside(s, w, p, log) else Between(s, w, p, log)
  }

  ghost predicate Inside(s: Origin, w: World, p: Pid, log: Log)
    requires Ticks(w, p)
  {
    At(After(s, log.done), w, p, log.now) && Ours(w.leases, s.queue, w.procs[p].lease.token)
  }

  ghost predicate Between(s: Origin, w: World, p: Pid, log: Log)
    requires p in w.procs
  {
    && w.db == After(s, log.done).db && s.queue in w.refs && w.refs[s.queue] == After(s, log.done).base
    && s.queue !in w.leases && log.now == UNHEARD
    && (w.procs[p].Asking? ==> w.procs[p].queue == s.queue)
  }

  // ----- each step

  lemma IdlesOutside(env: Env, w: World, p: Pid, act: Action)
    requires Works(act) && !Ticks(w, p)
    ensures StepBy(env, w, p, act) == w
  {
    WorkIsWithinTick(env, w, p, act);
  }

  lemma HearsNothing(w: World, p: Pid, act: Action, log: Log)
    requires Works(act) && !Ticks(w, p)
    ensures Noted(w, p, act, log) == log
  {
  }

  lemma WorkingOn(env: Env, s: Origin, w: World, p: Pid, act: Action, log: Log)
    requires InSession(s, w, p, log) && Ticks(w, p) && Sane(w) && Works(act)
             && env.configs(After(s, log.done).base) == Some(s.config)
    ensures InSession(s, StepBy(env, w, p, act), p, Noted(w, p, act, log))
  {
    AfterIsTicked(s, log.done);
    WorkStage(env, After(s, log.done), w, p, act, log.now);
    WorkIsWithinTick(env, w, p, act);
  }

  lemma GivingBack(s: Origin, w: World, p: Pid, log: Log)
    requires InSession(s, w, p, log)
    ensures InSession(s, StepRelease(w, p), p, Noted(w, p, Release, log))
  {
    if Ticks(w, p) && w.procs[p].phase.Releasing? {
      AfterIsTicked(s, log.done);
      AtEnd(After(s, log.done), w, p, log.now);
      AfterOneMore(s, log.done, log.now);
    }
  }

  lemma Taking(env: Env, s: Origin, w: World, p: Pid, gone: bool, token: Token, log: Log)
    requires InSession(s, w, p, log)
    ensures InSession(s, StepAcquire(env, w, p, gone, token), p, log)
  {
    AfterIsTicked(s, log.done);
  }

  lemma Renewing(env: Env, s: Origin, w: World, p: Pid, now: nat, log: Log)
    requires InSession(s, w, p, log)
    ensures InSession(s, StepRenew(env, w, p, now), p, log)
  {
  }

  lemma AskingFor(s: Origin, w: World, p: Pid, log: Log)
    requires InSession(s, w, p, log)
    ensures InSession(s, StepAsk(w, p, s.queue), p, log)
  {
  }

  lemma ClockMoves(s: Origin, w: World, p: Pid, t: nat, log: Log)
    requires InSession(s, w, p, log)
    ensures InSession(s, StepAround(w, ClockTo(t)), p, log)
  {
  }

  lemma SessionStep(env: Env, s: Origin, w: World, e: Event, p: Pid, log: Log)
    requires InSession(s, w, p, log) && Sane(w) && Attends(e, p, s.queue)
    requires forall c :: env.configs(c) == Some(s.config)
    ensures InSession(s, Step(env, w, e), p, if e.By? then Noted(w, p, e.act, log) else log)
  {
    match e {
      case Around(what) => ClockMoves(s, w, p, what.time, log);
      case By(o, act) =>
        match act {
          case Release => GivingBack(s, w, p, log);
          case Renew(now) => Renewing(env, s, w, p, now, log);
          case Acquire(gone, token) => Taking(env, s, w, p, gone, token, log);
          case Ask(q) => AskingFor(s, w, p, log);
          case _ =>
            if Ticks(w, p) {
              WorkingOn(env, s, w, p, act, log);
            } else {
              IdlesOutside(env, w, p, act);
              HearsNothing(w, p, act, log);
            }
        }
    }
  }

  /** The process rests, the queue is free, and every base configures the same. */
  ghost predicate Opens(env: Env, s: Origin, w: World, p: Pid) {
    && p in w.procs && w.procs[p].Resting? && w.db == s.db
    && s.queue in w.refs && w.refs[s.queue] == s.base && s.queue !in w.leases
    && forall c :: env.configs(c) == Some(s.config)
  }

  lemma OneMoreInSession(env: Env, w: World, before: seq<Event>, events: seq<Event>, e: Event, p: Pid, s: Origin)
    requires Initial(w) && DisciplinedRun(env, w, before + events)
    requires InSession(s, Run(env, w, before + events), p, LogOf(env, w, before, events, p))
    requires Attends(e, p, s.queue) && forall c :: env.configs(c) == Some(s.config)
    ensures InSession(s, Run(env, w, before + (events + [e])), p, LogOf(env, w, before, events + [e], p))
  {
    RunFits(env, w, before + events);
    NextInLog(env, w, before, events, e, p);
    SessionStep(env, s, Run(env, w, before + events), e, p, LogOf(env, w, before, events, p));
  }

  /** One event more in the run and on the log. */
  lemma NextInLog(env: Env, w: World, before: seq<Event>, events: seq<Event>, e: Event, p: Pid)
    ensures Run(env, w, before + (events + [e])) == Step(env, Run(env, w, before + events), e)
    ensures LogOf(env, w, before, events + [e], p)
         == var log := LogOf(env, w, before, events, p);
            if e.By? then Noted(Run(env, w, before + events), p, e.act, log) else log
  {
    assert (events + [e])[..|events|] == events;
    assert before + (events + [e]) == (before + events) + [e];
    RunSnoc(env, w, before + events, e);
  }

  /**
   However the steps of a session fall, the tables and the base between two of
   its ticks are those its finished ticks come to as whole ticks, each given the
   answers its own steps got; and inside a tick they are on the way to it.
   */
  lemma {:induction false} SessionIsTicks(env: Env, w: World, before: seq<Event>, events: seq<Event>, p: Pid, s: Origin)
    requires Initial(w) && DisciplinedRun(env, w, before + events) && Session(events, p, s.queue)
    requires Opens(env, s, Run(env, w, before), p)
    ensures InSession(s, Run(env, w, before + events), p, LogOf(env, w, before, events, p))
    decreases |events|
  {
    if events == [] {
      assert before + events == before;
    } else {
      var n := |events| - 1;
      assert events[..n] + [events[n]] == events;
      assert (before + events)[..|before + events| - 1] == before + events[..n];
      SessionIsTicks(env, w, before, events[..n], p, s);
      OneMoreInSession(env, w, before, events[..n], events[n], p, s);
    }
  }

  // ----- answers that go by the trial

  /** The tick has come to its conclusion, if not to its end. */
  predicate Concluded(phase: Phase) {
    Over(phase) || phase.Blaming? || phase.Discarding? || phase.Moved? || (phase.Opening? && phase.parent.Some?)
  }

  ghost predicate Honest(o: Origin, trial: Trial, phase: Phase, a: Answers) {
    Concluded(phase) ==> Truthful(Picked(o.db, o.queue, o.config), trial, a)
  }

  lemma PickedIs(o: Origin, job: Job)
    requires OnIt(o, job)
    ensures PickIds(job.picks) == Picked(o.db, o.queue, o.config) != []
  {
    if ActiveCandidate(o.db, o.queue).None? {
      assert Ids(Tables0(o).candidates[InHand0(o)]) == Picked(o.db, o.queue, o.config);
    }
  }

  /** No stop was asked for while a gate was failing. */
  ghost predicate Uninterrupted(e: Event) {
    !(e.By? && e.act.Decide? && e.act.interrupted)
  }

  /** This worker's step, by the trial and uninterrupted. */
  ghost predicate GoesBy(trial: Trial, w: World, p: Pid, act: Action) {
    Works(act) && Faithful(trial, w, By(p, act)) && Uninterrupted(By(p, act))
  }

  lemma ConflictIsTruthful(o: Origin, trial: Trial, w: World, p: Pid, a: Answers)
    requires At(o, w, p, a) && Merging(w, p) && FairPhase(trial, w.procs[p].phase)
             && NextPick(w, p) in trial.conflicting
    ensures Truthful(Picked(o.db, o.queue, o.config), trial, a.(conflict := Some(|w.procs[p].phase.tips| - 1)))
  {
    var phase := w.procs[p].phase;
    var ids, v := PickIds(phase.job.picks), |phase.tips| - 1;
    PickedIs(o, phase.job);
    assert forall i :: 0 <= i < v ==> ids[..v][i] == ids[i];
  }

  lemma MergedNext(w: World, p: Pid, result: Option<Sha>)
    requires Ticks(w, p)
    ensures Ticks(StepMerge(w, p, result), p)
    ensures StepMerge(w, p, result) == w || (Merging(w, p) && p in w.heads && result.None?)
            || !Concluded(StepMerge(w, p, result).procs[p].phase)
  {
  }

  lemma MergeIsHonest(o: Origin, trial: Trial, w: World, p: Pid, result: Option<Sha>, a: Answers)
    requires At(o, w, p, a) && FairPhase(trial, w.procs[p].phase) && Honest(o, trial, w.procs[p].phase, a)
    requires GoesBy(trial, w, p, Merge(result))
    ensures Honest(o, trial, StepMerge(w, p, result).procs[p].phase, Heard(w, p, Merge(result), a))
  {
    MergedNext(w, p, result);
    if Merging(w, p) && p in w.heads && result.None? { ConflictIsTruthful(o, trial, w, p, a); }
  }

  lemma VerdictIsTruthful(o: Origin, job: Job, trial: Trial, a: Answers)
    requires OnIt(o, job) && Calm(a) && a.conflict.None? && NoneIn(PickIds(job.picks), trial.conflicting)
    requires a.passed <==> NoneIn(PickIds(job.picks), trial.faulty)
    ensures Truthful(Picked(o.db, o.queue, o.config), trial, a)
  {
    var ids := PickIds(job.picks);
    PickedIs(o, job);
    forall e | e in ids ensures e !in trial.conflicting {
      var i :| 0 <= i < |ids| && ids[i] == e;
    }
    if NoneIn(ids, trial.faulty) {
      forall e | e in ids ensures e !in trial.faulty {
        var i :| 0 <= i < |ids| && ids[i] == e;
      }
    } else {
      var i :| 0 <= i < |ids| && ids[i] in trial.faulty;
      assert ids[i] in ids;
    }
  }

  lemma DecideIsHonest(o: Origin, trial: Trial, w: World, p: Pid, interrupted: bool, a: Answers)
    requires At(o, w, p, a) && FairPhase(trial, w.procs[p].phase) && Honest(o, trial, w.procs[p].phase, a)
    requires GoesBy(trial, w, p, Decide(interrupted))
    ensures Honest(o, trial, StepDecide(w, p, interrupted).procs[p].phase, Heard(w, p, Decide(interrupted), a))
  {
    if w.procs[p].phase.Judged? && !w.procs[p].phase.passed {
      JudgedAt(o, w.db, w.refs[o.queue], w.procs[p].phase.job, w.procs[p].phase.tips, a);
      VerdictIsTruthful(o, w.procs[p].phase.job, trial, a);
    }
  }

  lemma PassedIsTruthful(o: Origin, job: Job, tips: seq<Sha>, db: Db, trial: Trial, a: Answers)
    requires Gated(o, job, tips, db, a) && a == UNHEARD.(tip := a.tip, passed := true)
    requires NoneIn(PickIds(job.picks), trial.conflicting) && NoneIn(PickIds(job.picks), trial.faulty)
    ensures Truthful(Picked(o.db, o.queue, o.config), trial, a) && job.base == o.base
  {
    VerdictIsTruthful(o, job, trial, a);
  }

  lemma FastForwardIsHonest(o: Origin, trial: Trial, w: World, p: Pid, a: Answers)
    requires At(o, w, p, a) && FairPhase(trial, w.procs[p].phase) && Honest(o, trial, w.procs[p].phase, a)
    ensures Honest(o, trial, StepFastForward(w, p).procs[p].phase, a)
  {
    if w.procs[p].phase.Judged? && w.procs[p].phase.passed {
      PassedAt(o, w.db, w.refs[o.queue], w.procs[p].phase.job, w.procs[p].phase.tips, a);
      PassedIsTruthful(o, w.procs[p].phase.job, w.procs[p].phase.tips, w.db, trial, a);
    }
  }

  lemma ChoiceIsHonest(o: Origin, trial: Trial)
    requires TableInv(o.db) && OnBase(o.db, o.queue, o.base)
    ensures Honest(o, trial, Chosen(o.db, o.queue, o.base, o.config), UNHEARD)
  {
    var active := ActiveCandidate(o.db, o.queue);
    if active.Some? {
      var ids := Ids(o.db.candidates[active.value]);
      assert Sound(o.db.entries, o.db.candidates[active.value]);
      assert forall i :: 0 <= i < |ids| ==> ids[i] in ids;
    }
  }

  lemma ChooseIsHonest(o: Origin, trial: Trial, w: World, p: Pid, a: Answers)
    requires At(o, w, p, a) && Sane(w) && OnBase(o.db, o.queue, o.base) && Honest(o, trial, w.procs[p].phase, a)
    ensures Honest(o, trial, StepChoose(w, p).procs[p].phase, a)
  {
    if w.procs[p].phase.Based? { ChoiceIsHonest(o, trial); }
  }

  lemma OpenIsHonest(o: Origin, trial: Trial, w: World, p: Pid, a: Answers)
    requires At(o, w, p, a) && Sane(w) && Honest(o, trial, w.procs[p].phase, a)
    ensures Honest(o, trial, StepOpen(w, p).procs[p].phase, a)
  {
    if w.procs[p].phase.Opening? { assert PhaseFits(w.db, o.queue, w.procs[p].phase); }
  }

  lemma ReadIsHonest(env: Env, o: Origin, trial: Trial, w: World, p: Pid, a: Answers)
    requires At(o, w, p, a) && env.configs(o.base) == Some(o.config) && Honest(o, trial, w.procs[p].phase, a)
    ensures Honest(o, trial, StepReadBase(env, w, p).procs[p].phase, a)
  {
  }

  lemma PlainIsHonest(env: Env, o: Origin, trial: Trial, w: World, p: Pid, act: Action, a: Answers)
    requires Ticks(w, p) && Honest(o, trial, w.procs[p].phase, a)
    requires act.Checkout? || act.MarkTesting? || act.Gate? || act.StoreLand? || act.StoreAbandon? || act.StoreBlame?
             || act.Announce?
    ensures Honest(o, trial, StepBy(env, w, p, act).procs[p].phase, Heard(w, p, act, a))
  {
    if act.Checkout? || act.MarkTesting? || act.Gate? { UndecidedIsHonest(env, o, trial, w, p, act, a); }
    else { ConcludingIsHonest(env, o, trial, w, p, act, a); }
  }

  lemma UndecidedIsHonest(env: Env, o: Origin, trial: Trial, w: World, p: Pid, act: Action, a: Answers)
    requires Ticks(w, p) && Honest(o, trial, w.procs[p].phase, a) && (act.Checkout? || act.MarkTesting? || act.Gate?)
    ensures Honest(o, trial, StepBy(env, w, p, act).procs[p].phase, Heard(w, p, act, a))
  {
  }

  lemma ConcludingIsHonest(env: Env, o: Origin, trial: Trial, w: World, p: Pid, act: Action, a: Answers)
    requires Ticks(w, p) && Honest(o, trial, w.procs[p].phase, a)
    requires act.StoreLand? || act.StoreAbandon? || act.StoreBlame? || act.Announce?
    ensures Honest(o, trial, StepBy(env, w, p, act).procs[p].phase, Heard(w, p, act, a))
  {
  }

  lemma StartIsHonest(env: Env, o: Origin, trial: Trial, w: World, p: Pid, act: Action, a: Answers)
    requires At(o, w, p, a) && Sane(w) && OnBase(o.db, o.queue, o.base) && env.configs(o.base) == Some(o.config)
    requires Honest(o, trial, w.procs[p].phase, a) && (Chooses(act) || act.Open?)
    ensures p in StepBy(env, w, p, act).procs && Ticks(StepBy(env, w, p, act), p)
    ensures Honest(o, trial, StepBy(env, w, p, act).procs[p].phase, Heard(w, p, act, a))
  {
    WorkIsWithinTick(env, w, p, act);
    if act.ReadBase? { ReadIsHonest(env, o, trial, w, p, a); }
    else if act.Choose? { ChooseIsHonest(o, trial, w, p, a); }
    else { OpenIsHonest(o, trial, w, p, a); }
  }

  lemma WorkIsHonest(env: Env, o: Origin, trial: Trial, w: World, p: Pid, act: Action, a: Answers)
    requires At(o, w, p, a) && Sane(w) && OnBase(o.db, o.queue, o.base) && env.configs(o.base) == Some(o.config)
    requires FairPhase(trial, w.procs[p].phase) && Honest(o, trial, w.procs[p].phase, a) && GoesBy(trial, w, p, act)
    ensures p in StepBy(env, w, p, act).procs && Ticks(StepBy(env, w, p, act), p)
    ensures Honest(o, trial, StepBy(env, w, p, act).procs[p].phase, Heard(w, p, act, a))
  {
    WorkIsWithinTick(env, w, p, act);
    if Chooses(act) || act.Open? { StartIsHonest(env, o, trial, w, p, act, a); }
    else if act.Merge? { MergeIsHonest(o, trial, w, p, act.result, a); }
    else if act.FastForward? { FastForwardIsHonest(o, trial, w, p, a); }
    else if act.Decide? { DecideIsHonest(o, trial, w, p, act.interrupted, a); }
    else { PlainIsHonest(env, o, trial, w, p, act, a); }
  }

  // ----- a session by the trial

  lemma {:induction false} TruthfulOneMore(o: Origin, trial: Trial, done: seq<Answers>, a: Answers)
    requires TruthfulRun(o.db, o.queue, o.base, o.config, trial, done)
    requires var last := After(o, done); Truthful(Picked(last.db, o.queue, o.config), trial, a)
    ensures TruthfulRun(o.db, o.queue, o.base, o.config, trial, done + [a])
    decreases |done|
  {
    var all := done + [a];
    if done == [] {
      assert all[0] == a && all[1..] == [];
    } else {
      var (db, base) := Whole(o, done[0]);
      assert all[0] == done[0] && all[1..] == done[1..] + [a];
      TruthfulOneMore(o.(db := db, base := base), trial, done[1..], a);
    }
  }

  /** Every finished tick was answered by the trial, and the one under way if it has been decided. */
  ghost predicate Honestly(s: Origin, trial: Trial, w: World, p: Pid, log: Log) {
    var o := After(s, log.done);
    && TruthfulRun(s.db, s.queue, s.base, s.config, trial, log.done)
    && TableInv(o.db) && OnBase(o.db, s.queue, o.base)
    && (Ticks(w, p) ==> Honest(o, trial, w.procs[p].phase, log.now))
  }

  lemma NextFits(o: Origin, a: Answers)
    requires TableInv(o.db) && OnBase(o.db, o.queue, o.base) && Calm(a)
    ensures var (db, base) := Whole(o, a); TableInv(db) && OnBase(db, o.queue, base)
  {
    AdvanceKeeps(o.db, o.queue, o.base, o.config, a);
    OnNextBase(o.db, o.queue, o.base, o.config, a);
  }

  lemma GivenBackHonestly(s: Origin, trial: Trial, w: World, p: Pid, log: Log)
    requires InSession(s, w, p, log) && Honestly(s, trial, w, p, log)
    ensures Honestly(s, trial, StepRelease(w, p), p, Noted(w, p, Release, log))
  {
    if Ticks(w, p) && w.procs[p].phase.Releasing? {
      AfterIsTicked(s, log.done);
      AfterOneMore(s, log.done, log.now);
      TruthfulOneMore(s, trial, log.done, log.now);
      NextFits(After(s, log.done), log.now);
    }
  }

  lemma WorkedHonestly(env: Env, s: Origin, trial: Trial, w: World, p: Pid, act: Action, log: Log)
    requires InSession(s, w, p, log) && Honestly(s, trial, w, p, log) && Ticks(w, p) && Sane(w) && Fair(trial, w)
    requires GoesBy(trial, w, p, act) && env.configs(After(s, log.done).base) == Some(s.config)
    ensures Honestly(s, trial, StepBy(env, w, p, act), p, Noted(w, p, act, log))
  {
    AfterIsTicked(s, log.done);
    WorkIsHonest(env, After(s, log.done), trial, w, p, act, log.now);
  }

  /** Only working goes on with a tick. */
  lemma ElseUndecided(env: Env, w: World, p: Pid, act: Action)
    requires act.Renew? || act.Acquire? || act.Ask?
    ensures var w' := StepBy(env, w, p, act);
            Ticks(w', p) ==> (Ticks(w, p) && w'.procs[p].phase == w.procs[p].phase) || !Concluded(w'.procs[p].phase)
  {
  }

  lemma SteppedHonestly(env: Env, s: Origin, trial: Trial, w: World, e: Event, p: Pid, log: Log)
    requires InSession(s, w, p, log) && Honestly(s, trial, w, p, log) && Sane(w) && Fair(trial, w)
    requires Attends(e, p, s.queue) && Faithful(trial, w, e) && Uninterrupted(e)
             && forall c :: env.configs(c) == Some(s.config)
    ensures Honestly(s, trial, Step(env, w, e), p, if e.By? then Noted(w, p, e.act, log) else log)
  {
    if e.By? {
      if e.act.Release? { GivenBackHonestly(s, trial, w, p, log); }
      else if !Works(e.act) { ElseUndecided(env, w, p, e.act); }
      else if Ticks(w, p) { WorkedHonestly(env, s, trial, w, p, e.act, log); }
      else { IdlesOutside(env, w, p, e.act); HearsNothing(w, p, e.act, log); }
    }
  }

  ghost predicate AllUninterrupted(events: seq<Event>) {
    forall i :: 0 <= i < |events| ==> Uninterrupted(events[i])
  }

  lemma OneMoreHonestly(env: Env, w: World, before: seq<Event>, events: seq<Event>, e: Event, p: Pid, s: Origin,
                        trial: Trial)
    requires Initial(w) && DisciplinedRun(env, w, before + events) && FaithfulRun(env, w, before + events, trial)
    requires InSession(s, Run(env, w, before + events), p, LogOf(env, w, before, events, p))
    requires Honestly(s, trial, Run(env, w, before + events), p, LogOf(env, w, before, events, p))
    requires Attends(e, p, s.queue) && Faithful(trial, Run(env, w, before + events), e) && Uninterrupted(e)
    requires forall c :: env.configs(c) == Some(s.config)
    ensures Honestly(s, trial, Run(env, w, before + (events + [e])), p, LogOf(env, w, before, events + [e], p))
  {
    RunFits(env, w, before + events);
    RunIsFair(env, w, before + events, trial);
    NextInLog(env, w, before, events, e, p);
    SteppedHonestly(env, s, trial, Run(env, w, before + events), e, p, LogOf(env, w, before, events, p));
  }

  /** What holds of the last event of a run by the trial. */
  lemma LastByTrial(env: Env, w: World, all: seq<Event>, e: Event, trial: Trial)
    requires DisciplinedRun(env, w, all + [e]) && FaithfulRun(env, w, all + [e], trial)
    ensures DisciplinedRun(env, w, all) && FaithfulRun(env, w, all, trial) && Faithful(trial, Run(env, w, all), e)
  {
    assert (all + [e])[..|all|] == all;
  }

  lemma {:induction false} SessionIsHonest(env: Env, w: World, before: seq<Event>, events: seq<Event>, p: Pid,
                                           s: Origin, trial: Trial)
    requires Initial(w) && DisciplinedRun(env, w, before + events) && FaithfulRun(env, w, before + events, trial)
    requires Session(events, p, s.queue) && AllUninterrupted(events)
    requires Opens(env, s, Run(env, w, before), p) && TableInv(s.db) && OnBase(s.db, s.queue, s.base)
    ensures Honestly(s, trial, Run(env, w, before + events), p, LogOf(env, w, before, events, p))
    decreases |events|
  {
    if events == [] {
      assert before + events == before;
    } else {
      var n := |events| - 1;
      assert events[..n] + [events[n]] == events;
      assert before + events == (before + events[..n]) + [events[n]];
      LastByTrial(env, w, before + events[..n], events[n], trial);
      SessionIsHonest(env, w, before, events[..n], p, s, trial);
      SessionIsTicks(env, w, before, events[..n], p, s);
      OneMoreHonestly(env, w, before, events[..n], events[n], p, s, trial);
    }
  }

  // ----- what whole ticks come to, in runs

  lemma {:induction false} DisciplinedFront(env: Env, w: World, before: seq<Event>, events: seq<Event>)
    requires DisciplinedRun(env, w, before + events)
    ensures DisciplinedRun(env, w, before)
    decreases |events|
  {
    if events == [] {
      assert before + events == before;
    } else {
      assert (before + events)[..|before + events| - 1] == before + events[..|events| - 1];
      DisciplinedFront(env, w, before, events[..|events| - 1]);
    }
  }

  lemma SoundAtOpening(env: Env, w: World, before: seq<Event>, events: seq<Event>, p: Pid, s: Origin)
    requires Initial(w) && DisciplinedRun(env, w, before + events) && Opens(env, s, Run(env, w, before), p)
    ensures TableInv(s.db)
  {
    DisciplinedFront(env, w, before, events);
    RunFits(env, w, before);
  }

  /** Between two ticks the tables are what the finished ones come to. */
  lemma SessionRests(env: Env, w: World, before: seq<Event>, events: seq<Event>, p: Pid, s: Origin)
    requires Initial(w) && DisciplinedRun(env, w, before + events) && Session(events, p, s.queue)
    requires Opens(env, s, Run(env, w, before), p) && !Ticks(Run(env, w, before + events), p)
    ensures Run(env, w, before + events).db
              == Ticked(s.db, s.queue, s.base, s.config, LogOf(env, w, before, events, p).done)
  {
    SessionIsTicks(env, w, before, events, p, s);
    AfterIsTicked(s, LogOf(env, w, before, events, p).done);
  }

  ghost predicate CalmLog(log: Log) {
    Calm(log.now) && forall i :: 0 <= i < |log.done| ==> Calm(log.done[i])
  }

  lemma {:induction false} SessionIsCalm(env: Env, w: World, before: seq<Event>, events: seq<Event>, p: Pid)
    requires AllUninterrupted(events)
    ensures CalmLog(LogOf(env, w, before, events, p))
    decreases |events|
  {
    if events != [] {
      SessionIsCalm(env, w, before, events[..|events| - 1], p);
    }
  }

  /**
   One worker left to itself on a queue, at any point of any disciplined run and
   whatever conflicts and whatever the gate says: once so many of its ticks have
   ended that no more can be needed, the queue is empty.
   */
  lemma SoloWorkerEnds(env: Env, w: World, before: seq<Event>, events: seq<Event>, p: Pid, s: Origin)
    requires Initial(w) && DisciplinedRun(env, w, before + events)
    requires Session(events, p, s.queue) && AllUninterrupted(events)
    requires Opens(env, s, Run(env, w, before), p) && NoneActive(s.db, s.queue)
    requires |LogOf(env, w, before, events, p).done| >= EnoughTicks(s.db, s.queue, s.config)
    requires !Ticks(Run(env, w, before + events), p)
    ensures Drained(Run(env, w, before + events).db, s.queue)
  {
    SoundAtOpening(env, w, before, events, p, s);
    SessionRests(env, w, before, events, p, s);
    SessionIsCalm(env, w, before, events, p);
    TickBound(s.db, s.queue, s.base, s.config, LogOf(env, w, before, events, p).done);
  }

  /**
   One worker left to itself on a queue, at any point of any run that is faithful
   to what is wrong with each entry: once so many of its ticks have ended that
   no more can be needed, the queue is empty, every innocent entry has merged
   uncharged and every guilty one is out after exactly the convictions allowed.
   */
  lemma SoloWorkerDrains(env: Env, w: World, before: seq<Event>, events: seq<Event>, p: Pid, s: Origin, trial: Trial)
    requires Initial(w) && DisciplinedRun(env, w, before + events) && FaithfulRun(env, w, before + events, trial)
    requires Session(events, p, s.queue) && AllUninterrupted(events)
    requires Opens(env, s, Run(env, w, before), p) && NoneActive(s.db, s.queue) && Unharmed(s.db, s.queue)
    requires |LogOf(env, w, before, events, p).done| >= EnoughTicks(s.db, s.queue, s.config)
    requires !Ticks(Run(env, w, before + events), p)
    ensures DrainedFairly(s.db, Run(env, w, before + events).db, s.queue, trial, s.config.maxAttempts)
  {
    var log := LogOf(env, w, before, events, p);
    SoundAtOpening(env, w, before, events, p, s);
    SessionRests(env, w, before, events, p, s);
    SessionIsHonest(env, w, before, events, p, s, trial);
    QueueDrainsFairly(s.db, s.queue, s.base, s.config, trial, log.done);
  }

  /** A line of entries never charged that fit one batch, with nothing conflicting and its first fault here. */
  ghost predicate OneHunt(s: Origin, trial: Trial, f: nat) {
    var line := Ranking.Line(s.db, s.queue);
    && NoneActive(s.db, s.queue) && Unharmed(s.db, s.queue)
    && |line| <= s.config.maxBatch && Isolation.FirstFault(line, f, trial)
  }

  /**
   In any disciplined run that goes by the trial: of one worker left to itself,
   the tick that blames the first fault of the line is exactly the one the cost
   recursion says, none before it blames anything, and everything ahead of the
   fault has merged by then.
   */
  lemma SoloWorkerIsolates(env: Env, w: World, before: seq<Event>, events: seq<Event>, p: Pid, s: Origin,
                           trial: Trial, f: nat)
    requires Initial(w) && DisciplinedRun(env, w, before + events) && FaithfulRun(env, w, before + events, trial)
    requires Session(events, p, s.queue) && AllUninterrupted(events)
    requires Opens(env, s, Run(env, w, before), p) && OneHunt(s, trial, f)
    requires var n := |Ranking.Line(s.db, s.queue)|;
             |LogOf(env, w, before, events, p).done| == Isolation.GateRuns(n, f, n)
    requires !Ticks(Run(env, w, before + events), p)
    ensures var line, log := Ranking.Line(s.db, s.queue), LogOf(env, w, before, events, p);
            && Isolation.FoundAt(s.db, s.queue, s.base, s.config, log.done, line, f)
            && Isolation.ChargedOnce(Run(env, w, before + events).db.entries, line[f])
  {
    var log := LogOf(env, w, before, events, p);
    SoundAtOpening(env, w, before, events, p, s);
    SessionRests(env, w, before, events, p, s);
    SessionIsHonest(env, w, before, events, p, s, trial);
    Isolation.FaultIsIsolated(s.db, s.queue, s.base, s.config, log.done, trial, f);
  }
}
