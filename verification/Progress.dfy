/**
 A tick can always be ended by its own worker, and a worker left alone can
 always drain the queue: what is proved of sessions is about something.
 */
module Progress {
  import opened Vocabulary
  import opened Protocol
  import opened Discipline
  import Termination
  import opened Drain
  import TickRuns
  import opened Fairness
  import opened Sessions
  import BaseSafety
  import TableInvariant

  // ----- a commit nobody knows, a token nobody has

  ghost function Above(s: set<nat>): (r: nat)
    ensures forall x :: x in s ==> x < r
  {
    if s == {} then 0
    else
      var x :| x in s;
      var r := Above(s - {x});
      assert forall y :: y in s ==> y == x || y in s - {x};
      if x < r then r else x + 1
  }

  /** A commit a merge of this branch onto this head may come to. */
  ghost function Minted(w: World, head: Sha, branch: Sha): (r: Sha)
    ensures ValidMerge(w.commits, head, branch, r)
  {
    Above(w.commits.Keys + {head, branch})
  }

  // ----- the next step of a tick, by the trial

  ghost function MergeBy(trial: Trial, w: World, p: Pid): Option<Sha>
    requires Merging(w, p) && p in w.heads
  {
    if NextPick(w, p) in trial.conflicting then None
    else Some(Minted(w, w.heads[p], w.procs[p].phase.job.picks[|w.procs[p].phase.tips| - 1].sha))
  }

  ghost function NextAct(trial: Trial, w: World, p: Pid): Action
    requires Ticks(w, p)
  {
    match w.procs[p].phase
    case Ready => ReadBase
    case Based(_, _) => Choose
    case Opening(_, _, _, _) => Open
    case Assembling(job, tips) =>
      if tips == [] then Checkout
      else if |tips| > |job.picks| then MarkTesting
      else if p in w.heads then Merge(MergeBy(trial, w, p)) else Fail
    case Gating(job, _) => Gate(NoneIn(PickIds(job.picks), trial.faulty))
    case Judged(job, _, passed) => if passed then FastForward else Decide(NoneIn(PickIds(job.picks), trial.faulty))
    case Discarding(_, _) => StoreAbandon
    case Blaming(_, _, _) => StoreBlame
    case Moved(_, _) => StoreLand
    case Announcing(_) => Announce
    case Releasing => Release
  }

  /** How far from its end a tick in this phase is. */
  function Distance(phase: Phase): nat {
    match phase
    case Ready => 10
    case Based(_, _) => 9
    case Opening(_, _, _, parent) => if parent.None? then 8 else 3
    case Assembling(_, _) => 7
    case Gating(_, _) => 6
    case Judged(_, _, _) => 5
    case Discarding(_, _) => 4
    case Blaming(_, _, _) => 4
    case Moved(_, _) => 4
    case Announcing(_) => 2
    case Releasing => 1
  }

  /** How many steps it has left in that phase. */
  function StepsLeft(phase: Phase): int {
    match phase
    case Assembling(job, tips) => |job.picks| + 1 - |tips|
    case Announcing(pending) => |pending|
    case _ => 0
  }

  predicate Nearer(phase: Phase, phase': Phase) {
    Distance(phase') < Distance(phase) || (Distance(phase') == Distance(phase)
                                           && 0 <= StepsLeft(phase') < StepsLeft(phase))
  }

  /** A failure the worker is about to judge has a fault in it. */
  ghost predicate ForCause(trial: Trial, phase: Phase) {
    phase.Judged? && !phase.passed ==> !NoneIn(PickIds(phase.job.picks), trial.faulty)
  }

  /** The worker's next step is its own work, goes by the trial, and takes it nearer the end of its tick. */
  ghost predicate GoesOn(env: Env, trial: Trial, w: World, p: Pid)
    requires Ticks(w, p)
  {
    var act, phase := NextAct(trial, w, p), w.procs[p].phase;
    && Faithful(trial, w, By(p, act))
    && if phase.Releasing? then act == Release
       else
         && Works(act) && Ticks(StepBy(env, w, p, act), p) && Nearer(phase, StepBy(env, w, p, act).procs[p].phase)
         && (ForCause(trial, phase) ==>
               Uninterrupted(By(p, act)) && ForCause(trial, StepBy(env, w, p, act).procs[p].phase))
  }

  lemma EarlyGoesOn(env: Env, trial: Trial, w: World, p: Pid)
    requires Ticks(w, p) && (w.procs[p].phase.Ready? || w.procs[p].phase.Based?)
    ensures GoesOn(env, trial, w, p)
  {
  }

  lemma OpenedNearer(w: World, p: Pid)
    requires Ticks(w, p) && w.procs[p].phase.Opening?
    ensures Ticks(StepOpen(w, p), p)
    ensures var phase' := StepOpen(w, p).procs[p].phase;
            phase'.Releasing? || (phase'.Assembling? && w.procs[p].phase.parent.None?)
  {
  }

  lemma OpeningGoesOn(env: Env, trial: Trial, w: World, p: Pid)
    requires Ticks(w, p) && w.procs[p].phase.Opening?
    ensures GoesOn(env, trial, w, p)
  {
    OpenedNearer(w, p);
  }

  lemma AssemblyGoesOn(env: Env, trial: Trial, w: World, p: Pid)
    requires BaseSafety.SafeWorld(env, w) && Ticks(w, p) && w.procs[p].phase.Assembling?
    ensures GoesOn(env, trial, w, p)
  {
    assert BaseSafety.ProcSafe(env, w, p);
    if Merging(w, p) { MergeGoesOn(env, trial, w, p); }
  }

  lemma MergeGoesOn(env: Env, trial: Trial, w: World, p: Pid)
    requires Merging(w, p) && p in w.heads
    ensures GoesOn(env, trial, w, p)
  {
  }

  lemma TestGoesOn(env: Env, trial: Trial, w: World, p: Pid)
    requires BaseSafety.SafeWorld(env, w) && Ticks(w, p) && w.procs[p].phase.Gating?
    ensures GoesOn(env, trial, w, p)
  {
    assert BaseSafety.ProcSafe(env, w, p);
  }

  lemma LandingNearer(w: World, p: Pid)
    requires Ticks(w, p) && w.procs[p].phase.Judged?
    ensures Ticks(StepFastForward(w, p), p)
    ensures w.procs[p].phase.passed && w.procs[p].phase.tips != [] ==>
              Distance(StepFastForward(w, p).procs[p].phase) <= 4
  {
  }

  lemma DecidedNearer(job: Job, interrupted: bool)
    ensures Distance(Decided(job, interrupted)) <= 4
  {
  }

  lemma VerdictGoesOn(env: Env, trial: Trial, w: World, p: Pid)
    requires BaseSafety.SafeWorld(env, w) && Ticks(w, p) && w.procs[p].phase.Judged?
    ensures GoesOn(env, trial, w, p)
  {
    assert BaseSafety.ProcSafe(env, w, p);
    if w.procs[p].phase.passed {
      LandingNearer(w, p);
    } else {
      FailureGoesOn(env, trial, w, p, w.procs[p].phase.job, w.procs[p].phase.tips);
    }
  }

  lemma FailureGoesOn(env: Env, trial: Trial, w: World, p: Pid, job: Job, tips: seq<Sha>)
    requires Ticks(w, p) && w.procs[p].phase == Judged(job, tips, false)
    ensures GoesOn(env, trial, w, p)
  {
    var interrupted := NoneIn(PickIds(job.picks), trial.faulty);
    DecidedNearer(job, interrupted);
    assert StepBy(env, w, p, Decide(interrupted)) == Goto(w, p, Decided(job, interrupted));
  }

  lemma ClosedNext(w: World, p: Pid)
    requires Ticks(w, p)
    ensures w.procs[p].phase.Discarding? ==>
              && Ticks(StepStoreAbandon(w, p), p) && Distance(StepStoreAbandon(w, p).procs[p].phase) <= 3
              && !StepStoreAbandon(w, p).procs[p].phase.Judged?
    ensures w.procs[p].phase.Blaming? ==>
              Ticks(StepStoreBlame(w, p), p) && StepStoreBlame(w, p).procs[p].phase.Announcing?
    ensures w.procs[p].phase.Moved? ==> Ticks(StepStoreLand(w, p), p) && StepStoreLand(w, p).procs[p].phase.Announcing?
  {
  }

  lemma AbandonGoesOn(env: Env, trial: Trial, w: World, p: Pid)
    requires Ticks(w, p) && w.procs[p].phase.Discarding?
    ensures GoesOn(env, trial, w, p)
  {
    ClosedNext(w, p);
    assert StepBy(env, w, p, StoreAbandon) == StepStoreAbandon(w, p);
  }

  lemma BlameGoesOn(env: Env, trial: Trial, w: World, p: Pid)
    requires Ticks(w, p) && w.procs[p].phase.Blaming?
    ensures GoesOn(env, trial, w, p)
  {
    ClosedNext(w, p);
    assert StepBy(env, w, p, StoreBlame) == StepStoreBlame(w, p);
  }

  lemma LandGoesOn(env: Env, trial: Trial, w: World, p: Pid)
    requires Ticks(w, p) && w.procs[p].phase.Moved?
    ensures GoesOn(env, trial, w, p)
  {
    ClosedNext(w, p);
    assert StepBy(env, w, p, StoreLand) == StepStoreLand(w, p);
  }

  lemma EndGoesOn(env: Env, trial: Trial, w: World, p: Pid)
    requires Ticks(w, p) && (w.procs[p].phase.Announcing? || w.procs[p].phase.Releasing?)
    ensures GoesOn(env, trial, w, p)
  {
  }

  /** In every run, whatever else happened, a worker inside a tick has a next step that takes it nearer the end. */
  lemma NeverStuck(env: Env, w: World, events: seq<Event>, p: Pid, trial: Trial)
    requires Initial(w) && Ticks(Run(env, w, events), p)
    ensures GoesOn(env, trial, Run(env, w, events), p)
  {
    BaseSafety.RunSafe(env, w, events);
    var now := Run(env, w, events);
    match now.procs[p].phase {
      case Opening(_, _, _, _) => OpeningGoesOn(env, trial, now, p);
      case Assembling(_, _) => AssemblyGoesOn(env, trial, now, p);
      case Gating(_, _) => TestGoesOn(env, trial, now, p);
      case Judged(_, _, _) => VerdictGoesOn(env, trial, now, p);
      case Discarding(_, _) => AbandonGoesOn(env, trial, now, p);
      case Blaming(_, _, _) => BlameGoesOn(env, trial, now, p);
      case Moved(_, _) => LandGoesOn(env, trial, now, p);
      case Announcing(_) => EndGoesOn(env, trial, now, p);
      case Releasing => EndGoesOn(env, trial, now, p);
      case _ => EarlyGoesOn(env, trial, now, p);
    }
  }

  // ----- to the end of the tick

  /** Each of these events goes by the trial where it happens. */
  ghost predicate FaithfulAfter(env: Env, w: World, events: seq<Event>, more: seq<Event>, trial: Trial)
    decreases |more|
  {
    more == [] || (Faithful(trial, Run(env, w, events), more[0])
                   && FaithfulAfter(env, w, events + [more[0]], more[1..], trial))
  }

  predicate OwnActs(more: seq<Event>, p: Pid) {
    forall i :: 0 <= i < |more| ==> more[i].By? && more[i].pid == p && (Works(more[i].act) || more[i].act.Release?)
  }

  lemma StaysTimely(env: Env, w: World, p: Pid, act: Action)
    requires Timely(w) && (Works(act) || act.Release?)
    ensures Timely(StepBy(env, w, p, act))
  {
    if Works(act) { WorkIsWithinTick(env, w, p, act); }
  }

  lemma StaysDisciplined(env: Env, w: World, events: seq<Event>, p: Pid, act: Action)
    requires DisciplinedRun(env, w, events) && Timely(Run(env, w, events)) && (Works(act) || act.Release?)
    ensures DisciplinedRun(env, w, events + [By(p, act)]) && Timely(Run(env, w, events + [By(p, act)]))
  {
    StaysTimely(env, Run(env, w, events), p, act);
    RunSnoc(env, w, events, By(p, act));
    assert (events + [By(p, act)])[..|events|] == events;
  }

  /** The worker has ended its tick, one more is on the log, and nothing was done but its own steps by the trial. */
  ghost predicate Ends(env: Env, w: World, before: seq<Event>, events: seq<Event>, more: seq<Event>, p: Pid,
                       trial: Trial) {
    var end := Run(env, w, before + (events + more));
    && OwnActs(more, p) && FaithfulAfter(env, w, before + events, more, trial)
    && p in end.procs && end.procs[p].Resting?
    && |LogOf(env, w, before, events + more, p).done| == |LogOf(env, w, before, events, p).done| + 1
  }

  lemma EndsByReleasing(env: Env, w: World, before: seq<Event>, events: seq<Event>, p: Pid, trial: Trial)
    requires Ticks(Run(env, w, before + events), p) && Run(env, w, before + events).procs[p].phase.Releasing?
    ensures Ends(env, w, before, events, [By(p, Release)], p, trial)
  {
    NextInLog(env, w, before, events, By(p, Release), p);
    assert before + (events + [By(p, Release)]) == (before + events) + [By(p, Release)];
    RunSnoc(env, w, before + events, By(p, Release));
  }

  lemma FaithfulFirst(env: Env, w: World, all: seq<Event>, e: Event, rest: seq<Event>, trial: Trial)
    requires Faithful(trial, Run(env, w, all), e) && FaithfulAfter(env, w, all + [e], rest, trial)
    ensures FaithfulAfter(env, w, all, [e] + rest, trial)
  {
    assert ([e] + rest)[1..] == rest;
  }

  lemma OwnActsFirst(act: Action, rest: seq<Event>, p: Pid)
    requires OwnActs(rest, p) && Works(act)
    ensures OwnActs([By(p, act)] + rest, p)
  {
  }

  /** Work finishes no tick. */
  lemma WorkLogsNothing(env: Env, w: World, before: seq<Event>, events: seq<Event>, act: Action, p: Pid)
    requires Works(act)
    ensures LogOf(env, w, before, events + [By(p, act)], p).done == LogOf(env, w, before, events, p).done
  {
    NextInLog(env, w, before, events, By(p, act), p);
  }

  lemma EndsAfter(env: Env, w: World, before: seq<Event>, events: seq<Event>, next: seq<Event>, act: Action,
                  rest: seq<Event>, more: seq<Event>, p: Pid, trial: Trial)
    requires Works(act) && next == events + [By(p, act)] && more == [By(p, act)] + rest
    requires FaithfulAfter(env, w, before + events, more, trial) && Ends(env, w, before, next, rest, p, trial)
    requires LogOf(env, w, before, next, p).done == LogOf(env, w, before, events, p).done
    ensures Ends(env, w, before, events, more, p, trial)
  {
    assert events + more == next + rest;
    OwnActsFirst(act, rest, p);
  }

  /** One step nearer: what it keeps and what it leaves to be done. */
  lemma OneStepNearer(env: Env, w: World, all: seq<Event>, act: Action, p: Pid, trial: Trial)
    requires Initial(w) && Ticks(Run(env, w, all), p) && act == NextAct(trial, Run(env, w, all), p)
    ensures Faithful(trial, Run(env, w, all), By(p, act)) && (Works(act) || act.Release?)
    ensures var phase, next := Run(env, w, all).procs[p].phase, Run(env, w, all + [By(p, act)]);
            if phase.Releasing? then act == Release
            else
              && Works(act) && Ticks(next, p) && Nearer(phase, next.procs[p].phase)
              && (ForCause(trial, phase) ==> Uninterrupted(By(p, act)) && ForCause(trial, next.procs[p].phase))
    ensures DisciplinedRun(env, w, all) && Timely(Run(env, w, all)) ==>
              DisciplinedRun(env, w, all + [By(p, act)]) && Timely(Run(env, w, all + [By(p, act)]))
  {
    var now := Run(env, w, all);
    NeverStuck(env, w, all, p, trial);
    RunSnoc(env, w, all, By(p, act));
    if DisciplinedRun(env, w, all) && Timely(now) { StaysDisciplined(env, w, all, p, act); }
  }

  /** Nothing had to be interrupted. */
  ghost predicate RunsThrough(env: Env, w: World, all: seq<Event>, more: seq<Event>, p: Pid, trial: Trial) {
    Ticks(Run(env, w, all), p) && ForCause(trial, Run(env, w, all).procs[p].phase) ==> AllUninterrupted(more)
  }

  ghost predicate StaysInTime(env: Env, w: World, all: seq<Event>, more: seq<Event>) {
    DisciplinedRun(env, w, all) && Timely(Run(env, w, all)) ==> DisciplinedRun(env, w, all + more)
  }

  ghost predicate KeepsUp(env: Env, w: World, all: seq<Event>, more: seq<Event>, p: Pid, trial: Trial) {
    RunsThrough(env, w, all, more, p, trial) && StaysInTime(env, w, all, more)
  }

  lemma ThroughFirst(env: Env, w: World, all: seq<Event>, act: Action, rest: seq<Event>, p: Pid, trial: Trial)
    requires Initial(w) && Ticks(Run(env, w, all), p) && act == NextAct(trial, Run(env, w, all), p) && Works(act)
    requires RunsThrough(env, w, all + [By(p, act)], rest, p, trial)
    ensures RunsThrough(env, w, all, [By(p, act)] + rest, p, trial)
  {
    OneStepNearer(env, w, all, act, p, trial);
  }

  lemma InTimeFirst(env: Env, w: World, all: seq<Event>, act: Action, rest: seq<Event>, p: Pid)
    requires Works(act) && StaysInTime(env, w, all + [By(p, act)], rest)
    ensures StaysInTime(env, w, all, [By(p, act)] + rest)
  {
    if DisciplinedRun(env, w, all) && Timely(Run(env, w, all)) { StaysDisciplined(env, w, all, p, act); }
    assert all + ([By(p, act)] + rest) == (all + [By(p, act)]) + rest;
  }

  lemma KeepsUpFirst(env: Env, w: World, all: seq<Event>, act: Action, rest: seq<Event>, p: Pid, trial: Trial)
    requires Initial(w) && Ticks(Run(env, w, all), p) && act == NextAct(trial, Run(env, w, all), p) && Works(act)
    requires KeepsUp(env, w, all + [By(p, act)], rest, p, trial)
    ensures KeepsUp(env, w, all, [By(p, act)] + rest, p, trial)
  {
    ThroughFirst(env, w, all, act, rest, p, trial);
    InTimeFirst(env, w, all, act, rest, p);
  }

  lemma KeepsUpLast(env: Env, w: World, all: seq<Event>, p: Pid, trial: Trial)
    requires Initial(w) && Ticks(Run(env, w, all), p) && Run(env, w, all).procs[p].phase.Releasing?
    ensures KeepsUp(env, w, all, [By(p, Release)], p, trial)
  {
    OneStepNearer(env, w, all, Release, p, trial);
  }

  /**
   In every run, whatever else happened, a worker inside a tick can end it by
   steps of its own that go by the trial; none of them is an interruption unless
   it was judging a failure with no fault in it.
   */
  lemma {:induction false} TicksCanEnd(env: Env, w: World, before: seq<Event>, events: seq<Event>, p: Pid,
                                       trial: Trial) returns (more: seq<Event>)
    requires Initial(w) && Ticks(Run(env, w, before + events), p)
    ensures Ends(env, w, before, events, more, p, trial)
    ensures KeepsUp(env, w, before + events, more, p, trial)
    decreases Distance(Run(env, w, before + events).procs[p].phase),
              StepsLeft(Run(env, w, before + events).procs[p].phase)
  {
    var all := before + events;
    var act := NextAct(trial, Run(env, w, all), p);
    OneStepNearer(env, w, all, act, p, trial);
    assert before + (events + [By(p, act)]) == all + [By(p, act)];
    if act.Release? {
      more := [By(p, act)];
      EndsByReleasing(env, w, before, events, p, trial);
      KeepsUpLast(env, w, all, p, trial);
    } else {
      var rest := TicksCanEnd(env, w, before, events + [By(p, act)], p, trial);
      more := [By(p, act)] + rest;
      WorkLogsNothing(env, w, before, events, act, p);
      FaithfulFirst(env, w, all, By(p, act), rest, trial);
      EndsAfter(env, w, before, events, events + [By(p, act)], act, rest, more, p, trial);
      KeepsUpFirst(env, w, all, act, rest, p, trial);
    }
  }


  // ----- tick after tick

  lemma {:induction false} FaithfulThrough(env: Env, w: World, events: seq<Event>, more: seq<Event>, trial: Trial)
    requires FaithfulRun(env, w, events, trial) && FaithfulAfter(env, w, events, more, trial)
    ensures FaithfulRun(env, w, events + more, trial)
    decreases |more|
  {
    if more == [] {
      assert events + more == events;
    } else {
      var e := more[0];
      assert (events + [e])[..|events|] == events;
      FaithfulThrough(env, w, events + [e], more[1..], trial);
      assert events + more == (events + [e]) + more[1..];
    }
  }

  lemma DisciplinedIsTimely(env: Env, w: World, events: seq<Event>)
    requires Initial(w) && DisciplinedRun(env, w, events)
    ensures Timely(Run(env, w, events))
  {
  }

  /** A session by the trial, disciplined and uninterrupted so far. */
  ghost predicate GoesWell(env: Env, w: World, before: seq<Event>, events: seq<Event>, p: Pid, q: Queue, trial: Trial) {
    && Session(events, p, q) && AllUninterrupted(events)
    && DisciplinedRun(env, w, before + events) && FaithfulRun(env, w, before + events, trial)
  }

  /** An event that nobody answers. */
  predicate Unanswered(act: Action) {
    act.Ask? || act.Acquire?
  }

  /** Asking or acquiring in time, a run goes on as disciplined and as faithful as it was. */
  lemma AnotherUnanswered(env: Env, w: World, all: seq<Event>, p: Pid, trial: Trial, act: Action)
    requires DisciplinedRun(env, w, all) && FaithfulRun(env, w, all, trial) && Unanswered(act)
    requires Timely(StepBy(env, Run(env, w, all), p, act))
    ensures DisciplinedRun(env, w, all + [By(p, act)]) && FaithfulRun(env, w, all + [By(p, act)], trial)
    ensures Run(env, w, all + [By(p, act)]) == StepBy(env, Run(env, w, all), p, act)
  {
    assert (all + [By(p, act)])[..|all|] == all;
  }

  lemma WellWithOneMore(env: Env, w: World, before: seq<Event>, events: seq<Event>, p: Pid, q: Queue, trial: Trial,
                        act: Action)
    requires GoesWell(env, w, before, events, p, q, trial) && Unanswered(act) && Attends(By(p, act), p, q)
    requires Timely(StepBy(env, Run(env, w, before + events), p, act))
    ensures GoesWell(env, w, before, events + [By(p, act)], p, q, trial)
    ensures Run(env, w, before + (events + [By(p, act)])) == StepBy(env, Run(env, w, before + events), p, act)
  {
    assert before + (events + [By(p, act)]) == (before + events) + [By(p, act)];
    AnotherUnanswered(env, w, before + events, p, trial, act);
  }

  /** Asking or acquiring ends no tick. */
  lemma LoggedWithOneMore(env: Env, w: World, before: seq<Event>, events: seq<Event>, p: Pid, act: Action)
    requires Unanswered(act)
    ensures LogOf(env, w, before, events + [By(p, act)], p).done == LogOf(env, w, before, events, p).done
  {
    NextInLog(env, w, before, events, By(p, act), p);
  }

  lemma AskingIsTimely(w: World, p: Pid, q: Queue)
    requires Timely(w) && p in w.procs && w.procs[p].Resting?
    ensures var asked := StepAsk(w, p, q);
            && Timely(asked) && asked.procs[p] == Asking(q, w.clock) && asked.leases == w.leases
            && asked.minted == w.minted && asked.clock == w.clock
  {
  }

  lemma TakingIsTimely(env: Env, w: World, p: Pid, q: Queue, token: Token)
    requires Timely(w) && p in w.procs && w.procs[p] == Asking(q, w.clock) && q !in w.leases && token !in w.minted
             && env.ttl > 0
    ensures var took := StepAcquire(env, w, p, false, token);
            Timely(took) && Ticks(took, p) && took.procs[p].phase.Ready?
  {
  }

  /** The worker asks for the queue again, and gets it. */
  lemma TakesUp(env: Env, w: World, before: seq<Event>, events: seq<Event>, p: Pid, q: Queue, trial: Trial)
    returns (next: seq<Event>)
    requires Initial(w) && GoesWell(env, w, before, events, p, q, trial) && env.ttl > 0
    requires var now := Run(env, w, before + events); p in now.procs && now.procs[p].Resting? && q !in now.leases
    ensures GoesWell(env, w, before, next, p, q, trial)
    ensures var now := Run(env, w, before + next); Timely(now) && Ticks(now, p) && now.procs[p].phase.Ready?
    ensures LogOf(env, w, before, next, p).done == LogOf(env, w, before, events, p).done
  {
    var now := Run(env, w, before + events);
    var token := Above(now.minted);
    DisciplinedIsTimely(env, w, before + events);
    AskingIsTimely(now, p, q);
    WellWithOneMore(env, w, before, events, p, q, trial, Ask(q));
    LoggedWithOneMore(env, w, before, events, p, Ask(q));
    var asked := events + [By(p, Ask(q))];
    TakingIsTimely(env, Run(env, w, before + asked), p, q, token);
    WellWithOneMore(env, w, before, asked, p, q, trial, Acquire(false, token));
    LoggedWithOneMore(env, w, before, asked, p, Acquire(false, token));
    next := asked + [By(p, Acquire(false, token))];
  }

  lemma {:induction false} OwnActsAttend(events: seq<Event>, more: seq<Event>, p: Pid, q: Queue)
    requires Session(events, p, q) && OwnActs(more, p)
    ensures Session(events + more, p, q)
  {
    forall i | 0 <= i < |events + more| ensures Attends((events + more)[i], p, q) {
      if i >= |events| { assert (events + more)[i] == more[i - |events|]; }
    }
  }

  lemma UninterruptedBoth(events: seq<Event>, more: seq<Event>)
    requires AllUninterrupted(events) && AllUninterrupted(more)
    ensures AllUninterrupted(events + more)
  {
    forall i | 0 <= i < |events + more| ensures Uninterrupted((events + more)[i]) {
      if i >= |events| { assert (events + more)[i] == more[i - |events|]; }
    }
  }

  lemma Regrouped(env: Env, w: World, before: seq<Event>, events: seq<Event>, more: seq<Event>, p: Pid, q: Queue,
                  trial: Trial)
    requires Session(events + more, p, q) && AllUninterrupted(events + more)
    requires DisciplinedRun(env, w, (before + events) + more) && FaithfulRun(env, w, (before + events) + more, trial)
    ensures GoesWell(env, w, before, events + more, p, q, trial)
  {
    assert before + (events + more) == (before + events) + more;
  }

  /** A tick seen through by the trial leaves the session going well. */
  lemma StaysWell(env: Env, w: World, before: seq<Event>, events: seq<Event>, more: seq<Event>, p: Pid, q: Queue,
                  trial: Trial)
    requires GoesWell(env, w, before, events, p, q, trial) && OwnActs(more, p) && AllUninterrupted(more)
    requires FaithfulAfter(env, w, before + events, more, trial) && DisciplinedRun(env, w, (before + events) + more)
    ensures GoesWell(env, w, before, events + more, p, q, trial)
  {
    FaithfulThrough(env, w, before + events, more, trial);
    OwnActsAttend(events, more, p, q);
    UninterruptedBoth(events, more);
    Regrouped(env, w, before, events, more, p, q, trial);
  }

  /** It takes the queue up and sees a tick through. */
  lemma OneMoreTick(env: Env, w: World, before: seq<Event>, events: seq<Event>, p: Pid, q: Queue, trial: Trial)
    returns (next: seq<Event>)
    requires Initial(w) && GoesWell(env, w, before, events, p, q, trial) && env.ttl > 0
    requires var now := Run(env, w, before + events); p in now.procs && now.procs[p].Resting? && q !in now.leases
    ensures GoesWell(env, w, before, next, p, q, trial)
    ensures var now := Run(env, w, before + next); p in now.procs && now.procs[p].Resting?
    ensures |LogOf(env, w, before, next, p).done| == |LogOf(env, w, before, events, p).done| + 1
  {
    var taken := TakesUp(env, w, before, events, p, q, trial);
    var more := TicksCanEnd(env, w, before, taken, p, trial);
    StaysWell(env, w, before, taken, more, p, q, trial);
    next := taken + more;
  }

  lemma {:induction false} SessionsGoOn(env: Env, w: World, before: seq<Event>, p: Pid, s: TickRuns.Origin,
                                        trial: Trial, n: nat) returns (events: seq<Event>)
    requires Initial(w) && DisciplinedRun(env, w, before) && FaithfulRun(env, w, before, trial) && env.ttl > 0
    requires Opens(env, s, Run(env, w, before), p)
    ensures GoesWell(env, w, before, events, p, s.queue, trial)
    ensures var now := Run(env, w, before + events); p in now.procs && now.procs[p].Resting?
    ensures |LogOf(env, w, before, events, p).done| == n
    decreases n
  {
    if n == 0 {
      events := [];
      assert before + [] == before;
    } else {
      var sofar := SessionsGoOn(env, w, before, p, s, trial, n - 1);
      SessionIsTicks(env, w, before, sofar, p, s);
      events := OneMoreTick(env, w, before, sofar, p, s.queue, trial);
    }
  }

  /**
   From any point of a disciplined run faithful to the trial at which nobody is
   at work on a queue, a worker that is left alone can bring the queue to its
   end, with everyone given their due.
   */
  lemma SoloWorkerCanDrain(env: Env, w: World, before: seq<Event>, p: Pid, s: TickRuns.Origin, trial: Trial)
    returns (events: seq<Event>)
    requires Initial(w) && DisciplinedRun(env, w, before) && FaithfulRun(env, w, before, trial) && env.ttl > 0
    requires Opens(env, s, Run(env, w, before), p)
    requires TableInvariant.NoneActive(s.db, s.queue) && Unharmed(s.db, s.queue)
    ensures GoesWell(env, w, before, events, p, s.queue, trial)
    ensures DrainedFairly(s.db, Run(env, w, before + events).db, s.queue, trial, s.config.maxAttempts)
  {
    events := SessionsGoOn(env, w, before, p, s, trial, Termination.EnoughTicks(s.db, s.queue, s.config));
    SoloWorkerDrains(env, w, before, events, p, s, trial);
  }
}
