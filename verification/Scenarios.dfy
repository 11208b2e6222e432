/**
 Runs that get into the corners named elsewhere: one entry, one worker, step by
 step. Each is a run of the protocol like any other, from any initial world
 whose base branch configures a gate.
 */
module Scenarios {
  import opened Vocabulary
  import opened States
  import opened Tables
  import opened TableInvariant
  import opened Protocol
  import opened Discipline
  import Decimal
  import Lifecycles
  import Overtaking
  import Ranking
  import Retention

  /** What is queued where, and how the base configures its gate. */
  datatype Setting = Setting(queue: Queue, branch: string, sha: Sha, base: Sha, config: Config)

  ghost predicate Set(env: Env, w: World, s: Setting) {
    && Initial(w) && s.queue in w.refs && w.refs[s.queue] == s.base && env.configs(s.base) == Some(s.config)
    && env.ttl > 0 && 0 !in w.minted && 1 !in w.minted
  }

  /** A commit some merge may come to. */
  ghost predicate Unseen(w: World, s: Setting, result: Sha) {
    result !in w.commits && result != s.base && result != s.sha
  }

  // ----- the tables along the way

  function Waited(s: Setting): Db {
    Db([EntryRow(s.queue, s.branch, s.sha, Queued, 0, 0, None)], [])
  }

  function Taken1(s: Setting): Db {
    Opened(Waited(s), s.queue, s.base, [0], None)
  }

  function Tested1(s: Setting, tip: Sha): Db {
    UnderTest(Taken1(s), 0, tip)
  }

  function TheJob(s: Setting): Job {
    Job(0, s.base, s.config, [Pick(0, s.sha)])
  }

  lemma BatchOfOne(s: Setting)
    ensures Ranking.SelectBatch(Waited(s), s.queue, s.config.maxBatch) == [0]
    ensures Picks(Waited(s).entries, [0]) == [Pick(0, s.sha)] && PickIds([Pick(0, s.sha)]) == [0]
  {
    var db := Waited(s);
    assert forall e :: e in [0] <==> Waits(db, s.queue, e);
    Ranking.RankedUnique(db.entries, Ranking.Waiting(db, s.queue), [0]);
  }

  lemma OneInHand(s: Setting, db: Db)
    requires |db.candidates| == 1 && db.entries == Taken1(s).entries && Ids(db.candidates[0]) == [0]
    requires db.candidates[0].queue == s.queue && db.candidates[0].base == s.base && db.candidates[0].state.IsActive()
    ensures Chosen(db, s.queue, s.base, s.config) == Assembling(TheJob(s), [])
  {
    assert ActiveCandidate(db, s.queue) == Some(0);
    assert Picks(db.entries, [0]) == [Pick(0, s.sha)];
  }

  // ----- the worlds along the way

  /** Worker 1 alone is inside a tick, at this phase and under this token; worker 2 rests. */
  ghost predicate Shows(env: Env, w: World, now: World, s: Setting, token: Token, phase: Phase, db: Db,
                        runs: seq<GateRun>) {
    && OnlyOne(now) && Ticks(now, 1) && now.procs[1] == Ticking(s.queue, Lease(token, w.clock + env.ttl), phase)
    && s.queue in now.leases && now.leases[s.queue] == LeaseRow(1, token, w.clock + env.ttl)
    && now.clock == w.clock && now.refs == w.refs && now.db == db && now.runs == runs
    && (forall t :: t in now.minted ==> t in w.minted || t <= token)
  }

  ghost predicate OnlyOne(now: World) {
    && 2 in now.procs && now.procs[2].Resting?
    && forall p :: p in now.procs ==> p == 1 || p == 2
  }

  /** Worker 1 rests between its ticks. */
  ghost predicate Rests(w: World, now: World, s: Setting, token: nat) {
    && OnlyOne(now) && 1 in now.procs && now.procs[1].Resting? && s.queue !in now.leases
    && now.clock == w.clock && now.refs == w.refs && (forall t :: t in now.minted ==> t in w.minted || t < token)
  }

  ghost predicate HeadAt(now: World, head: Sha) {
    1 in now.heads && now.heads[1] == head
  }

  /** These events are a disciplined run to this world. */
  ghost predicate Reaches(env: Env, w: World, events: seq<Event>, now: World) {
    DisciplinedRun(env, w, events) && now == Run(env, w, events)
  }

  lemma Next(env: Env, w: World, events: seq<Event>, e: Event, now: World)
    requires Reaches(env, w, events, now) && Timely(Step(env, now, e))
             && !(e.Around? && (e.what.Dequeue? || e.what.Promote?))
    ensures Reaches(env, w, events + [e], Step(env, now, e))
  {
    RunSnoc(env, w, events, e);
    assert (events + [e])[..|events|] == events;
  }

  /** The next step of worker 1. */
  lemma OwnNext(env: Env, w: World, events: seq<Event>, now: World, act: Action, next: World,
                s: Setting, token: Token, phase: Phase, db: Db, runs: seq<GateRun>)
    requires Reaches(env, w, events, now) && next == StepBy(env, now, 1, act)
    requires Shows(env, w, next, s, token, phase, db, runs) && env.ttl > 0
    ensures Reaches(env, w, events + [By(1, act)], next)
  {
    Next(env, w, events, By(1, act), now);
  }

  // ----- the steps

  lemma Spawned(env: Env, w: World, s: Setting) returns (events: seq<Event>, now: World)
    requires Set(env, w, s)
    ensures Reaches(env, w, events, now) && Rests(w, now, s, 0) && now.db == Waited(s) && now.runs == []
    ensures now.commits == w.commits
  {
    var enqueued := w.(db := Waited(s));
    var spawned := enqueued.(procs := map[1 := Resting]);
    now := spawned.(procs := map[1 := Resting, 2 := Resting]);
    assert Enqueued(w.db, s.queue, s.branch, s.sha) == Waited(s);
    Next(env, w, [], Around(Enqueue(s.queue, s.branch, s.sha)), w);
    Next(env, w, [] + [Around(Enqueue(s.queue, s.branch, s.sha))], Around(Spawn(1)), enqueued);
    Next(env, w, [] + [Around(Enqueue(s.queue, s.branch, s.sha))] + [Around(Spawn(1))], Around(Spawn(2)), spawned);
    events := [] + [Around(Enqueue(s.queue, s.branch, s.sha))] + [Around(Spawn(1))] + [Around(Spawn(2))];
  }

  lemma TakingShows(env: Env, w: World, now: World, s: Setting, token: Token)
    requires Set(env, w, s) && Rests(w, now, s, token) && token in {0, 1}
    ensures var next := StepAcquire(env, StepAsk(now, 1, s.queue), 1, false, token);
            Shows(env, w, next, s, token, Ready, now.db, now.runs) && next.commits == now.commits
    ensures Timely(StepAsk(now, 1, s.queue))
  {
  }

  /** Worker 1 asks for the queue and gets it. */
  lemma Acquired(env: Env, w: World, events: seq<Event>, now: World, s: Setting, token: Token)
    returns (more: seq<Event>, next: World)
    requires Reaches(env, w, events, now) && Set(env, w, s) && Rests(w, now, s, token) && token in {0, 1}
    ensures Reaches(env, w, more, next) && Shows(env, w, next, s, token, Ready, now.db, now.runs)
    ensures next.commits == now.commits
  {
    var asked := StepAsk(now, 1, s.queue);
    next := StepAcquire(env, asked, 1, false, token);
    TakingShows(env, w, now, s, token);
    Next(env, w, events, By(1, Ask(s.queue)), now);
    OwnNext(env, w, events + [By(1, Ask(s.queue))], asked, Acquire(false, token), next, s, token, Ready, now.db,
            now.runs);
    more := events + [By(1, Ask(s.queue))] + [By(1, Acquire(false, token))];
  }

  lemma ReadingShows(env: Env, w: World, now: World, s: Setting, token: Token, db: Db, runs: seq<GateRun>)
    requires Set(env, w, s) && Shows(env, w, now, s, token, Ready, db, runs)
    ensures var next := StepReadBase(env, now, 1);
            Shows(env, w, next, s, token, Based(s.base, s.config), db, runs) && next.commits == now.commits
  {
  }

  lemma ChoosingShows(env: Env, w: World, now: World, s: Setting, token: Token, db: Db, runs: seq<GateRun>)
    requires Shows(env, w, now, s, token, Based(s.base, s.config), db, runs)
    ensures var next := StepChoose(now, 1);
            Shows(env, w, next, s, token, Chosen(db, s.queue, s.base, s.config), db, runs)
                && next.commits == now.commits
  {
  }

  /** It reads the base and chooses what to work on. */
  lemma Chose(env: Env, w: World, events: seq<Event>, now: World, s: Setting, token: Token, db: Db, runs: seq<GateRun>)
    returns (more: seq<Event>, next: World)
    requires Reaches(env, w, events, now) && Set(env, w, s) && Shows(env, w, now, s, token, Ready, db, runs)
    ensures Reaches(env, w, more, next) && Shows(env, w, next, s, token, Chosen(db, s.queue, s.base, s.config), db,
                                                 runs)
    ensures next.commits == now.commits
  {
    var read := StepReadBase(env, now, 1);
    next := StepChoose(read, 1);
    ReadingShows(env, w, now, s, token, db, runs);
    ChoosingShows(env, w, read, s, token, db, runs);
    OwnNext(env, w, events, now, ReadBase, read, s, token, Based(s.base, s.config), db, runs);
    OwnNext(env, w, events + [By(1, ReadBase)], read, Choose, next, s, token, Chosen(db, s.queue, s.base, s.config),
            db, runs);
    more := events + [By(1, ReadBase)] + [By(1, Choose)];
  }

  lemma OpeningShows(env: Env, w: World, now: World, s: Setting)
    requires Shows(env, w, now, s, 0, Opening(s.base, s.config, [Pick(0, s.sha)], None), Waited(s), [])
    ensures var next := StepOpen(now, 1);
            Shows(env, w, next, s, 0, Assembling(TheJob(s), []), Taken1(s), []) && next.commits == now.commits
  {
    assert PickIds([Pick(0, s.sha)]) == [0];
  }

  lemma CheckingOutShows(env: Env, w: World, now: World, s: Setting, token: Token, db: Db, runs: seq<GateRun>)
    requires Shows(env, w, now, s, token, Assembling(TheJob(s), []), db, runs)
    ensures var next := StepCheckout(now, 1);
            && Shows(env, w, next, s, token, Assembling(TheJob(s), [s.base]), db, runs)
            && next.commits == now.commits && HeadAt(next, s.base)
  {
  }

  lemma MergingShows(env: Env, w: World, now: World, s: Setting, token: Token, db: Db, runs: seq<GateRun>, tip: Sha)
    requires Shows(env, w, now, s, token, Assembling(TheJob(s), [s.base]), db, runs)
    requires HeadAt(now, s.base) && tip !in now.commits && tip != s.base && tip != s.sha
    ensures var next := StepMerge(now, 1, Some(tip));
            && Shows(env, w, next, s, token, Assembling(TheJob(s), [s.base, tip]), db, runs)
            && HeadAt(next, tip) && next.commits.Keys == now.commits.Keys + {tip}
  {
    assert [s.base] + [tip] == [s.base, tip];
  }

  lemma ConflictShows(env: Env, w: World, now: World, s: Setting, token: Token, db: Db, runs: seq<GateRun>)
    requires Shows(env, w, now, s, token, Assembling(TheJob(s), [s.base]), db, runs) && HeadAt(now, s.base)
    ensures Shows(env, w, StepMerge(now, 1, None), s, token, Blaming(TheJob(s), 0, CONFLICTS), db, runs)
  {
  }

  lemma MarkingShows(env: Env, w: World, now: World, s: Setting, token: Token, db: Db, runs: seq<GateRun>, tip: Sha)
    requires Shows(env, w, now, s, token, Assembling(TheJob(s), [s.base, tip]), db, runs) && HeadAt(now, tip)
    ensures var next := StepMarkTesting(now, 1);
            && Shows(env, w, next, s, token, Gating(TheJob(s), [s.base, tip]), UnderTest(db, 0, tip), runs)
            && HeadAt(next, tip) && next.commits == now.commits
  {
  }

  lemma GatingShows(env: Env, w: World, now: World, s: Setting, token: Token, db: Db, runs: seq<GateRun>, tip: Sha,
                    passed: bool)
    requires Shows(env, w, now, s, token, Gating(TheJob(s), [s.base, tip]), db, runs) && HeadAt(now, tip)
    ensures var next := StepGate(now, 1, passed);
            && Shows(env, w, next, s, token, Judged(TheJob(s), [s.base, tip], passed), db,
                     runs + [GateRun(0, s.config.gate, passed)])
            && next.commits == now.commits
  {
  }

  lemma FailingRests(env: Env, w: World, now: World, s: Setting, token: Token, phase: Phase, db: Db, runs: seq<GateRun>)
    requires Shows(env, w, now, s, token, phase, db, runs) && !phase.Announcing?
    ensures Shows(env, w, StepFail(now, 1), s, token, Releasing, db, runs)
    ensures var next := StepRelease(StepFail(now, 1), 1);
            Rests(w, next, s, token + 1) && next.db == db && next.runs == runs && next.commits == now.commits
  {
  }

  lemma DecidingShows(env: Env, w: World, now: World, s: Setting, token: Token, db: Db, runs: seq<GateRun>, tip: Sha)
    requires Shows(env, w, now, s, token, Judged(TheJob(s), [s.base, tip], false), db, runs)
    ensures Shows(env, w, StepDecide(now, 1, false), s, token, Blaming(TheJob(s), 0, FAILED_ALONE), db, runs)
  {
    assert PickIds(TheJob(s).picks) == [0];
  }

  // ----- stretches of the run

  /** From nothing to a fresh checkout with the one entry to be merged. */
  lemma FirstCheckout(env: Env, w: World, s: Setting) returns (events: seq<Event>, now: World)
    requires Set(env, w, s)
    ensures Reaches(env, w, events, now) && Shows(env, w, now, s, 0, Assembling(TheJob(s), [s.base]), Taken1(s), [])
    ensures now.commits == w.commits && HeadAt(now, s.base)
  {
    var e0, w0 := Spawned(env, w, s);
    var e1, w1 := Acquired(env, w, e0, w0, s, 0);
    var e2, w2 := Chose(env, w, e1, w1, s, 0, Waited(s), []);
    ChosenOne(s);
    var e3, w3 := OpenedOne(env, w, e2, w2, s);
    events, now := CheckedOut(env, w, e3, w3, s, 0, Taken1(s), []);
  }

  lemma ChosenOne(s: Setting)
    ensures Chosen(Waited(s), s.queue, s.base, s.config) == Opening(s.base, s.config, [Pick(0, s.sha)], None)
  {
    BatchOfOne(s);
  }

  /** It opens a candidate over the one entry that waits. */
  lemma OpenedOne(env: Env, w: World, events: seq<Event>, now: World, s: Setting)
    returns (more: seq<Event>, next: World)
    requires Reaches(env, w, events, now) && env.ttl > 0
    requires Shows(env, w, now, s, 0, Opening(s.base, s.config, [Pick(0, s.sha)], None), Waited(s), [])
    ensures Reaches(env, w, more, next) && Shows(env, w, next, s, 0, Assembling(TheJob(s), []), Taken1(s), [])
    ensures next.commits == now.commits
  {
    next := StepOpen(now, 1);
    OpeningShows(env, w, now, s);
    OwnNext(env, w, events, now, Open, next, s, 0, Assembling(TheJob(s), []), Taken1(s), []);
    more := events + [By(1, Open)];
  }

  lemma CheckedOut(env: Env, w: World, events: seq<Event>, now: World, s: Setting, token: Token, db: Db,
                   runs: seq<GateRun>)
    returns (more: seq<Event>, next: World)
    requires Reaches(env, w, events, now) && env.ttl > 0
             && Shows(env, w, now, s, token, Assembling(TheJob(s), []), db, runs)
    ensures Reaches(env, w, more, next) && Shows(env, w, next, s, token, Assembling(TheJob(s), [s.base]), db, runs)
    ensures next.commits == now.commits && HeadAt(next, s.base)
  {
    next := StepCheckout(now, 1);
    CheckingOutShows(env, w, now, s, token, db, runs);
    OwnNext(env, w, events, now, Checkout, next, s, token, Assembling(TheJob(s), [s.base]), db, runs);
    more := events + [By(1, Checkout)];
  }

  lemma MergedOne(env: Env, w: World, events: seq<Event>, now: World, s: Setting, token: Token, db: Db,
                  runs: seq<GateRun>, tip: Sha)
    returns (more: seq<Event>, next: World)
    requires Reaches(env, w, events, now) && env.ttl > 0
             && Shows(env, w, now, s, token, Assembling(TheJob(s), [s.base]), db, runs)
    requires HeadAt(now, s.base) && tip !in now.commits && tip != s.base && tip != s.sha
    ensures Reaches(env, w, more, next) && Shows(env, w, next, s, token, Assembling(TheJob(s), [s.base, tip]), db, runs)
    ensures HeadAt(next, tip) && next.commits.Keys == now.commits.Keys + {tip}
  {
    next := StepMerge(now, 1, Some(tip));
    MergingShows(env, w, now, s, token, db, runs, tip);
    OwnNext(env, w, events, now, Merge(Some(tip)), next, s, token, Assembling(TheJob(s), [s.base, tip]), db, runs);
    more := events + [By(1, Merge(Some(tip)))];
  }

  /** Put under test and gated. */
  lemma TestedOne(env: Env, w: World, events: seq<Event>, now: World, s: Setting, token: Token, db: Db,
                  runs: seq<GateRun>, tip: Sha, passed: bool)
    returns (more: seq<Event>, next: World)
    requires Reaches(env, w, events, now) && env.ttl > 0
             && Shows(env, w, now, s, token, Assembling(TheJob(s), [s.base, tip]), db, runs)
    requires HeadAt(now, tip)
    ensures more == events + [By(1, MarkTesting)] + [By(1, Gate(passed))]
    ensures Reaches(env, w, more, next) && next.commits == now.commits
    ensures Shows(env, w, next, s, token, Judged(TheJob(s), [s.base, tip], passed), UnderTest(db, 0, tip),
                  runs + [GateRun(0, s.config.gate, passed)])
  {
    var marked := StepMarkTesting(now, 1);
    next := StepGate(marked, 1, passed);
    var db', runs' := UnderTest(db, 0, tip), runs + [GateRun(0, s.config.gate, passed)];
    MarkingShows(env, w, now, s, token, db, runs, tip);
    GatingShows(env, w, marked, s, token, db', runs, tip, passed);
    OwnNext(env, w, events, now, MarkTesting, marked, s, token, Gating(TheJob(s), [s.base, tip]), db', runs);
    OwnNext(env, w, events + [By(1, MarkTesting)], marked, Gate(passed), next, s, token,
            Judged(TheJob(s), [s.base, tip], passed), db', runs');
    more := events + [By(1, MarkTesting)] + [By(1, Gate(passed))];
  }

  /** The tick fails after the gate, gives the lease back, and the worker takes it again. */
  lemma FailedAndBack(env: Env, w: World, events: seq<Event>, now: World, s: Setting, phase: Phase, db: Db,
                      runs: seq<GateRun>)
    returns (more: seq<Event>, next: World)
    requires Reaches(env, w, events, now) && Set(env, w, s) && Shows(env, w, now, s, 0, phase, db, runs)
             && !phase.Announcing?
    ensures Reaches(env, w, more, next) && Shows(env, w, next, s, 1, Ready, db, runs) && next.commits == now.commits
  {
    var failed := StepFail(now, 1);
    var rested := StepRelease(failed, 1);
    FailingRests(env, w, now, s, 0, phase, db, runs);
    OwnNext(env, w, events, now, Fail, failed, s, 0, Releasing, db, runs);
    Next(env, w, events + [By(1, Fail)], By(1, Release), failed);
    more, next := Acquired(env, w, events + [By(1, Fail)] + [By(1, Release)], rested, s, 1);
  }

  /** The candidate under test is chosen again and checked out again. */
  lemma Resumed(env: Env, w: World, events: seq<Event>, now: World, s: Setting, tip: Sha, runs: seq<GateRun>)
    returns (more: seq<Event>, next: World)
    requires Reaches(env, w, events, now) && Set(env, w, s) && Shows(env, w, now, s, 1, Ready, Tested1(s, tip), runs)
    ensures Reaches(env, w, more, next) && Shows(env, w, next, s, 1, Assembling(TheJob(s), [s.base]),
                                                 Tested1(s, tip), runs)
    ensures next.commits == now.commits && HeadAt(next, s.base)
  {
    var e1, w1 := Chose(env, w, events, now, s, 1, Tested1(s, tip), runs);
    assert Ids(Tested1(s, tip).candidates[0]) == [0];
    OneInHand(s, Tested1(s, tip));
    more, next := CheckedOut(env, w, e1, w1, s, 1, Tested1(s, tip), runs);
  }

  // ----- the corners

  /** A conflict blamed while its candidate is being built takes the candidate off its documented lifecycle. */
  lemma ConflictLeavesTable(env: Env, w: World, s: Setting) returns (events: seq<Event>)
    requires Set(env, w, s)
    ensures DisciplinedRun(env, w, events + [By(1, StoreBlame)])
    ensures var now, next := Run(env, w, events), Run(env, w, events + [By(1, StoreBlame)]);
            && |now.db.candidates| == 1 && now.db.candidates[0].state.Building? && next.db.candidates[0].state.Failed?
            && Lifecycles.ChangesOffTable(now.db, next.db, 0)
  {
    var e0, w0 := FirstCheckout(env, w, s);
    var now;
    events, now := ConflictedOne(env, w, e0, w0, s);
    BlamingOne(env, w, events, now, s, Taken1(s), 0, CONFLICTS, []);
  }

  lemma ConflictedOne(env: Env, w: World, events: seq<Event>, now: World, s: Setting)
    returns (more: seq<Event>, next: World)
    requires Reaches(env, w, events, now) && env.ttl > 0 && HeadAt(now, s.base)
    requires Shows(env, w, now, s, 0, Assembling(TheJob(s), [s.base]), Taken1(s), [])
    ensures Reaches(env, w, more, next) && Shows(env, w, next, s, 0, Blaming(TheJob(s), 0, CONFLICTS), Taken1(s), [])
  {
    next := StepMerge(now, 1, None);
    ConflictShows(env, w, now, s, 0, Taken1(s), []);
    OwnNext(env, w, events, now, Merge(None), next, s, 0, Blaming(TheJob(s), 0, CONFLICTS), Taken1(s), []);
    more := events + [By(1, Merge(None))];
  }

  lemma BlamingOne(env: Env, w: World, events: seq<Event>, now: World, s: Setting, db: Db, token: Token,
                   fault: string, runs: seq<GateRun>)
    requires Reaches(env, w, events, now) && env.ttl > 0
    requires Shows(env, w, now, s, token, Blaming(TheJob(s), 0, fault), db, runs)
    ensures Reaches(env, w, events + [By(1, StoreBlame)], StepStoreBlame(now, 1))
    ensures var next := StepStoreBlame(now, 1);
            next.runs == runs && next.db == Blamed(db, 0, 0, s.config.maxAttempts, fault)
  {
    Next(env, w, events, By(1, StoreBlame), now);
  }

  /** The first tick gates the candidate green and fails before the base has moved; the worker takes the lease again. */
  lemma GreenThenFailed(env: Env, w: World, s: Setting, tip: Sha) returns (events: seq<Event>, now: World)
    requires Set(env, w, s) && Unseen(w, s, tip)
    ensures Reaches(env, w, events, now) && Shows(env, w, now, s, 1, Ready, Tested1(s, tip),
                                                  [GateRun(0, s.config.gate, true)])
    ensures now.commits.Keys == w.commits.Keys + {tip}
  {
    var passes := [GateRun(0, s.config.gate, true)];
    var e0, w0 := FirstCheckout(env, w, s);
    var e1, w1 := MergedOne(env, w, e0, w0, s, 0, Taken1(s), [], tip);
    var e2, w2 := TestedOne(env, w, e1, w1, s, 0, Taken1(s), [], tip, true);
    assert [] + passes == passes;
    events, now := FailedAndBack(env, w, e2, w2, s, Judged(TheJob(s), [s.base, tip], true), Tested1(s, tip), passes);
  }

  /** The next tick resumes the candidate and assembles it again. */
  lemma GreenThenResumed(env: Env, w: World, s: Setting, first: Sha, second: Sha)
    returns (events: seq<Event>, now: World)
    requires Set(env, w, s) && Unseen(w, s, first) && Unseen(w, s, second) && first != second
    ensures Reaches(env, w, events, now) && HeadAt(now, second)
    ensures Shows(env, w, now, s, 1, Assembling(TheJob(s), [s.base, second]), Tested1(s, first),
                  [GateRun(0, s.config.gate, true)])
  {
    var passes := [GateRun(0, s.config.gate, true)];
    var e0, w0 := GreenThenFailed(env, w, s, first);
    var e1, w1 := Resumed(env, w, e0, w0, s, first, passes);
    events, now := MergedOne(env, w, e1, w1, s, 1, Tested1(s, first), passes, second);
  }

  /** Putting it under test again writes a row that already says so, with another commit. */
  lemma ResumingLeavesTable(env: Env, w: World, s: Setting, first: Sha, second: Sha) returns (events: seq<Event>)
    requires Set(env, w, s) && Unseen(w, s, first) && Unseen(w, s, second) && first != second
    ensures DisciplinedRun(env, w, events + [By(1, MarkTesting)])
    ensures var now, next := Run(env, w, events), Run(env, w, events + [By(1, MarkTesting)]);
            && |now.db.candidates| == 1 && now.db.candidates[0].state.Testing? && next.db.candidates[0].state.Testing?
            && now.db.candidates[0].commit == Some(first) && next.db.candidates[0].commit == Some(second)
            && Lifecycles.LeavesTable(now, By(1, MarkTesting), 0)
  {
    var now;
    events, now := GreenThenResumed(env, w, s, first, second);
    MarkingShows(env, w, now, s, 1, Tested1(s, first), [GateRun(0, s.config.gate, true)], second);
    Next(env, w, events, By(1, MarkTesting), now);
  }

  /**
   One candidate gated twice: green in a tick that failed before the base was
   moved, red in the tick that resumed it. Both runs are on record when it has
   settled.
   */
  lemma PassedThenFailed(env: Env, w: World, s: Setting, first: Sha, second: Sha) returns (events: seq<Event>)
    requires Set(env, w, s) && Unseen(w, s, first) && Unseen(w, s, second) && first != second
    ensures DisciplinedRun(env, w, events)
    ensures var end := Run(env, w, events);
            && end.runs == [GateRun(0, s.config.gate, true), GateRun(0, s.config.gate, false)]
            && |end.db.candidates| == 1 && end.db.candidates[0].queue == s.queue && end.db.candidates[0].state.Failed?
  {
    var passes := [GateRun(0, s.config.gate, true)];
    var both := passes + [GateRun(0, s.config.gate, false)];
    var e0, w0 := GreenThenResumed(env, w, s, first, second);
    var e1, w1 := TestedOne(env, w, e0, w0, s, 1, Tested1(s, first), passes, second, false);
    var db := UnderTest(Tested1(s, first), 0, second);
    var e2, w2 := DecidedOne(env, w, e1, w1, s, db, both, second);
    BlamingOne(env, w, e2, w2, s, db, 1, FAILED_ALONE, both);
    events := e2 + [By(1, StoreBlame)];
  }

  lemma DecidedOne(env: Env, w: World, events: seq<Event>, now: World, s: Setting, db: Db, runs: seq<GateRun>, tip: Sha)
    returns (more: seq<Event>, next: World)
    requires Reaches(env, w, events, now) && env.ttl > 0
             && Shows(env, w, now, s, 1, Judged(TheJob(s), [s.base, tip], false), db, runs)
    ensures Reaches(env, w, more, next) && Shows(env, w, next, s, 1, Blaming(TheJob(s), 0, FAILED_ALONE), db, runs)
  {
    next := StepDecide(now, 1, false);
    DecidingShows(env, w, now, s, 1, db, runs, tip);
    OwnNext(env, w, events, now, Decide(false), next, s, 1, Blaming(TheJob(s), 0, FAILED_ALONE), db, runs);
    more := events + [By(1, Decide(false))];
  }

  // ----- what such a candidate leaves on disk

  /** Where a candidate's gate runs log to. */
  function LogName(c: CandidateId): string {
    "candidate-" + Decimal.Digits(c) + ".log"
  }

  /** Runs share a file exactly when they are runs of one candidate. */
  lemma OneFilePerCandidate(a: CandidateId, b: CandidateId)
    ensures LogName(a) == LogName(b) <==> a == b
  {
    var start, end := "candidate-", ".log";
    var x, y := Decimal.Digits(a), Decimal.Digits(b);
    Decimal.DigitsReadBack(a);
    Decimal.DigitsReadBack(b);
    assert LogName(a)[|start|..|LogName(a)| - |end|] == x;
    assert LogName(b)[|start|..|LogName(b)| - |end|] == y;
  }

  /** The rows of the gate runs so far, beside these log files. */
  function DiskOf(w: World, files: map<string, Retention.File>): Retention.Disk {
    Retention.Disk(seq(|w.runs|, i requires 0 <= i < |w.runs| => RowOf(w, w.runs[i])), files)
  }

  function RowOf(w: World, run: GateRun): Retention.RunRow {
    if run.candidate < |w.db.candidates| then
      var row := w.db.candidates[run.candidate];
      Retention.RunRow(row.queue, run.candidate, row.state.IsTerminal(), run.passed, Some(LogName(run.candidate)), None)
    else Retention.RunRow(Queue("", ""), run.candidate, false, run.passed, Some(LogName(run.candidate)), None)
  }

  /**
   In any world, a prune leaves a row naming a deleted file exactly when one
   candidate has a run that goes and one that stays.
   */
  lemma OneCandidateTwice(w: World, q: Queue, files: map<string, Retention.File>, budget: nat, unreadable: set<string>)
    ensures var disk := DiskOf(w, files);
            Retention.NamesDeleted(disk, Retention.Finished(disk, q, budget, unreadable)) <==>
              exists r, s :: 0 <= r < |w.runs| && 0 <= s < |w.runs| && w.runs[r].candidate == w.runs[s].candidate
                && !Retention.Goes(disk, q, budget, r) && Retention.Goes(disk, q, budget, s)
  {
    Retention.SharedFiles(DiskOf(w, files), q, budget, unreadable);
    SharesByCandidate(w, q, files, budget);
  }

  lemma SharesByCandidate(w: World, q: Queue, files: map<string, Retention.File>, budget: nat)
    ensures var disk := DiskOf(w, files);
            Retention.SharesWithGoing(disk, q, budget) <==>
              exists r, s :: 0 <= r < |w.runs| && 0 <= s < |w.runs| && w.runs[r].candidate == w.runs[s].candidate
                && !Retention.Goes(disk, q, budget, r) && Retention.Goes(disk, q, budget, s)
  {
    var disk := DiskOf(w, files);
    if Retention.SharesWithGoing(disk, q, budget) {
      var r, s :| 0 <= r < |disk.runs| && 0 <= s < |disk.runs|
        && !Retention.Goes(disk, q, budget, r) && Retention.Goes(disk, q, budget, s)
        && disk.runs[r].path == disk.runs[s].path;
      PathsByCandidate(w, files, r, s);
      assert w.runs[r].candidate == w.runs[s].candidate;
    }
    if r, s :| 0 <= r < |w.runs| && 0 <= s < |w.runs| && w.runs[r].candidate == w.runs[s].candidate
               && !Retention.Goes(disk, q, budget, r) && Retention.Goes(disk, q, budget, s) {
      PathsByCandidate(w, files, r, s);
    }
  }

  lemma PathsByCandidate(w: World, files: map<string, Retention.File>, r: nat, s: nat)
    requires r < |w.runs| && s < |w.runs|
    ensures var disk := DiskOf(w, files);
            disk.runs[r].path == disk.runs[s].path <==> w.runs[r].candidate == w.runs[s].candidate
  {
    OneFilePerCandidate(w.runs[r].candidate, w.runs[s].candidate);
  }

  /**
   A run of the queue that leads to the loss: the pass is pruned away and the
   failure's row is left naming the file that went with it.
   */
  lemma FailureLosesItsLog(env: Env, w: World, s: Setting, first: Sha, second: Sha,
                           file: Retention.File, budget: nat, unreadable: set<string>) returns (events: seq<Event>)
    requires Set(env, w, s) && Unseen(w, s, first) && Unseen(w, s, second) && first != second && file.bytes <= budget
    ensures DisciplinedRun(env, w, events)
    ensures var disk := DiskOf(Run(env, w, events), map[LogName(0) := file]);
            var end := Retention.Finished(disk, s.queue, budget, unreadable);
            && Retention.NamesDeleted(disk, end)
            && |end.runs| == 2 && !end.runs[1].passed && end.runs[1].path == Some(LogName(0)) && end.runs[1].tail.None?
  {
    events := PassedThenFailed(env, w, s, first, second);
    assert DiskOf(Run(env, w, events), map[LogName(0) := file]) == Retention.GatedTwice(s.queue, LogName(0), file);
    Retention.ResumedCandidateLosesItsLog(s.queue, LogName(0), file, budget, unreadable);
  }

  /** Two workers are on the queue: the first gating this commit, its candidate cleared away when the second got in. */
  ghost predicate TwoIn(end: World, s: Setting, tip: Sha) {
    && Ticks(end, 1) && Ticks(end, 2) && end.procs[1].queue == end.procs[2].queue == s.queue
    && end.procs[1].phase == Gating(TheJob(s), [s.base, tip])
    && HeadAt(end, tip) && s.queue in end.refs && end.refs[s.queue] == s.base
    && |end.db.candidates| == 1 && end.db.candidates[0].state.Superseded?
  }

  /**
   No tick renews its lease, so a gate outlasting the lease lets a second worker
   into the same queue while the first is still gating.
   */
  lemma LongGateLosesTheLease(env: Env, w: World, s: Setting, tip: Sha) returns (events: seq<Event>)
    requires Set(env, w, s) && Unseen(w, s, tip)
    ensures TwoIn(Run(env, w, events), s, tip)
  {
    var e2, now := UntilGating(env, w, s, tip);
    SecondGetsIn(env, w, now, s, tip);
    ThreeMore(env, w, e2, Around(ClockTo(w.clock + env.ttl)), By(2, Ask(s.queue)), By(2, Acquire(false, 1)));
    events := e2 + [Around(ClockTo(w.clock + env.ttl))] + [By(2, Ask(s.queue))] + [By(2, Acquire(false, 1))];
  }

  /** This worker has moved the base and is about to record a candidate that has been superseded. */
  ghost predicate LateLanding(now: World, s: Setting, tip: Sha) {
    && Ticks(now, 1) && now.procs[1].phase == Moved(TheJob(s), tip)
    && s.queue in now.refs && now.refs[s.queue] == tip
    && |now.db.candidates| == 1 && now.db.candidates[0].state.Superseded?
  }

  lemma FirstLands(now: World, s: Setting, tip: Sha)
    requires TwoIn(now, s, tip)
    ensures LateLanding(StepFastForward(StepGate(now, 1, true), 1), s, tip)
  {
  }

  /** The first goes on: its gate passes and it moves the base. */
  lemma FirstMoves(env: Env, w: World, s: Setting, tip: Sha) returns (events: seq<Event>)
    requires Set(env, w, s) && Unseen(w, s, tip)
    ensures LateLanding(Run(env, w, events), s, tip)
  {
    var e0 := LongGateLosesTheLease(env, w, s, tip);
    FirstLands(Run(env, w, e0), s, tip);
    events := PassedAndMoved(env, w, e0);
  }

  lemma PassedAndMoved(env: Env, w: World, e: seq<Event>) returns (events: seq<Event>)
    ensures Run(env, w, events) == StepFastForward(StepGate(Run(env, w, e), 1, true), 1)
  {
    Passes(env, w, e);
    Forwards(env, w, e + [By(1, Gate(true))]);
    events := e + [By(1, Gate(true))] + [By(1, FastForward)];
  }

  lemma OneMoreLanding(env: Env, w: World, events: seq<Event>, now: World)
    requires now == Run(env, w, events)
    ensures Run(env, w, events + [By(1, StoreLand)]) == StepStoreLand(now, 1)
  {
    RunSnoc(env, w, events, By(1, StoreLand));
  }

  /** Then it records as passed a candidate that has been superseded. */
  lemma LostLeaseLands(env: Env, w: World, s: Setting, tip: Sha) returns (events: seq<Event>, now: World, next: World)
    requires Set(env, w, s) && Unseen(w, s, tip)
    ensures now == Run(env, w, events) && next == Run(env, w, events + [By(1, StoreLand)])
    ensures LateLanding(now, s, tip) && |next.db.candidates| == 1 && next.db.candidates[0].state.Passed?
    ensures Lifecycles.ChangesOffTable(now.db, next.db, 0) && Lifecycles.RewritesFinished(now, By(1, StoreLand), 0)
  {
    events := FirstMoves(env, w, s, tip);
    now := Run(env, w, events);
    OneMoreLanding(env, w, events, now);
    LandingRewrites(now, s, tip);
    next := StepStoreLand(now, 1);
  }

  lemma LandingRewrites(now: World, s: Setting, tip: Sha)
    requires LateLanding(now, s, tip)
    ensures Lifecycles.RewritesFinished(now, By(1, StoreLand), 0)
    ensures var next := StepStoreLand(now, 1);
            |next.db.candidates| == 1 && next.db.candidates[0].state.Passed?
                && Lifecycles.ChangesOffTable(now.db, next.db, 0)
  {
  }

  /**
   The base is where someone pushed it, and the entry of the candidate built on the
   old base waits again, for free.
   */
  ghost predicate Overtaken(end: World, s: Setting, pushed: Sha) {
    && s.queue in end.refs && end.refs[s.queue] == pushed
    && |end.db.candidates| == 1 && end.db.candidates[0].state.Superseded?
    && Waits(end.db, s.queue, 0) && end.db.entries[0].attempts == 0
  }

  lemma PushIsNoticed(env: Env, w: World, now: World, s: Setting, tip: Sha, pushed: Sha, history: set<Sha>)
    requires Set(env, w, s) && HeadAt(now, tip) && pushed != s.base
    requires Shows(env, w, now, s, 0, Gating(TheJob(s), [s.base, tip]), Tested1(s, tip), [])
    ensures var after := StepFastForward(StepGate(StepOutsideMove(now, s.queue, pushed, history), 1, true), 1);
            Overtaken(StepStoreAbandon(after, 1), s, pushed)
  {
  }

  /** Someone pushes while the gate runs: though it passes, the push stands and the candidate is given up. */
  lemma PushVoidsCandidate(env: Env, w: World, s: Setting, tip: Sha, pushed: Sha, history: set<Sha>)
    returns (events: seq<Event>)
    requires Set(env, w, s) && Unseen(w, s, tip) && pushed != s.base
    ensures Overtaken(Run(env, w, events), s, pushed)
  {
    var e, now := UntilGating(env, w, s, tip);
    PushIsNoticed(env, w, now, s, tip, pushed, history);
    IsPushed(env, w, e, s.queue, pushed, history);
    events := PassedAndGivenUp(env, w, e + [Around(OutsideMove(s.queue, pushed, history))]);
  }

  lemma IsPushed(env: Env, w: World, e: seq<Event>, q: Queue, pushed: Sha, history: set<Sha>)
    ensures Run(env, w, e + [Around(OutsideMove(q, pushed, history))])
         == StepOutsideMove(Run(env, w, e), q, pushed, history)
  {
    RunSnoc(env, w, e, Around(OutsideMove(q, pushed, history)));
  }

  lemma Passes(env: Env, w: World, e: seq<Event>)
    ensures Run(env, w, e + [By(1, Gate(true))]) == StepGate(Run(env, w, e), 1, true)
  {
    RunSnoc(env, w, e, By(1, Gate(true)));
  }

  lemma Forwards(env: Env, w: World, e: seq<Event>)
    ensures Run(env, w, e + [By(1, FastForward)]) == StepFastForward(Run(env, w, e), 1)
  {
    RunSnoc(env, w, e, By(1, FastForward));
  }

  lemma GivesUp(env: Env, w: World, e: seq<Event>)
    ensures Run(env, w, e + [By(1, StoreAbandon)]) == StepStoreAbandon(Run(env, w, e), 1)
  {
    RunSnoc(env, w, e, By(1, StoreAbandon));
  }

  lemma PassedAndGivenUp(env: Env, w: World, e: seq<Event>) returns (events: seq<Event>)
    ensures Run(env, w, events) == StepStoreAbandon(StepFastForward(StepGate(Run(env, w, e), 1, true), 1), 1)
  {
    var sofar := PassedAndMoved(env, w, e);
    GivesUp(env, w, sofar);
    events := sofar + [By(1, StoreAbandon)];
  }

  /** The base has been moved to this commit and nobody is left who knows; the entry waits again. */
  ghost predicate MovedUnrecorded(end: World, s: Setting, tip: Sha) {
    && 1 !in end.procs && Ticks(end, 2) && end.procs[2].queue == s.queue
    && s.queue in end.refs && end.refs[s.queue] == tip
    && |end.db.candidates| == 1 && end.db.candidates[0].state.Superseded? && Waits(end.db, s.queue, 0)
  }

  lemma DiesAfterMoving(env: Env, w: World, now: World, s: Setting, tip: Sha)
    requires Set(env, w, s) && HeadAt(now, tip)
    requires Shows(env, w, now, s, 0, Gating(TheJob(s), [s.base, tip]), Tested1(s, tip), [])
    ensures var dead := StepCrash(StepFastForward(StepGate(now, 1, true), 1), 1);
            MovedUnrecorded(StepAcquire(env, StepAsk(dead, 2, s.queue), 2, true, 1), s, tip)
  {
  }

  /**
   A worker dies between moving the base and recording it: the next one finds it
   gone, takes the queue over and has the entry wait again, though the base is
   already at the commit that merged it.
   */
  lemma CrashAfterMoving(env: Env, w: World, s: Setting, tip: Sha) returns (events: seq<Event>)
    requires Set(env, w, s) && Unseen(w, s, tip)
    ensures MovedUnrecorded(Run(env, w, events), s, tip)
  {
    var e, now := UntilGating(env, w, s, tip);
    DiesAfterMoving(env, w, now, s, tip);
    events := DeathAndAfter(env, w, e, s);
  }

  lemma Dies(env: Env, w: World, e: seq<Event>) returns (events: seq<Event>)
    ensures Run(env, w, events) == StepCrash(StepFastForward(StepGate(Run(env, w, e), 1, true), 1), 1)
  {
    var sofar := PassedAndMoved(env, w, e);
    RunSnoc(env, w, sofar, By(1, Crash));
    events := sofar + [By(1, Crash)];
  }

  lemma DeathAndAfter(env: Env, w: World, e: seq<Event>, s: Setting) returns (events: seq<Event>)
    ensures var dead := StepCrash(StepFastForward(StepGate(Run(env, w, e), 1, true), 1), 1);
            Run(env, w, events) == StepAcquire(env, StepAsk(dead, 2, s.queue), 2, true, 1)
  {
    var sofar := Dies(env, w, e);
    TakenOverLate(env, w, sofar, s);
    events := sofar + [By(2, Ask(s.queue))] + [By(2, Acquire(true, 1))];
  }

  lemma TakenOverLate(env: Env, w: World, events: seq<Event>, s: Setting)
    ensures Run(env, w, events + [By(2, Ask(s.queue))] + [By(2, Acquire(true, 1))])
         == StepAcquire(env, StepAsk(Run(env, w, events), 2, s.queue), 2, true, 1)
  {
    RunSnoc(env, w, events, By(2, Ask(s.queue)));
    RunSnoc(env, w, events + [By(2, Ask(s.queue))], By(2, Acquire(true, 1)));
  }

  lemma UntilGating(env: Env, w: World, s: Setting, tip: Sha) returns (events: seq<Event>, now: World)
    requires Set(env, w, s) && Unseen(w, s, tip)
    ensures now == Run(env, w, events) && HeadAt(now, tip)
    ensures Shows(env, w, now, s, 0, Gating(TheJob(s), [s.base, tip]), Tested1(s, tip), [])
  {
    var e0, w0 := FirstCheckout(env, w, s);
    var e1, w1 := MergedOne(env, w, e0, w0, s, 0, Taken1(s), [], tip);
    events, now := MarkedOne(env, w, e1, w1, s, tip);
  }

  lemma MarkedOne(env: Env, w: World, events: seq<Event>, now: World, s: Setting, tip: Sha)
    returns (more: seq<Event>, next: World)
    requires Reaches(env, w, events, now) && env.ttl > 0
             && Shows(env, w, now, s, 0, Assembling(TheJob(s), [s.base, tip]), Taken1(s), [])
    requires HeadAt(now, tip)
    ensures Reaches(env, w, more, next) && Shows(env, w, next, s, 0, Gating(TheJob(s), [s.base, tip]),
                                                 Tested1(s, tip), [])
    ensures HeadAt(next, tip)
  {
    next := StepMarkTesting(now, 1);
    MarkingShows(env, w, now, s, 0, Taken1(s), [], tip);
    OwnNext(env, w, events, now, MarkTesting, next, s, 0, Gating(TheJob(s), [s.base, tip]), Tested1(s, tip), []);
    more := events + [By(1, MarkTesting)];
  }

  lemma ThreeMore(env: Env, w: World, events: seq<Event>, a: Event, b: Event, c: Event)
    ensures Run(env, w, events + [a] + [b] + [c]) == Step(env, Step(env, Step(env, Run(env, w, events), a), b), c)
  {
    RunSnoc(env, w, events, a);
    RunSnoc(env, w, events + [a], b);
    RunSnoc(env, w, events + [a] + [b], c);
  }

  lemma SecondGetsIn(env: Env, w: World, now: World, s: Setting, tip: Sha)
    requires Set(env, w, s) && HeadAt(now, tip)
    requires Shows(env, w, now, s, 0, Gating(TheJob(s), [s.base, tip]), Tested1(s, tip), [])
    ensures var late := Step(env, now, Around(ClockTo(w.clock + env.ttl)));
            TwoIn(Step(env, Step(env, late, By(2, Ask(s.queue))), By(2, Acquire(false, 1))), s, tip)
  {
  }

  /**
   Two entries that were never promoted, the first in flight: promoting the
   second takes it past the first.
   */
  lemma PromotionOvertakes(q: Queue, base: Sha, a: Sha, b: Sha)
    ensures var first := EntryRow(q, "a", a, Batched, 0, 0, None);
            var second := EntryRow(q, "b", b, Queued, 0, 0, None);
            var db := Db([first, second], [CandidateRow(q, base, None, Building, None, [Member(0, Pending)])]);
            TableInv(db) && Overtaking.InOrder(db) && Waits(db, q, 1) && ActiveIs(db, q, 0)
                && !Overtaking.InOrder(Promoted(db, q, 1))
  {
    var first := EntryRow(q, "a", a, Batched, 0, 0, None);
    var second := EntryRow(q, "b", b, Queued, 0, 0, None);
    var db := Db([first, second], [CandidateRow(q, base, None, Building, None, [Member(0, Pending)])]);
    PairIsSound(db, q);
    Ranking.LineIs(db, q, [0, 1]);
    assert [0] <= [0, 1];
    Overtaking.PromoteInFlight(db, q, 1, 0);
    MaxPriorityIsMax(db.entries, q);
  }

  lemma PairIsSound(db: Db, q: Queue)
    requires |db.entries| == 2 && |db.candidates| == 1
    requires db.entries[0].state.Batched? && db.entries[1].state.Queued? && db.entries[0].branch != db.entries[1].branch
    requires forall e :: 0 <= e < 2 ==>
               db.entries[e].queue == q && db.entries[e].attempts == 0 && db.entries[e].priority == 0
    requires db.candidates[0].queue == q && db.candidates[0].state.Building?
             && db.candidates[0].members == [Member(0, Pending)]
    ensures TableInv(db) && Ids(db.candidates[0]) == [0]
  {
    assert Ids(db.candidates[0]) == [0];
    assert Holds(db.candidates[0], 0) && !Holds(db.candidates[0], 1);
    assert Convictions(db.candidates, 0) == {} && Convictions(db.candidates, 1) == {};
  }
}
