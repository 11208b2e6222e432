/**
 Workers, hand commands, outside pushes, crashes and the clock, interleaved.

 Every event is one transaction, one git command, one gate or hook run, or one
 reading of the clock. An event that is not possible where it is asked for
 leaves the world as it was.
 */
module Protocol {
  import opened Vocabulary
  import opened States
  import opened Tables
  import Ranking
  import Bisection

  datatype LeaseRow = LeaseRow(holder: Pid, token: Token, expires: int)

  /** What a worker remembers of the lease it took. */
  datatype Lease = Lease(token: Token, expires: int)

  /** The worker's own copy of an entry: what to merge. */
  datatype Pick = Pick(id: EntryId, sha: Sha)

  /** The candidate being worked on and the configuration of the tick. */
  datatype Job = Job(candidate: CandidateId, base: Sha, config: Config, picks: seq<Pick>)

  datatype Settlement = Settlement(queue: Queue, entry: EntryId, state: EntryState, attempts: nat,
                                   reason: Option<string>)

  /** Where a worker is inside a tick. */
  datatype Phase =
    | Ready
    | Based(base: Sha, config: Config)
    | Opening(base: Sha, config: Config, batch: seq<Pick>, parent: Option<CandidateId>)
    | Assembling(job: Job, tips: seq<Sha>)
    | Gating(job: Job, tips: seq<Sha>)
    | Judged(job: Job, tips: seq<Sha>, passed: bool)
    | Discarding(job: Job, split: bool)
    | Blaming(job: Job, culprit: EntryId, fault: string)
    | Moved(job: Job, tip: Sha)
    | Announcing(pending: seq<Settlement>)
    | Releasing

  datatype Proc = Resting | Asking(queue: Queue, now: nat) | Ticking(queue: Queue, lease: Lease, phase: Phase)

  /** Commit `onto` merged with `branch` gave `result`. */
  datatype MergeFact = MergeFact(onto: Sha, branch: Sha, result: Sha)

  /** A worker moved a base branch. */
  datatype Move = Move(queue: Queue, from: Sha, to: Sha, candidate: CandidateId)

  /** Gate command `command` passed with `commit` checked out. */
  datatype Pass = Pass(command: string, commit: Sha)

  /** The row kept of a gate run; every run of a candidate logs to the same file. */
  datatype GateRun = GateRun(candidate: CandidateId, command: string, passed: bool)

  datatype World = World(
    db: Db,
    leases: map<Queue, LeaseRow>,
    refs: map<Queue, Sha>,
    commits: map<Sha, set<Sha>>,  // what each known commit contains, itself included
    heads: map<Pid, Sha>,         // each worker's own integration checkout
    procs: map<Pid, Proc>,        // the processes that exist
    clock: nat,
    minted: set<Token>,
    // what has happened so far
    merges: set<MergeFact>,
    passes: set<Pass>,
    runs: seq<GateRun>,
    moves: seq<Move>,
    settled: seq<Settlement>,
    calls: seq<Settlement>)

  /** What stays fixed: the lease length and the configuration inside each commit. */
  datatype Env = Env(ttl: nat, configs: Sha -> Option<Config>)

  /** What happens around the workers. */
  datatype Happening =
    | ClockTo(time: nat)
    | Spawn(pid: Pid)
    | Enqueue(queue: Queue, branch: string, sha: Sha)
    | Dequeue(queue: Queue, entry: EntryId)
    | Promote(queue: Queue, entry: EntryId)
    | OutsideMove(queue: Queue, sha: Sha, history: set<Sha>)

  /** One step of one worker, or its end. */
  datatype Action =
    | Crash
    | Fail
    | Ask(queue: Queue)
    | Acquire(gone: bool, token: Token)
    | Renew(now: nat)
    | Release
    | ReadBase
    | Choose
    | Open
    | Checkout
    | Merge(result: Option<Sha>)
    | MarkTesting
    | Gate(passed: bool)
    | FastForward
    | StoreLand
    | Decide(interrupted: bool)
    | StoreAbandon
    | StoreBlame
    | Announce

  datatype Event = Around(what: Happening) | By(pid: Pid, act: Action)

  // ----- helpers

  predicate Ticks(w: World, p: Pid) {
    p in w.procs && w.procs[p].Ticking?
  }

  /** One worker at most is on each queue. */
  ghost predicate Alone(w: World) {
    forall p, o :: Ticks(w, p) && Ticks(w, o) && w.procs[p].queue == w.procs[o].queue ==> p == o
  }

  function Goto(w: World, p: Pid, phase: Phase): World
    requires Ticks(w, p)
  {
    w.(procs := w.procs[p := w.procs[p].(phase := phase)])
  }

  function PickIds(picks: seq<Pick>): (r: seq<EntryId>)
    ensures |r| == |picks|
    ensures forall i :: 0 <= i < |r| ==> r[i] == picks[i].id
  {
    seq(|picks|, i requires 0 <= i < |picks| => picks[i].id)
  }

  /** Read the rows of these entries. */
  function Picks(es: seq<EntryRow>, ids: seq<EntryId>): (r: seq<Pick>)
    requires forall i :: 0 <= i < |ids| ==> ids[i] < |es|
    ensures |r| == |ids|
    ensures forall i :: 0 <= i < |ids| ==> r[i] == Pick(ids[i], es[ids[i]].sha)
  {
    seq(|ids|, i requires 0 <= i < |ids| => Pick(ids[i], es[ids[i]].sha))
  }

  predicate Known(es: seq<EntryRow>, ids: seq<EntryId>) {
    forall i :: 0 <= i < |ids| ==> ids[i] < |es|
  }

  function ShasAt(es: seq<EntryRow>, ids: seq<EntryId>): (r: seq<Sha>)
    requires Known(es, ids)
    ensures |r| == |ids| && forall i :: 0 <= i < |ids| ==> r[i] == es[ids[i]].sha
  {
    seq(|ids|, i requires 0 <= i < |ids| => es[ids[i]].sha)
  }

  /** The picks whose id is among these, in order. */
  function Keep(picks: seq<Pick>, ids: seq<EntryId>): (r: seq<Pick>)
    ensures forall x :: x in r ==> x in picks && x.id in ids
  {
    if picks == [] then []
    else if picks[0].id in ids then [picks[0]] + Keep(picks[1..], ids)
    else Keep(picks[1..], ids)
  }

  function Contents(commits: map<Sha, set<Sha>>, s: Sha): set<Sha> {
    if s in commits then commits[s] + {s} else {s}
  }

  /** A merge mints a commit containing both sides, or finds the branch already contained. */
  predicate ValidMerge(commits: map<Sha, set<Sha>>, head: Sha, branch: Sha, result: Sha) {
    || (result == head && branch in Contents(commits, head))
    || (result !in commits && result != head && result != branch)
  }

  function AfterMerge(commits: map<Sha, set<Sha>>, head: Sha, branch: Sha, result: Sha): map<Sha, set<Sha>> {
    if result == head then commits
    else commits[result := Contents(commits, head) + Contents(commits, branch)]
  }

  function HookCalls(config: Config, settled: seq<Settlement>): seq<Settlement> {
    if config.onSettle.Some? then settled else []
  }

  /** What landing reports, in merge order. */
  function LandedSettlements(db: Db, c: CandidateId): (r: seq<Settlement>)
    ensures c < |db.candidates| && Known(db.entries, Ids(db.candidates[c])) ==>
              && |r| == |Ids(db.candidates[c])|
              && forall i :: 0 <= i < |r| ==>
                   var e := Ids(db.candidates[c])[i];
                   r[i] == Settlement(db.candidates[c].queue, e, Merged, db.entries[e].attempts, None)
  {
    if c < |db.candidates| && Known(db.entries, Ids(db.candidates[c])) then
      var ids := Ids(db.candidates[c]);
      seq(|ids|, i requires 0 <= i < |ids| =>
        Settlement(db.candidates[c].queue, ids[i], Merged, db.entries[ids[i]].attempts, None))
    else []
  }

  /** Blame settles at most one entry, and only when it has no attempts left. */
  function BlameSettlements(db: Db, q: Queue, culprit: EntryId, maxAttempts: nat, fault: string): seq<Settlement> {
    if culprit < |db.entries| && Evicts(db, culprit, maxAttempts)
    then [Settlement(q, culprit, Evicted, db.entries[culprit].attempts + 1, Some(fault))]
    else []
  }

  // ----- events of the surroundings

  function StepCrash(w: World, p: Pid): World {
    w.(procs := w.procs - {p})
  }

  /** An error inside a tick: nothing more is done but giving the lease back. */
  function StepFail(w: World, p: Pid): World {
    if Ticks(w, p) && !w.procs[p].phase.Announcing? then Goto(w, p, Releasing)
    else if p in w.procs && w.procs[p].Asking? then w.(procs := w.procs[p := Resting])
    else w
  }

  function StepOutsideMove(w: World, q: Queue, sha: Sha, history: set<Sha>): World {
    w.(refs := w.refs[q := sha], commits := if sha in w.commits then w.commits else w.commits[sha := history])
  }

  // ----- the lease

  /** Someone holds it: the expiry decides, and an absent holder only ever shortens it. */
  predicate Held(leases: map<Queue, LeaseRow>, q: Queue, now: int, gone: bool) {
    q in leases && leases[q].expires > now && !gone
  }

  function Taken(leases: map<Queue, LeaseRow>, q: Queue, row: LeaseRow): map<Queue, LeaseRow> {
    leases[q := row]
  }

  /** Whoever held the lease before may have left a candidate unfinished. */
  function TakenOver(db: Db, leases: map<Queue, LeaseRow>, q: Queue): Db {
    if q in leases then Reclaimed(db, q) else db
  }

  predicate Ours(leases: map<Queue, LeaseRow>, q: Queue, token: Token) {
    q in leases && leases[q].token == token
  }

  function Extended(leases: map<Queue, LeaseRow>, q: Queue, token: Token, expires: int): map<Queue, LeaseRow> {
    if Ours(leases, q, token) then leases[q := leases[q].(expires := expires)] else leases
  }

  function GivenBack(leases: map<Queue, LeaseRow>, q: Queue, token: Token): map<Queue, LeaseRow> {
    if Ours(leases, q, token) then leases - {q} else leases
  }

  function StepAsk(w: World, p: Pid, q: Queue): World {
    if p in w.procs && w.procs[p].Resting? then w.(procs := w.procs[p := Asking(q, w.clock)]) else w
  }

  /** `gone` is the liveness answer; it is only ever given of a process that does not exist. */
  function StepAcquire(env: Env, w: World, p: Pid, gone: bool, token: Token): World {
    if !(p in w.procs && w.procs[p].Asking?) || token in w.minted then w
    else
      var q, now := w.procs[p].queue, w.procs[p].now;
      if gone && !(q in w.leases && w.leases[q].holder !in w.procs) then w
      else if Held(w.leases, q, now, gone) then
        w.(procs := w.procs[p := Resting])
      else
        var expires := now + env.ttl;
        w.(db := TakenOver(w.db, w.leases, q),
           leases := Taken(w.leases, q, LeaseRow(p, token, expires)),
           procs := w.procs[p := Ticking(q, Lease(token, expires), Ready)],
           minted := w.minted + {token})
  }

  /** This process gets the lease it asks for. */
  predicate Takes(w: World, p: Pid, gone: bool, token: Token) {
    && p in w.procs && w.procs[p].Asking? && token !in w.minted
    && (var q := w.procs[p].queue;
        && (gone ==> q in w.leases && w.leases[q].holder !in w.procs)
        && !Held(w.leases, q, w.procs[p].now, gone))
  }

  function StepRenew(env: Env, w: World, p: Pid, now: nat): World {
    if !Ticks(w, p) || now > w.clock then w
    else
      var q, lease := w.procs[p].queue, w.procs[p].lease;
      if Ours(w.leases, q, lease.token) then
        w.(leases := Extended(w.leases, q, lease.token, now + env.ttl),
           procs := w.procs[p := w.procs[p].(lease := lease.(expires := now + env.ttl))])
      else w
  }

  function StepRelease(w: World, p: Pid): World {
    if Ticks(w, p) && w.procs[p].phase.Releasing? then
      var q, lease := w.procs[p].queue, w.procs[p].lease;
      w.(leases := GivenBack(w.leases, q, lease.token), procs := w.procs[p := Resting])
    else w
  }

  // ----- the tick

  function StepReadBase(env: Env, w: World, p: Pid): World {
    if Ticks(w, p) && w.procs[p].phase.Ready? then
      var q := w.procs[p].queue;
      if q in w.refs && env.configs(w.refs[q]).Some? then Goto(w, p, Based(w.refs[q], env.configs(w.refs[q]).value))
      else Goto(w, p, Releasing)
    else w
  }

  /** An unfinished candidate comes before anything that waits. */
  function Chosen(db: Db, q: Queue, base: Sha, config: Config): Phase {
    var active := ActiveCandidate(db, q);
    if active.Some? then
      var row := db.candidates[active.value];
      if Known(db.entries, Ids(row)) then
        var job := Job(active.value, row.base, config, Picks(db.entries, Ids(row)));
        if row.base != base then Discarding(job, false) else Assembling(job, [])
      else Releasing
    else
      var batch := Ranking.SelectBatch(db, q, config.maxBatch);
      if batch == [] then Releasing else Opening(base, config, Picks(db.entries, batch), None)
  }

  function StepChoose(w: World, p: Pid): World {
    if Ticks(w, p) && w.procs[p].phase.Based? then
      Goto(w, p, Chosen(w.db, w.procs[p].queue, w.procs[p].phase.base, w.procs[p].phase.config))
    else w
  }

  ghost function StepOpen(w: World, p: Pid): World {
    if Ticks(w, p) && w.procs[p].phase.Opening? then
      var q, phase := w.procs[p].queue, w.procs[p].phase;
      if MayOpen(w.db, PickIds(phase.batch), phase.parent) then
        var job := Job(|w.db.candidates|, phase.base, phase.config, phase.batch);
        Goto(w, p, if phase.parent.None? then Assembling(job, []) else Releasing)
        .(db := Opened(w.db, q, phase.base, PickIds(phase.batch), phase.parent))
      else Goto(w, p, Releasing)
    else w
  }

  function StepCheckout(w: World, p: Pid): World {
    if Ticks(w, p) && w.procs[p].phase.Assembling? && w.procs[p].phase.tips == [] then
      var job := w.procs[p].phase.job;
      Goto(w, p, Assembling(job, [job.base])).(heads := w.heads[p := job.base])
    else w
  }

  /** There is an entry to merge next. */
  predicate Merging(w: World, p: Pid) {
    && Ticks(w, p) && w.procs[p].phase.Assembling?
    && 0 < |w.procs[p].phase.tips| <= |w.procs[p].phase.job.picks|
  }

  function StepMerge(w: World, p: Pid, result: Option<Sha>): World {
    if Merging(w, p) && p in w.heads then
      var phase := w.procs[p].phase;
      var pick, head := phase.job.picks[|phase.tips| - 1], w.heads[p];
      if result.None? then Goto(w, p, Blaming(phase.job, pick.id, CONFLICTS))
      else if ValidMerge(w.commits, head, pick.sha, result.value) then
        Goto(w, p, Assembling(phase.job, phase.tips + [result.value]))
        .(heads := w.heads[p := result.value],
          commits := AfterMerge(w.commits, head, pick.sha, result.value),
          merges := w.merges + {MergeFact(head, pick.sha, result.value)})
      else w
    else w
  }

  function StepMarkTesting(w: World, p: Pid): World {
    if Ticks(w, p) && w.procs[p].phase.Assembling? && |w.procs[p].phase.tips| == |w.procs[p].phase.job.picks| + 1 then
      var phase := w.procs[p].phase;
      Goto(w, p, Gating(phase.job, phase.tips))
      .(db := UnderTest(w.db, phase.job.candidate, phase.tips[|phase.tips| - 1]))
    else w
  }

  /** The gate runs on whatever this worker has checked out. */
  function StepGate(w: World, p: Pid, passed: bool): World {
    if Ticks(w, p) && w.procs[p].phase.Gating? && p in w.heads then
      var phase := w.procs[p].phase;
      Goto(w, p, Judged(phase.job, phase.tips, passed))
      .(passes := if passed then w.passes + {Pass(phase.job.config.gate, w.heads[p])} else w.passes,
        runs := w.runs + [GateRun(phase.job.candidate, phase.job.config.gate, passed)])
    else w
  }

  function StepFastForward(w: World, p: Pid): World {
    if Ticks(w, p) && w.procs[p].phase.Judged? && w.procs[p].phase.passed && w.procs[p].phase.tips != [] then
      var q, phase := w.procs[p].queue, w.procs[p].phase;
      var job, tip := phase.job, phase.tips[|phase.tips| - 1];
      if q !in w.refs then Goto(w, p, Releasing)
      else if w.refs[q] != job.base then Goto(w, p, Discarding(job, false))
      else
        Goto(w, p, Moved(job, tip))
        .(refs := w.refs[q := tip], moves := w.moves + [Move(q, job.base, tip, job.candidate)])
    else w
  }

  function StepStoreLand(w: World, p: Pid): World {
    if Ticks(w, p) && w.procs[p].phase.Moved? then
      var job := w.procs[p].phase.job;
      var landed := LandedSettlements(w.db, job.candidate);
      Goto(w, p, Announcing(HookCalls(job.config, landed)))
      .(db := Landed(w.db, job.candidate), settled := w.settled + landed)
    else w
  }

  /** An interrupted failure is no verdict; a verdict names the culprit or calls for a split. */
  function Decided(job: Job, interrupted: bool): Phase {
    if interrupted then Discarding(job, false)
    else match Bisection.Decide(PickIds(job.picks))
      case Ok(Culprit(entry)) => Blaming(job, entry, FAILED_ALONE)
      case Ok(Bisect(_, _)) => Discarding(job, true)
      case Err(_) => Releasing
  }

  function StepDecide(w: World, p: Pid, interrupted: bool): World {
    if Ticks(w, p) && w.procs[p].phase.Judged? && !w.procs[p].phase.passed then
      Goto(w, p, Decided(w.procs[p].phase.job, interrupted))
    else w
  }

  /** The left half of a split candidate, as the worker picks it out again. */
  function LeftHalf(picks: seq<Pick>): seq<Pick> {
    match Bisection.Decide(PickIds(picks))
    case Ok(Bisect(left, _)) => Keep(picks, left)
    case _ => []
  }

  function StepStoreAbandon(w: World, p: Pid): World {
    if Ticks(w, p) && w.procs[p].phase.Discarding? then
      var job, split := w.procs[p].phase.job, w.procs[p].phase.split;
      Goto(w, p, if split then Opening(job.base, job.config, LeftHalf(job.picks), Some(job.candidate)) else Releasing)
      .(db := Abandoned(w.db, job.candidate, if split then Failed else Superseded))
    else w
  }

  function StepStoreBlame(w: World, p: Pid): World {
    if Ticks(w, p) && w.procs[p].phase.Blaming? then
      var q, phase := w.procs[p].queue, w.procs[p].phase;
      var job := phase.job;
      var out := BlameSettlements(w.db, q, phase.culprit, job.config.maxAttempts, phase.fault);
      Goto(w, p, Announcing(HookCalls(job.config, out)))
      .(db := Blamed(w.db, job.candidate, phase.culprit, job.config.maxAttempts, phase.fault),
        settled := w.settled + out)
    else w
  }

  function StepAnnounce(w: World, p: Pid): World {
    if Ticks(w, p) && w.procs[p].phase.Announcing? then
      var pending := w.procs[p].phase.pending;
      if pending == [] then Goto(w, p, Releasing)
      else Goto(w, p, Announcing(pending[1..])).(calls := w.calls + [pending[0]])
    else w
  }

  function StepAround(w: World, what: Happening): World {
    match what
    case ClockTo(t) => if t >= w.clock then w.(clock := t) else w
    case Spawn(p) => if p in w.procs then w else w.(procs := w.procs[p := Resting])
    case Enqueue(q, branch, sha) => w.(db := Enqueued(w.db, q, branch, sha))
    case Dequeue(q, entry) => w.(db := Dequeued(w.db, q, entry))
    case Promote(q, entry) => w.(db := Promoted(w.db, q, entry))
    case OutsideMove(q, sha, history) => StepOutsideMove(w, q, sha, history)
  }

  ghost function StepBy(env: Env, w: World, p: Pid, act: Action): World {
    match act
    case Crash => StepCrash(w, p)
    case Fail => StepFail(w, p)
    case Ask(q) => StepAsk(w, p, q)
    case Acquire(gone, token) => StepAcquire(env, w, p, gone, token)
    case Renew(now) => StepRenew(env, w, p, now)
    case Release => StepRelease(w, p)
    case ReadBase => StepReadBase(env, w, p)
    case Choose => StepChoose(w, p)
    case Open => StepOpen(w, p)
    case Checkout => StepCheckout(w, p)
    case Merge(result) => StepMerge(w, p, result)
    case MarkTesting => StepMarkTesting(w, p)
    case Gate(passed) => StepGate(w, p, passed)
    case FastForward => StepFastForward(w, p)
    case StoreLand => StepStoreLand(w, p)
    case Decide(interrupted) => StepDecide(w, p, interrupted)
    case StoreAbandon => StepStoreAbandon(w, p)
    case StoreBlame => StepStoreBlame(w, p)
    case Announce => StepAnnounce(w, p)
  }

  ghost function Step(env: Env, w: World, e: Event): World {
    match e
    case Around(what) => StepAround(w, what)
    case By(p, act) => StepBy(env, w, p, act)
  }

  /** Only the phase of one working process, and what it works on, may have changed. */
  ghost predicate WithinTick(w: World, w': World, p: Pid) {
    && Ticks(w, p) && Ticks(w', p)
    && w'.procs == w.procs[p := w.procs[p].(phase := w'.procs[p].phase)]
    && w'.leases == w.leases && w'.minted == w.minted && w'.clock == w.clock
  }

  /** The actions between taking the lease and giving it back. */
  predicate Works(act: Action) {
    Chooses(act) || act.Open? || Assembles(act) || Gates(act) || Lands(act) || Concludes(act)
  }

  predicate Chooses(act: Action) {
    act.ReadBase? || act.Choose?
  }

  predicate Assembles(act: Action) {
    act.Checkout? || act.Merge?
  }

  predicate Gates(act: Action) {
    act.MarkTesting? || act.Gate?
  }

  predicate Lands(act: Action) {
    act.FastForward? || act.StoreLand?
  }

  predicate Concludes(act: Action) {
    act.Decide? || act.StoreAbandon? || act.StoreBlame? || act.Announce?
  }

  lemma ChoosingIsWithinTick(env: Env, w: World, p: Pid, act: Action)
    requires Chooses(act)
    ensures var w' := StepBy(env, w, p, act); w' == w || WithinTick(w, w', p)
  {
  }

  lemma OpeningIsWithinTick(w: World, p: Pid)
    ensures var w' := StepOpen(w, p); w' == w || WithinTick(w, w', p)
  {
  }

  lemma AssemblingIsWithinTick(env: Env, w: World, p: Pid, act: Action)
    requires Assembles(act)
    ensures var w' := StepBy(env, w, p, act); w' == w || WithinTick(w, w', p)
  {
  }

  lemma GatingIsWithinTick(env: Env, w: World, p: Pid, act: Action)
    requires Gates(act)
    ensures var w' := StepBy(env, w, p, act); w' == w || WithinTick(w, w', p)
  {
  }

  lemma FastForwardIsWithinTick(w: World, p: Pid)
    ensures var w' := StepFastForward(w, p); w' == w || WithinTick(w, w', p)
  {
  }

  lemma StoreLandIsWithinTick(w: World, p: Pid)
    ensures var w' := StepStoreLand(w, p); w' == w || WithinTick(w, w', p)
  {
  }

  lemma DecidingIsWithinTick(env: Env, w: World, p: Pid, act: Action)
    requires act.Decide? || act.Announce?
    ensures var w' := StepBy(env, w, p, act); w' == w || WithinTick(w, w', p)
  {
  }

  lemma ClosingIsWithinTick(env: Env, w: World, p: Pid, act: Action)
    requires act.StoreAbandon? || act.StoreBlame?
    ensures var w' := StepBy(env, w, p, act); w' == w || WithinTick(w, w', p)
  {
  }

  lemma WorkIsWithinTick(env: Env, w: World, p: Pid, act: Action)
    requires Works(act)
    ensures var w' := StepBy(env, w, p, act); w' == w || WithinTick(w, w', p)
  {
    if Chooses(act) { ChoosingIsWithinTick(env, w, p, act); }
    else if act.Open? { OpeningIsWithinTick(w, p); }
    else if Assembles(act) { AssemblingIsWithinTick(env, w, p, act); }
    else if Gates(act) { GatingIsWithinTick(env, w, p, act); }
    else if act.FastForward? { FastForwardIsWithinTick(w, p); }
    else if act.StoreLand? { StoreLandIsWithinTick(w, p); }
    else if act.Decide? || act.Announce? { DecidingIsWithinTick(env, w, p, act); }
    else { ClosingIsWithinTick(env, w, p, act); }
  }

  /** The actions that start or end a tick, or fail to. */
  predicate Edges(act: Action) {
    act.Crash? || act.Fail? || act.Ask? || act.Acquire? || act.Renew? || act.Release?
  }

  /** Git and everything that has happened are as they were. */
  ghost predicate SameHistory(w: World, w': World) {
    && w'.refs == w.refs && w'.commits == w.commits && w'.heads == w.heads
    && w'.merges == w.merges && w'.passes == w.passes && w'.runs == w.runs
    && w'.moves == w.moves && w'.settled == w.settled && w'.calls == w.calls
  }

  /** One process may have begun a tick, gone on as it was, or let go of everything. */
  ghost predicate AtEdge(w: World, w': World, p: Pid) {
    && (forall o :: o != p ==> (o in w'.procs <==> o in w.procs))
    && (forall o :: o != p && o in w'.procs ==> w'.procs[o] == w.procs[o])
    && (Ticks(w', p) ==>
          || w'.procs[p].phase.Ready? || w'.procs[p].phase.Releasing?
          || (Ticks(w, p) && w'.procs[p].queue == w.procs[p].queue && w'.procs[p].phase == w.procs[p].phase))
  }

  lemma EndIsAtEdge(w: World, p: Pid)
    ensures AtEdge(w, StepCrash(w, p), p) && SameHistory(w, StepCrash(w, p))
    ensures AtEdge(w, StepFail(w, p), p) && SameHistory(w, StepFail(w, p))
  {
  }

  lemma AskIsAtEdge(w: World, p: Pid, q: Queue)
    ensures AtEdge(w, StepAsk(w, p, q), p) && SameHistory(w, StepAsk(w, p, q))
  {
  }

  /** Either the queue was held, and this process rests again, or it took the lease and cleared the orphans. */
  lemma AcquireOrRest(env: Env, w: World, p: Pid, gone: bool, token: Token)
    requires p in w.procs && w.procs[p].Asking?
    ensures var w', q := StepAcquire(env, w, p, gone, token), w.procs[p].queue;
            || (w'.db == w.db && (w' == w || w'.procs == w.procs[p := Resting]))
            || (w'.db in {w.db, Reclaimed(w.db, q)} && Ticks(w', p) && w'.procs[p].queue == q
                && w'.procs[p].phase == Ready && w'.procs == w.procs[p := w'.procs[p]])
  {
  }

  lemma AcquireIsAtEdge(env: Env, w: World, p: Pid, gone: bool, token: Token)
    ensures AtEdge(w, StepAcquire(env, w, p, gone, token), p) && SameHistory(w, StepAcquire(env, w, p, gone, token))
  {
  }

  lemma LeaseIsAtEdge(env: Env, w: World, p: Pid, now: nat)
    ensures AtEdge(w, StepRenew(env, w, p, now), p) && SameHistory(w, StepRenew(env, w, p, now))
    ensures AtEdge(w, StepRelease(w, p), p) && SameHistory(w, StepRelease(w, p))
  {
  }

  lemma EdgeKeepsTables(env: Env, w: World, p: Pid, act: Action)
    requires Edges(act) && !act.Acquire?
    ensures StepBy(env, w, p, act).db == w.db
  {
  }

  lemma EdgeIsAtEdge(env: Env, w: World, p: Pid, act: Action)
    requires Edges(act)
    ensures AtEdge(w, StepBy(env, w, p, act), p) && SameHistory(w, StepBy(env, w, p, act))
  {
    match act {
      case Acquire(gone, token) => AcquireIsAtEdge(env, w, p, gone, token);
      case Renew(now) => LeaseIsAtEdge(env, w, p, now);
      case Release => LeaseIsAtEdge(env, w, p, 0);
      case Ask(q) => AskIsAtEdge(w, p, q);
      case _ => EndIsAtEdge(w, p);
    }
  }

  /** The working steps that neither move a base, nor get ready to open, nor have anything to announce. */
  predicate Quiet(act: Action) {
    act.ReadBase? || act.Open? || act.Checkout? || act.Merge? || act.MarkTesting? || act.Gate? || act.Decide?
  }

  ghost predicate Quietly(w: World, w': World, p: Pid) {
    && w'.refs == w.refs && w'.moves == w.moves && w'.settled == w.settled && w'.calls == w.calls
    && (w' == w || (Ticks(w', p)
          && !w'.procs[p].phase.Opening? && !w'.procs[p].phase.Moved? && !w'.procs[p].phase.Announcing?))
  }

  lemma ReadingIsQuiet(env: Env, w: World, p: Pid)
    ensures Quietly(w, StepReadBase(env, w, p), p) && Quietly(w, StepCheckout(w, p), p)
  {
  }

  lemma OpeningIsQuiet(w: World, p: Pid)
    ensures Quietly(w, StepOpen(w, p), p)
  {
  }

  lemma MergingIsQuiet(w: World, p: Pid, result: Option<Sha>)
    ensures Quietly(w, StepMerge(w, p, result), p) && Quietly(w, StepMarkTesting(w, p), p)
  {
  }

  lemma JudgingIsQuiet(w: World, p: Pid, flag: bool)
    ensures Quietly(w, StepGate(w, p, flag), p) && Quietly(w, StepDecide(w, p, flag), p)
  {
  }

  lemma QuietIsQuiet(env: Env, w: World, p: Pid, act: Action)
    requires Quiet(act)
    ensures Quietly(w, StepBy(env, w, p, act), p)
  {
    match act {
      case Merge(result) => MergingIsQuiet(w, p, result);
      case MarkTesting => MergingIsQuiet(w, p, None);
      case Gate(passed) => JudgingIsQuiet(w, p, passed);
      case Decide(interrupted) => JudgingIsQuiet(w, p, interrupted);
      case Open => OpeningIsQuiet(w, p);
      case _ => ReadingIsQuiet(env, w, p);
    }
  }

  ghost function Run(env: Env, w: World, events: seq<Event>): World {
    if events == [] then w else Step(env, Run(env, w, events[..|events| - 1]), events[|events| - 1])
  }

  lemma RunSnoc(env: Env, w: World, events: seq<Event>, e: Event)
    ensures Run(env, w, events + [e]) == Step(env, Run(env, w, events), e)
  {
    assert (events + [e])[..|events|] == events;
  }

  /** Nothing queued yet, no one working, base branches wherever they are. */
  ghost predicate Initial(w: World) {
    && w.db == Db([], [])
    && w.leases == map[] && w.procs == map[]
    && w.merges == {} && w.passes == {} && w.runs == [] && w.moves == [] && w.settled == [] && w.calls == []
  }
}
