# Verification model of the sasse merge queue

A Dafny 4.11 model of a local merge queue and proofs about it. `dafny verify dfyconfig.toml` checks the whole project.

A worker takes a lease on a base branch, batches what waits, merges the batch in order onto the base recorded for it,
runs the gate, and then either moves the base onto the gated commit by compare-and-set, halves the batch, blames one
entry, or abandons the batch for free. Every step is a separate transaction on persisted tables or a separate git
command, and crashes, reclaims, pushes from outside and commands given by hand fall between them.

## How it is laid out

| files | what they model |
|---|---|
| `Vocabulary`, `States`, `Bisection`, `Tables`, `Ranking` | the tables, the documented lifecycles, the order entries wait in, and what each transaction makes of the tables |
| `Store`, `FakeGit`, `Worker`, `Loop` | the program in its own form: a store whose methods are transactions, git as refs with compare-and-set and one checkout, the worker's tick step by step, and the loop around it with its summary; each method is proved against the functions above |
| `TableInvariant`, `Overtaking` | what every transaction keeps |
| `Protocol` | any number of workers, hand commands, pushes, crashes and the clock, interleaved one transaction or git command at a time, with a record of merges, gate passes, gate runs, base moves, settlements and hook calls |
| `BaseSafety`, `LeaseExclusion`, `Fairness`, `Homes`, `Evictions` | what holds of every interleaving whatever |
| `Discipline`, `Lifecycles`, `Lineage`, `OrderInRuns`, `Agreement`, `Announcements` | what holds of every disciplined run (below), and some that holds of every run |
| `Advance`, `Reports`, `Termination`, `Drain`, `Isolation` | one whole tick as a function, what it says of itself and has done, and what sequences of ticks come to |
| `TickRuns`, `Sessions`, `Progress` | the proof that an undisturbed stretch of the protocol is those ticks, with the answers its own steps got, so that what is proved of sequences of ticks holds of it; and that such stretches can always be gone through |
| `Scenarios` | concrete runs into the corners where the code and its documentation part |
| `Decimal`, `Capped`, `Logs`, `Retention`, `Bytes` | the gate log cut to its ends, the prune plan, the prune applied write by write, and sizes printed and parsed |

A row's id is its index and no row is deleted, so ids are handed out consecutively; a candidate's joining rows live
inside it and a row's position is its index there. The lifecycles are not consulted by the program; here they are what
its steps are compared with. Integers are unbounded; where a width matters (sizes, sums of file sizes, the dropped-byte
count) the bound 2^64 is written out.

A run is *disciplined* when no lease runs out under a live worker and no removal or promotion by hand falls between a
tick's choosing entries and its opening a candidate over them. Nothing else is assumed: enqueues, pushes, errors and
crashes may come anywhere, also between the two halves of a split and between moving the base and recording it. The
base-branch theorem, lease exclusion, fairness, the ways off the candidate lifecycle and the containment of what has
merged do not need discipline; all of these but lease exclusion need each worker to have its own integration checkout.
Lease exclusion takes the clock not to go back, a process to be reported gone only when it is,
and tokens to be distinct; the reading of the clock a lease is taken with may be old. Reading the unfinished candidate
and selecting a batch are one event.

## Where the code and its documentation part

- The documented candidate lifecycle is left in three ways, and `Lifecycles.EveryWayOffTheTable` proves of every run
  that there are no others. A conflict is blamed while the candidate is still building
  (`Scenarios.ConflictLeavesTable`). A candidate that was under test when its tick failed is put under test again by the
  tick that resumes it, with a newly merged commit, its state left as it was (`Scenarios.ResumingLeavesTable`). And a
  candidate that has finished is written once more: in `Scenarios.LostLeaseLands` a worker that has lost its lease
  records a superseded candidate as passed. Disciplined runs know only the first two (`Lifecycles.OffTheTable`).
- Exactly one worker is to integrate into a base branch at a time, and the design has a holder renew its lease before
  it expires. No tick renews: `Scenarios.LongGateLosesTheLease` is a run in which a gate outlasts the lease and a second
  worker gets into the queue. `LeaseExclusion.OneWorkerPerQueue` proves that there is one worker at a time throughout a
  run if and only if no process asks for a queue whose worker is still inside its tick with its lease run out.
- A fault is said to cost log2(N) more gate runs. The right half of a split goes back in the queue and is batched
  again with whatever waits, so the search starts over after every landing; `Isolation.DocumentedCost` proves the
  stated cost is met exactly when the faulty entry is first in line, and `Isolation.FaultIsIsolated` gives the exact
  count and `Isolation.SearchIsBounded` the bound it really has.
- Promotion ranks an entry above every entry that waits, which need not be above those in flight;
  `Overtaking.PromoteInFlight` says exactly when a candidate in flight is overtaken, and `Scenarios.PromotionOvertakes`
  is a case.
- A tick that fails once its gate has run, as when moving the base is an error, gives its lease back, and the next tick
  resumes the candidate and logs to the file the first run logged to. Pruning can then delete a file that a kept failure
  still names: `Scenarios.FailureLosesItsLog` is a run that comes to it, and `Retention.SharedFiles` says exactly when it
  happens.

## Model

| member | source | states |
|---|---|---|
| Bisection.Decide | src/queue/model.rs:23-35 | a lone failure is its own culprit; otherwise two nonempty halves that rejoin to the batch in order, the left never the longer; only the empty batch is refused |
| Ranking.Waiting | src/queue/store.rs:83-108 | exactly the queued entries of the queue, each before every entry of lower priority or of the same priority and a later id |
| Ranking.SelectBatch | src/queue/store.rs:63-81 | a front of the waiting line no longer than the limit, empty only if nothing waits or the limit is zero, and either one entry or all never failed |
| Ranking.StopsShortAtRetry | src/queue/store.rs:71-80 | a batch falls short of the limit only at a retry, its own first entry or the next in line |
| Ranking.RankedUnique | src/queue/store.rs:90-94 | there is one way to order a set of entries, so selection is determined by what waits |
| Tables.ActiveFrom | src/queue/store.rs:999-1009 | the unfinished candidate of lowest id, and none only if the queue has none |
| Tables.MaxPriorityIsMax | src/queue/store.rs:278-288 | the priority a promotion is computed from bounds that of every waiting entry and, if any waits, is attained |
| TableInvariant.OpenKeeps | src/queue/store.rs:1048-1082 | opening over waiting, never-mixed entries with none in flight keeps the table invariant, takes only lifecycle steps, rewrites no identity and touches no other queue |
| TableInvariant.UnderTestKeeps | src/queue/store.rs:1085-1092 | so does recording that the candidate is being gated |
| TableInvariant.LandKeeps | src/queue/store.rs:1127-1167 | so does landing a gated candidate, after which none is in flight |
| TableInvariant.AbandonKeeps | src/queue/store.rs:1174-1195 | so does abandoning it, for free |
| TableInvariant.BlameKeeps | src/queue/store.rs:1221-1303 | so does blaming one of its entries: that one is charged once more and every other outcome is skipped |
| TableInvariant.ReclaimIsAbandon | src/queue/lease.rs:245-274 | with at most one candidate in flight, clearing a dead worker's orphans is abandoning that candidate |
| TableInvariant.ReclaimKeeps | src/queue/lease.rs:245-274 | a reclaim keeps the table invariant and leaves none in flight |
| TableInvariant.EnqueueKeeps | src/queue/store.rs:37-53 | an enqueue keeps the invariant, live identities staying unique |
| TableInvariant.DequeueKeeps | src/queue/store.rs:239-258 | a removal by hand keeps it |
| TableInvariant.PromoteKeeps | src/queue/store.rs:265-290 | a promotion keeps it |
| Overtaking.EnqueueAppends | src/queue/store.rs:37-53 | a newcomer goes to the very back of the line |
| Overtaking.DequeueKeepsOrder | src/queue/store.rs:239-258 | removing a waiting entry leaves every candidate in flight at the front of its line, in line order |
| Overtaking.DequeueLeavesLine | src/queue/store.rs:239-258 | a removal by hand takes exactly that entry out of its line, everyone else staying in order, and no other line changes |
| Overtaking.PromoteGoesFirst | src/queue/store.rs:260-264 | a promoted entry goes to the front of what waits and the rest keep their order |
| Overtaking.PromoteInFlight | src/queue/store.rs:265-290 | with a candidate in flight, a promotion keeps the order if and only if the last entry in flight still ranks ahead of the promoted one |
| Scenarios.PromotionOvertakes | src/queue/store.rs:265-290 | two entries never promoted, one in flight: promoting the other takes it past the first |
| Overtaking.NoneLeftBehind | src/queue/store.rs:1127-1167 | when a candidate at the front of its line lands, every entry still live ranks behind each of its entries |
| Storage.Store.Enqueue | src/queue/store.rs:37-53 | one new waiting row at the end, never failed and not promoted; where live identities are distinct, refused if and only if that row would make two live entries of the queue name one branch at one commit, and then nothing has changed |
| Storage.Store.SelectBatch | src/queue/store.rs:63-81 | the take-while loop yields the selection function |
| Storage.Store.Dequeue | src/queue/store.rs:239-258 | a waiting entry of this queue is evicted as removed by hand and nothing else changes; for one past waiting its state is the answer, for any other that it is unknown, and nothing changes |
| Storage.Store.Promote | src/queue/store.rs:265-290 | a waiting entry of this queue gets a priority one above the highest that waits and nothing else changes; the other answers as for a removal |
| Storage.Store.OpenCandidate | src/queue/store.rs:1048-1082 | succeeds exactly for a nonempty batch of distinct known entries with a known parent, and then adds one building candidate with this parent and a pending row per entry in order, and batches them; otherwise nothing has changed |
| Storage.Store.InsertMembers | src/queue/store.rs:1072-1079 | the insertion loop gets through exactly when no entry repeats or is missing, and what it has inserted and moved by then |
| Storage.Store.ActiveCandidate | src/queue/store.rs:994-1019 | the scan finds the unfinished candidate of lowest id |
| Storage.Store.MarkTesting | src/queue/store.rs:1085-1092 | records the commit and the state, and fails only for a candidate that does not exist |
| Storage.Store.RecordRun | src/queue/store.rs:1095-1109 | one gate run more on record, at the end |
| Storage.Store.Land | src/queue/store.rs:1127-1167 | clears the outcomes, merges the entries and passes the candidate, reporting its entries in merge order; refused with nothing changed if it names no commit |
| Storage.Store.Abandon | src/queue/store.rs:1174-1195 | requeues what is batched and nothing else, only ever as superseded or failed, and counts exactly the entries that were batched and wait again |
| Storage.Store.Blame | src/queue/store.rs:1221-1303 | the culprit has one attempt more, and is out with this reason if that was the last and waits again otherwise; the others are requeued for free, and a settlement is reported only on eviction |
| Storage.Store.Acquire | src/queue/lease.rs:79-156 | refused exactly when an unexpired lease is held by a process not known to be gone; otherwise the row is this worker's, and if there was a lease the orphans are cleared and the entries that went back and the candidates given up are counted |
| Storage.Store.SupersedeOrphans | src/queue/lease.rs:245-274 | entries first, then candidates, comes to the whole reclaim, and the counts are of the entries that went back and of the candidates that were unfinished and are superseded |
| Storage.Store.Renew | src/queue/lease.rs:201-229 | a row carrying this token expires this long from the reading and nothing else changes; without one it fails with nothing changed |
| Storage.Store.Release | src/queue/lease.rs:232-239 | a row carrying this token is gone and nothing else; without one nothing changes |
| Git.FakeGit.Merge | src/git/fake.rs:139-152 | a conflict leaves the checkout alone; otherwise the checkout is at a newly minted commit |
| Git.FakeGit.FastForward | src/git/fake.rs:163-174 | moves a branch if and only if it is where it was last seen |
| BaseSafety.RunSafe | src/worker.rs:330-366 | in every interleaving, what each worker holds at each phase is what was recorded, merged and gated |
| BaseSafety.BaseMovesAreGated | src/worker.rs:486-510 | in every interleaving, a base branch moved by anything but a push from outside goes from A to the in-order merge onto A of a recorded candidate built on A, a commit that passed the gate command in A's own configuration |
| LeaseExclusion.RunExcludes | src/queue/lease.rs:79-156 | the lease invariant holds in every run of acquires, renewals, releases, crashes and clock steps |
| LeaseExclusion.OneHolder | src/queue/lease.rs:79-156 | at most one live worker holds an unexpired lease on a queue, and the row carries its token |
| LeaseExclusion.LostForGood | src/queue/lease.rs:201-239 | a lease row that is not this token's is never this token's again, whatever happens |
| LeaseExclusion.StaleTokenIsHarmless | src/queue/lease.rs:201-239 | once a queue's row is not a worker's own, whosever it is, that worker can from then on neither extend nor delete it |
| LeaseExclusion.RenewalHolds | src/queue/lease.rs:201-229 | a worker that renews while its row is still its own has the queue for a whole term from its reading of the clock: until then whoever asks without being told that it is gone is refused |
| LeaseExclusion.AnothersRow | src/queue/lease.rs:79-156 | a row that another live worker wrote is not this worker's own |
| LeaseExclusion.TakenFromUnder | src/queue/lease.rs:102-110 | a queue whose row is a live worker's own is taken from under it if and only if its lease has run out by the taker's reading of the clock and the taker is not told that it is gone |
| LeaseExclusion.SecondWorkerEnters | src/queue/lease.rs:79-156 | from any reachable world with one worker at most on each queue, an event puts a second one on a queue if and only if it takes a lease that a worker inside a tick has outlasted |
| LeaseExclusion.OneWorkerPerQueue | README.md:226-229 | one worker at most is on each queue throughout a run if and only if no process ever asks for a queue whose worker is still inside its tick with its lease run out |
| Scenarios.LongGateLosesTheLease | src/worker.rs:273 | a run after which two live workers are inside a tick on one queue, the first still gating: its gate outlasted its lease, and its candidate has been superseded |
| Discipline.RunFits | src/worker.rs:324-378 | after every event of a disciplined run the table invariant holds and every worker's phase is true of the tables |
| Discipline.LeftHalfIs | src/worker.rs:557-564 | picking the left half out again by id gives exactly the first half in order |
| Discipline.LeftHalfIsOpenable | src/worker.rs:554-571 | after a split's abandon the left half waits, is unmixed and may be opened |
| Lifecycles.LifecyclesHold | src/queue/state.rs:35-45 | no event takes an entry outside its documented lifecycle, and no finished row is written again |
| Lifecycles.OutcomesHold | src/queue/outcome.rs:42-48 | no event takes an outcome anywhere but from pending to a verdict |
| States.EntryTable | src/queue/state.rs:35-45 | what waits can only be batched or evicted, what is batched can go anywhere else, and nothing leaves the finished states, which are those that are not live |
| States.CandidateTable | src/queue/state.rs:80-90 | verdicts come only out of testing, giving up comes any time before one, and nothing leaves the finished states |
| Lifecycles.OffTheTable | src/queue/state.rs:80-90 | in a disciplined run an event sets a candidate to a state its documented lifecycle does not lead to if and only if it blames a conflict on an entry of a candidate still being built, or puts under test a candidate that already is; only the first changes the state |
| Lifecycles.EveryWayOffTheTable | src/queue/state.rs:80-90 | in every run, an event sets a candidate to a state its documented lifecycle does not lead to if and only if it blames a conflict on an entry of a candidate still being built, puts under test a candidate that already is, or writes a candidate that has finished |
| Scenarios.LostLeaseLands | src/queue/store.rs:1127-1167 | a run in which a worker that has lost its lease moves the base and records as passed the candidate superseded by the worker that took the lease |
| Scenarios.CrashAfterMoving | src/worker.rs:486-510 | a run in which a worker dies between moving the base and recording it: the next one finds it gone and takes over, and the entry waits again though the base is at the commit that merged it |
| Scenarios.PushVoidsCandidate | src/worker.rs:486-510 | a run in which the base is pushed to while the gate runs: though the gate passes, the push stands, the candidate is superseded and its entry waits again uncharged |
| Scenarios.ConflictLeavesTable | src/worker.rs:443-451 | a disciplined run in which a conflict takes a candidate from building to failed |
| Scenarios.ResumingLeavesTable | src/worker.rs:362 | a disciplined run in which a resumed candidate is put under test a second time, with another commit |
| Lifecycles.OneCandidateInFlight | src/queue/store.rs:992-1019 | a queue has at most one unfinished candidate and the batched entries are exactly its entries |
| Lifecycles.LiveIdentitiesUnique | migrations/0001_init.sql:28-30 | two live entries of a queue never name the same branch at the same commit |
| Lifecycles.BlameAccounting | src/queue/store.rs:1242-1277 | attempts are the number of candidates that convicted the entry; a passed candidate is all passed, a failed one all pending or one culprit and the rest skipped, any other all pending |
| Lifecycles.OnlyCulpritsPay | src/queue/outcome.rs:28-35 | attempts are the number of candidates in which the entry's outcome burns one |
| Lifecycles.RetriesGoAlone | src/queue/store.rs:55-81 | whatever is in flight is one entry or entries that never failed, through selection, splitting and resumption |
| OrderInRuns.NoOvertaking | src/worker.rs:403-431 | as long as no promotion takes an entry past one in flight, a candidate in flight is always exactly the front of the line in line order, and landing it leaves nobody ahead behind |
| OrderInRuns.OvertakenByHandOnly | src/queue/store.rs:265-290 | throughout a disciplined run every candidate in flight is at the front of its line if and only if no promotion takes an entry past one in flight |
| Agreement.PassedMeansMoved | src/worker.rs:486-510 | a candidate recorded passed had its commit made the base, from the base it was built on |
| Agreement.MergedMeansPassedOnce | src/queue/store.rs:1131-1143 | an entry is merged if and only if one, and only one, passed candidate holds it |
| Homes.RunHome | src/queue/store.rs:1048-1082 | in every interleaving, whatever leases are lost, each entry of a candidate is an entry of the candidate's own queue, and so is each that a worker is about to open one over |
| Agreement.MergedMeansContained | src/worker.rs:351-355 | in every interleaving with no pushes but fast-forwards, the base contains every merged entry's commit, even when crashes fall between moving the base and recording it and leases are lost |
| Lineage.ParentsWereSplit | src/queue/store.rs:1044-1082 | a candidate naming a parent is, in order and on its base, the left half of a candidate of its queue that failed with no one blamed, and no candidate has two children |
| Announcements.AtMostOnce | src/worker.rs:512-538 | with crashes anywhere, no entry is announced twice, and only entries a worker merged or evicted are |
| Announcements.HookHearsAll | src/worker.rs:496-538 | with a hook and no worker dying while it announces, the calls are exactly the worker-made merges and evictions, each once, a candidate's together and in merge order |
| Announcements.NoHookNoCalls | src/worker.rs:517-520 | where no commit configures a hook, no run ever calls one |
| Fairness.NobodyIsWronged | README.md:213-224 | in every interleaving in which git and the gate go by what is wrong with each entry, with pushes, crashes, reclaims, lost leases and interruptions anywhere, an entry with nothing wrong has burnt no attempt, was never found the culprit and is evicted only by hand, and one with something wrong has not merged |
| Evictions.EvictedForAReason | src/queue/store.rs:1254-1260 | in every interleaving an evicted entry's row says which of three things it is out for: removed by hand, conflicting with the base branch, or failing the gate on its own |
| Advancing.AdvanceKeeps | src/worker.rs:324-378 | a whole tick, whatever git, the gate and the signal flag answer, keeps the table invariant and never reaches the empty-candidate error |
| Advancing.AdvanceUnderKeeps | src/worker.rs:324-378 | so does a tick under which the log prune, a git command or the gate gives out: it fails only then, changes no entry but to batch those it picked, and leaves the candidate it had come to in flight |
| Advancing.AdvanceKeepsOrder | src/worker.rs:324-378 | if every candidate in flight was at the front of its line, so it is after a tick, whatever was answered and whatever gave out |
| Reports.TickReports | src/worker.rs:49-90 | a tick with nothing to take is idle and does nothing; otherwise its outcome names the candidate, the entries, the commit, the culprit, the fault and the reason as the base, git, the gate and the signal flag decided, and exactly what it says has been done to the entries it took and to no others |
| Reports.TickIsHeard | src/worker.rs:512-538 | whatever was answered and whatever gave out, a tick calls the hook for exactly the entries it finished, each once and with what its row then says, and for nobody if no hook is configured |
| TickRuns.SoloTickIsAdvance | src/worker.rs:297-378 | a disciplined stretch of one worker's steps from the start of a tick to the end of its work leaves the tables and the base one whole tick does, given the answers these very steps got from git, the gate and the signal flag |
| Sessions.SessionIsTicks | src/worker.rs:149-210 | over any number of ticks of a worker left alone on a queue, the tables and the base between two of them are those its finished ticks come to as whole ticks, each with its own answers |
| Sessions.SoloWorkerEnds | src/worker.rs:149-210 | in any disciplined run, whatever conflicts and whatever the gate says, once enough uninterrupted ticks of a worker left alone have ended the queue is empty |
| Sessions.SoloWorkerIsolates | src/worker.rs:540-580 | in any disciplined run whose answers go by what is wrong with each entry, the tick of a worker left alone that blames the first fault of a fresh line is exactly the one the cost recursion says, with everything ahead merged and the fault charged once |
| Sessions.SoloWorkerDrains | src/worker.rs:149-210 | in any disciplined run whose answers go by what is wrong with each entry, from live entries never charged and none in flight, once enough ticks of a worker left alone have ended the queue is empty, every innocent entry merged uncharged and every guilty one out after exactly max_attempts convictions |
| Progress.NeverStuck | src/worker.rs:324-378 | in every run, whatever else happened, a worker inside a tick has a next step of its own, going by the trial, that takes it nearer the end of the tick |
| Progress.TicksCanEnd | src/worker.rs:297-322 | in every run a worker inside a tick can end it by steps of its own that go by the trial |
| Progress.SoloWorkerCanDrain | src/worker.rs:149-210 | from any point of a disciplined run at which nobody is at work on a queue, nothing is in flight and no live entry has been charged, one worker left alone can bring the queue to its end with everyone given their due |
| Termination.TicksDescend | src/worker.rs:540-580 | attempts left to burn, then the size in hand, fall lexicographically on every tick that is not idle |
| Termination.TicksDrain | src/worker.rs:324-378 | undisturbed ticks empty the queue within the budget computed from the tables, for any conflicts and any verdicts |
| Termination.TickBound | src/worker.rs:324-378 | with nothing in flight, n live entries are settled within n * max_attempts * (log2(max_batch) + 1) ticks |
| Termination.DrainedIsIdle | src/worker.rs:347-349 | with no live entry a tick is idle and changes nothing |
| Drain.TruthfulRunsExist | src/git/fake.rs:139-147 | from any tables there are answers of such a gate and git for any number of ticks, so what is proved of them is about something |
| Drain.QueueDrainsFairly | src/queue/store.rs:1231-1277 | from entries never charged, every innocent one is merged and never convicted and every faulty or conflicting one is evicted with exactly max_attempts convictions |
| Isolation.RunsAreBounded | src/worker.rs:557-577 | each landing at least halves the distance to the fault, and each descent costs one run per halving |
| Isolation.SearchIsBounded | src/worker.rs:557-577 | the search takes at most (bits(p) + 1) * (log2(n) + 1) gate runs |
| Isolation.DocumentedCost | README.md:37-38 | the stated cost of one run and log2(n) more is met if and only if the faulty entry is first in line |
| Isolation.FaultIsIsolated | src/worker.rs:540-580 | the first fault of a fresh line that fits one batch is blamed after exactly that many gate runs and not before, when everything ahead of it has merged and it has been charged once |
| Workers.Worker.Tick | src/worker.rs:297-322 | refused only by a live lease; otherwise the tables, the gate runs on record and the outcome are those of the whole-tick function on the reclaimed tables, also when something gives out; the lease is given back, the base is where a landing put it or where it was, and the hook was called for exactly what settled |
| Workers.Worker.Advance | src/worker.rs:324-378 | the steps come to the whole-tick function, whatever git, the gate and the prune do, and a held or missing base or configuration changes nothing |
| Workers.Worker.CandidateToWorkOn | src/worker.rs:398-432 | resume, open over the selected batch, or nothing |
| Workers.Worker.Assemble | src/worker.rs:434-457 | merging in order stops at the first conflicting entry or the first git command that gives out, or ends with the checkout at the tip |
| Workers.Worker.ReadBase | src/worker.rs:325-331 | a base some checkout holds, a missing ref and a missing configuration each end the tick; otherwise the base and the configuration in that very commit |
| Workers.Worker.Gate | src/worker.rs:362-377 | a gate that runs is recorded; a pass lands, an interrupted failure is no verdict, a failure splits or blames; a gate or a base move that gives out ends the tick with the candidate still under test |
| Workers.Worker.Land | src/worker.rs:486-510 | moves the base and records it only if the base has not moved, and otherwise abandons for free |
| Workers.Worker.Announce | src/worker.rs:517-538 | nobody is called if no hook is configured; otherwise one call per settlement in order, and the calls not delivered are kept, in order |
| Workers.Worker.OnGateFailure | src/worker.rs:540-580 | blame alone, otherwise abandon and open the left half |
| Workers.Worker.Blame | src/worker.rs:582-606 | the charge, the outcome and the announcement of an eviction only |
| Looping.AdvanceTallies | src/worker.rs:213-222 | the merged and evicted entries of the queue grow by exactly what a tick's outcome says |
| Looping.OneTick | src/worker.rs:297-322 | over one tick, reclaim included, the finished entries grow by what its outcome says and the hook of the base's configuration is called for exactly those, and for nobody where there is none |
| Looping.KeepWorking | src/worker.rs:149-210 | the summary's landed and evicted counts are the growth of the tables, every tick is counted once, and it gives up if and only if as many ticks as allowed failed in a row, at the first such run |
| CappedLog.Capped.Take | src/gate.rs:154-173 | head on disk, ring and dropped count stand for the stream taken so far |
| CappedLog.Capped.Finish | src/gate.rs:175-186 | for an allowance of cap bytes, or two if it is less, the stream as it is if it has no more than twice half of that; otherwise the first half-allowance of bytes, the marker with the number of bytes dropped, and the last |
| CappedLog.Transcribe | src/gate.rs:94-112 | the same file for every way of cutting the output into reads, and an output shorter than the allowance unchanged |
| CappedLog.StoredIsCut | src/gate.rs:141-186 | what is stored is cut to the allowance, the number in the marker reading back as the bytes dropped |
| CappedLog.StoredFits | src/gate.rs:141-186 | at most max(cap, 2) and 72 bytes of marker; what is shorter than cap, or no longer than twice half of it, is stored unchanged |
| CappedLog.NothingUnaccounted | src/gate.rs:175-186 | a longer stream has its first and last cap / 2 bytes stored whole, and what is stored and what the marker counts make up the whole |
| Logs.Excess | src/logs.rs:96-108 | the least number of oldest failures whose going makes the rest fit |
| Logs.MakePlan | src/logs.rs:83-117 | barring overflow of the sum, the loops come to the plan function and no subtraction saturates |
| Logs.PlanIsExact | src/logs.rs:83-117 | kept and removed make up the input, the planned size is the kept total and is within budget |
| Logs.RemovedIff | src/logs.rs:68-117 | a log goes if and only if it passed or it and the newer failures together exceed the budget |
| Logs.RemovedInOrder | src/logs.rs:83-117 | the passes go first, as they were found, then the failures, the oldest first, each with its reason |
| Logs.Tail | src/logs.rs:125-138 | one pass over the text with a ring comes to as many lines as asked for if the text has so many, by their places its last ones, and the text ends in them |
| Logs.LinesRejoin | src/logs.rs:132-143 | no line holds a newline, joined again the lines are the text but for a newline at its very end, and only the empty text has none |
| Retention.Shelf.Survey | src/retention.rs:21-40 | exactly the settled logs present, rows of missing files told so |
| Retention.Shelf.Apply | src/retention.rs:60-95 | carries the whole plan out and counts the tails kept, or stops with the row written at the first file that is gone already or cannot be deleted |
| Retention.ExplainedThroughout | src/retention.rs:21-92 | with a file to each row, at every point between two writes, of the survey and of the removals, no row names a deleted file and every deleted readable failure has its last lines on its row |
| Retention.PruneIsEnough | src/retention.rs:60-95 | a finished prune leaves what settled rows name within budget and a second would remove nothing |
| Retention.PruneComesTo | src/retention.rs:21-95 | with a file to each row, what a finished prune has made of every row: those of other queues, of unsettled candidates and without a file untouched, those of missing files told so, and exactly the passes and the failures that exceed the budget with the newer ones cleared, a readable failure's last forty lines kept |
| Retention.FilesComeTo | src/retention.rs:60-95 | the files gone are exactly those of the rows that had to go, and no other file has changed |
| Retention.UnsettledAreLeft | src/queue/store.rs:343-353 | between any two writes of a prune, the rows of other queues and of unsettled candidates are as they were, and a file only they name is there |
| Retention.SharedFiles | src/worker.rs:465 | a finished prune leaves a row naming a deleted file if and only if a row that stays has the file of one that goes, that is of one found there that passed or that exceeds the budget together with the newer failures |
| Scenarios.OneCandidateTwice | src/worker.rs:465 | of the gate runs of any world: if and only if some candidate has a run that goes and a run that stays |
| Retention.ResumedCandidateLosesItsLog | src/worker.rs:465 | one candidate gated twice into one file, passed then failed: pruning leaves the failure's row naming a deleted file with nothing kept |
| Scenarios.PassedThenFailed | src/worker.rs:311-321 | a disciplined run that leaves such a candidate: its gate passes, the tick fails before the base has moved and gives its lease back, and the next tick resumes it and its gate fails |
| Scenarios.FailureLosesItsLog | src/worker.rs:465 | that run followed by a prune leaves the failure's row naming the deleted file, with no tail |
| Decimal.DigitsReadBack | src/bytes.rs:63-76 | a number printed in decimal reads back as itself |
| Decimal.NoLeadingZero | src/bytes.rs:63-76 | only zero is printed with a zero in front |
| Bytes.Parse | src/bytes.rs:29-60 | accepted exactly when there are digits, a known suffix and a product that fits 64 bits, and then that product: nothing wraps |
| Bytes.ParseReads | src/bytes.rs:29-60 | a text is read as a size if and only if it is a whole number and a suffix worth 1, 1024, 1048576 or 1073741824 bytes, in any casing and with any spaces before, between and after, and the product, which is the size, is less than 2^64 |
| Bytes.ParseOfPrinted | src/bytes.rs:45-50 | the same of every printed number straight before its suffix, with the refusal of those that do not fit |
| Bytes.SpacesAre | src/bytes.rs:30 | what is trimmed is what Unicode calls white space, by code point |
| Bytes.DisplayedSizeParsesBack | src/bytes.rs:63-76 | for every 64-bit size, parsing what is displayed gives it back |
| Bytes.DisplayedUnit | src/bytes.rs:63-76 | a size is printed as so many of the largest of GB, MB and KB it is a multiple of, and in bytes if of none; zero is in bytes |
| Bytes.DisplayIsInjective | src/bytes.rs:63-76 | different sizes never print alike |
| Bytes.SpellingIsForgiven | src/bytes.rs:29-60 | spaces before, between and after and any casing of the unit make no difference, and a product that does not fit is refused |

## Left out

- Status listings, snapshots, `src/main.rs`, and the text of reports: presentation and counting.
- Spawning the gate and the hook, pipes, signals, timeouts: the gate is a verdict, the hook a recorded call, an interruption a flag.
- Real git command lines and their output: only the compare-and-set and conflict contracts; a merge mints a commit containing both sides or finds the branch contained, and git rejecting a push is not part of this model.
- SQL, the migration runner, pragmas and busy timeouts: the tables and atomic transactions; the index over live identities is checked at enqueue and proved kept by everything else.
- Parsing of the configuration file: its guarantees are preconditions.
- Object id text, ref name prefixes, and wall-clock formatting: ids and instants are numbers.
- Time stamps on rows, and the exit codes and start times of gate runs; running the gate and recording the run are one step.
- A database that fails in the middle of a tick: in `Worker` no store call fails for reasons of its own, giving the lease back included; in `Protocol` an error may end a tick at any phase.
- Workers.Worker.Advance: the log prune at the start of a tick is `Retention.Shelf.Apply`, on rows and files of its own; here it either goes through or ends the tick.
- Workers.Worker.Tick: one push from outside may fall while the gate runs and nowhere else; the interleaved protocol has them everywhere.
- Fairness.NobodyIsWronged: what is wrong with an entry is fixed throughout; a flaky gate, or an entry that conflicts with one base and not with the next, is not covered by it, while termination is proved for any verdicts.
- Sessions.SoloWorkerDrains: every commit configures the same, so that the bound is one number.
- Sessions.SoloWorkerEnds: likewise.
- Sessions.SoloWorkerIsolates: likewise.
- Progress.SoloWorkerCanDrain: likewise.
- Ranking.SelectBatch: the cast of the limit to a signed 64-bit integer is not modelled.
- CappedLog.Capped.Take: the dropped count is unbounded here, where the program's is 64 bits wide; file write errors are left out.
- Logs.Tail: a file is text that can be read whole or not at all; replacing invalid bytes and errors part-way are left out.
- Lossy text, locale and file system details.
