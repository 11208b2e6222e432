/** The worker: one lease, one candidate, one gate run a tick, step by step over the store and git. */
module Workers {
  import opened Vocabulary
  import opened States
  import opened Tables
  import opened Ranking
  import opened Protocol
  import opened Storage
  import opened Git
  import opened Advancing
  import Bisection

  /** What the surroundings do during one tick. */
  datatype Day = Day(
    now: nat, gone: bool, token: Token,
    passed: bool,         // what the gate will say
    push: Option<Sha>,    // where someone moves the base while the gate runs
    interrupted: bool,    // whether a stop is pending once the gate has failed
    stopping: bool,       // whether one is pending once the tick is over
    trouble: Option<Trouble>)  // what gives out, if anything does

  /** What the hook hears of a tick that came to these tables: what landed, in merge order, or what was evicted. */
  function ToldBy(config: Config, db: Db, out: TickOutcome): seq<Settlement> {
    match out
    case Landed(c, _, _) => HookCalls(config, LandedSettlements(db, c))
    case Blamed(_, e, true, fault) =>
      if e < |db.entries| then
        HookCalls(config, [Settlement(db.entries[e].queue, e, EntryState.Evicted, db.entries[e].attempts, Some(fault))])
      else []
    case _ => []
  }

  /** The calls that were not delivered. */
  function Undelivered(deaf: set<EntryId>, calls: seq<Settlement>): (r: seq<Settlement>)
    ensures forall s :: s in r <==> s in calls && s.entry in deaf
    ensures |r| <= |calls|
  {
    if calls == [] then []
    else
      var n := |calls| - 1;
      Undelivered(deaf, calls[..n]) + if calls[n].entry in deaf then [calls[n]] else []
  }

  /** Order is kept: what is undelivered of two stretches of calls is so of either, one after the other. */
  lemma {:induction false} UndeliveredJoins(deaf: set<EntryId>, front: seq<Settlement>, back: seq<Settlement>)
    ensures Undelivered(deaf, front + back) == Undelivered(deaf, front) + Undelivered(deaf, back)
  {
    if back == [] {
      assert front + back == front;
    } else {
      var n := |back| - 1;
      assert (front + back)[..|front + back| - 1] == front + back[..n];
      UndeliveredJoins(deaf, front, back[..n]);
    }
  }

  /** The row a tick on this candidate records of its gate run, if the gate got to run. */
  function Ran(db: Db, c: CandidateId, base: Sha, config: Config, a: Answers, trouble: Option<Trouble>): seq<GateRun>
    requires c < |db.candidates|
  {
    var row := db.candidates[c];
    if row.base != base || HitsConflict(Ids(row), a) then []
    else if trouble.Some? && !trouble.value.AtFastForward? && Strikes(Ids(row), a, trouble.value) then []
    else [GateRun(c, config.gate, a.passed)]
  }

  /** The same of a whole tick. */
  function RanIn(db: Db, q: Queue, base: Sha, config: Config, a: Answers, trouble: Option<Trouble>): seq<GateRun> {
    var active := Tables.ActiveCandidate(db, q);
    if trouble == Some(AtPrune) then []
    else if active.Some? then Ran(db, active.value, base, config, a, trouble)
    else
      var batch := SelectBatch(db, q, config.maxBatch);
      if batch == [] then [] else Ran(Opened(db, q, base, batch, None), |db.candidates|, base, config, a, trouble)
  }

  /** How assembling a candidate came out. */
  datatype Assembly = Candidate(tip: Sha) | Conflicts(at: nat) | Broke

  class Worker {
    const store: Store
    const git: FakeGit
    const queue: Queue
    const pid: Pid
    const ttl: nat
    const deaf: set<EntryId>     // whose settlements the hook fails to deliver
    var told: seq<Settlement>    // hook calls so far
    var missed: seq<Settlement>  // those not delivered, as the outcomes reported them

    constructor (store: Store, git: FakeGit, queue: Queue, pid: Pid, ttl: nat, deaf: set<EntryId>)
      ensures this.store == store && this.git == git && this.queue == queue && this.pid == pid && this.ttl == ttl
              && this.deaf == deaf
      ensures told == [] && missed == []
    {
      this.store, this.git, this.queue, this.pid, this.ttl, this.deaf := store, git, queue, pid, ttl, deaf;
      told, missed := [], [];
    }

    /** How the surroundings answer work on these entries from this base. */
    ghost function AnswersTo(shas: seq<Sha>, base: Sha, day: Day, minted: nat): Answers {
      Answers(FirstIn(shas, git.conflicting, 0), TipOf(base, minted, |shas|), day.passed,
              day.push.Some? && day.push.value != base, day.interrupted)
    }

    /** What the gate and the surroundings answered once the commit was assembled. */
    ghost predicate AnsweredBy(a: Answers, tip: Sha, base: Sha, day: Day) {
      a.tip == tip && a.passed == day.passed && a.interrupted == day.interrupted
        && a.stale == (day.push.Some? && day.push.value != base)
    }

    /** The tables, the outcome and the gate runs on record are what a tick from these tables and refs makes of them. */
    ghost predicate Follows(db: Db, refs: map<string, Sha>, minted: nat, runs: seq<GateRun>, day: Day, db': Db,
                            runs': seq<GateRun>, r: TickOutcome)
      requires Referential(db)
    {
      if Some(queue.base) in git.worktrees then r == BaseCheckedOut && db' == db && runs' == runs
      else if queue.base !in refs || git.configs(refs[queue.base]).None? then r.Failed? && db' == db && runs' == runs
      else
        var base := refs[queue.base];
        var config := git.configs(base).value;
        PickedAreKnown(db, queue, config);
        var a := AnswersTo(ShasAt(db.entries, Picked(db, queue, config)), base, day, minted);
        (db', r) == AdvanceUnder(db, queue, base, config, a, day.trouble)
            && runs' == runs + RanIn(db, queue, base, config, a, day.trouble)
    }

    /** A landing moves the base to the gated commit; nothing else this worker does moves it. */
    ghost predicate RefsFollow(refs: map<string, Sha>, day: Day, refs': map<string, Sha>, r: TickOutcome) {
      if r.Landed? then refs' == refs[queue.base := r.at]
      else refs' == refs || (day.push.Some? && refs' == refs[queue.base := day.push.value])
    }

    /** What the hook is called for, under the configuration in the base. */
    ghost function CallsFor(refs: map<string, Sha>, db': Db, r: TickOutcome): seq<Settlement> {
      if queue.base in refs && git.configs(refs[queue.base]).Some?
      then ToldBy(git.configs(refs[queue.base]).value, db', r)
      else []
    }

    /** The hook was called for these and no others, and what it failed to deliver is known. */
    ghost predicate Calls(told: seq<Settlement>, missed: seq<Settlement>, calls: seq<Settlement>,
                          told': seq<Settlement>, missed': seq<Settlement>) {
      told' == told + calls && missed' == missed + Undelivered(deaf, calls)
    }

    /** Under a lease of its own, one whole advance; the lease is given back whatever came of it. */
    method Tick(day: Day) returns (r: TickOutcome)
      requires Referential(store.Rows())
      modifies this, store, git
      ensures Referential(store.Rows())
      ensures r.AnotherWorkerHolds? <==>
                queue in old(store.leases) && old(store.leases)[queue].expires > day.now && !day.gone
      ensures r.AnotherWorkerHolds? ==>
                store.Rows() == old(store.Rows()) && store.leases == old(store.leases) && store.runs == old(store.runs)
      ensures !r.AnotherWorkerHolds? ==> store.leases == old(store.leases) - {queue}
      ensures !r.AnotherWorkerHolds? ==>
                (var was := old(store.Rows());
                 var db := if queue in old(store.leases) then Reclaimed(was, queue) else was;
                 Referential(db) && Follows(db, old(git.refs), old(git.minted), old(store.runs), day, store.Rows(),
                                            store.runs, r))
      ensures RefsFollow(old(git.refs), day, git.refs, r)
      ensures Calls(old(told), old(missed), CallsFor(old(git.refs), store.Rows(), r), told, missed)
    {
      var acquisition := store.Acquire(queue, pid, day.now, ttl, day.gone, day.token);
      if acquisition.Held? {
        return AnotherWorkerHolds(acquisition.holder);
      }
      r := Advance(day);
      var ours := store.Release(queue, acquisition.lease);
    }

    method Advance(day: Day) returns (r: TickOutcome)
      requires Referential(store.Rows())
      modifies this, store`entries, store`candidates, store`runs, git
      ensures Referential(store.Rows()) && !r.AnotherWorkerHolds?
      ensures Follows(old(store.Rows()), old(git.refs), old(git.minted), old(store.runs), day, store.Rows(),
                      store.runs, r)
      ensures RefsFollow(old(git.refs), day, git.refs, r)
      ensures Calls(old(told), old(missed), CallsFor(old(git.refs), store.Rows(), r), told, missed)
    {
      var from := ReadBase();
      if from.Ok? {
        r := AdvanceFrom(from.value.0, from.value.1, day);
      } else {
        r := from.error;
      }
    }

    method AdvanceFrom(base: Sha, config: Config, day: Day) returns (r: TickOutcome)
      requires Referential(store.Rows()) && StartsOn(git.refs, base, config)
      modifies this, store`entries, store`candidates, store`runs, git
      ensures Referential(store.Rows()) && !r.AnotherWorkerHolds?
      ensures Follows(old(store.Rows()), old(git.refs), old(git.minted), old(store.runs), day, store.Rows(),
                      store.runs, r)
      ensures RefsFollow(old(git.refs), day, git.refs, r)
      ensures Calls(old(told), old(missed), CallsFor(old(git.refs), store.Rows(), r), told, missed)
    {
      PickedAreKnown(store.Rows(), queue, config);
      ghost var was, a := store.Rows(), AnswersTo(ShasAt(store.entries, Picked(store.Rows(), queue, config)), base,
                                                  day, git.minted);
      if day.trouble == Some(AtPrune) {
        r := TickOutcome.Failed(GAVE_OUT);
      } else {
        r := TakeUp(base, config, day, a);
      }
      Following(was, old(git.refs), old(git.minted), old(store.runs), day, store.Rows(), store.runs, r, base, config,
                a);
    }

    /** Choose a candidate and see it through, if there is one to choose. */
    method TakeUp(base: Sha, config: Config, day: Day, ghost a: Answers) returns (r: TickOutcome)
      requires Referential(store.Rows()) && StartsOn(git.refs, base, config) && day.trouble != Some(AtPrune)
      requires Known(store.entries, Picked(store.Rows(), queue, config))
      requires a == AnswersTo(ShasAt(store.entries, Picked(store.Rows(), queue, config)), base, day, git.minted)
      modifies this, store`entries, store`candidates, store`runs, git
      ensures Referential(store.Rows())
      ensures (store.Rows(), r) == AdvanceUnder(old(store.Rows()), queue, base, config, a, day.trouble)
      ensures store.runs == old(store.runs) + RanIn(old(store.Rows()), queue, base, config, a, day.trouble)
      ensures RefsFollow(old(git.refs), day, git.refs, r)
      ensures Calls(old(told), old(missed), ToldBy(config, store.Rows(), r), told, missed)
    {
      ghost var was := store.Rows();
      var c := CandidateToWorkOn(base, config);
      if c.None? {
        r := Idle;
      } else {
        WorkedOnIsPicked(was, store.Rows(), c.value, queue, base, config, a, day.trouble);
        r := WorkOn(c.value, base, config, day);
      }
    }

    lemma Following(db: Db, refs: map<string, Sha>, minted: nat, runs: seq<GateRun>, day: Day, db': Db,
                    runs': seq<GateRun>, r: TickOutcome,
                    base: Sha, config: Config, a: Answers)
      requires Referential(db) && StartsOn(refs, base, config) && Known(db.entries, Picked(db, queue, config))
      requires a == AnswersTo(ShasAt(db.entries, Picked(db, queue, config)), base, day, minted)
      requires (db', r) == AdvanceUnder(db, queue, base, config, a, day.trouble)
      requires runs' == runs + RanIn(db, queue, base, config, a, day.trouble)
      ensures Follows(db, refs, minted, runs, day, db', runs', r) && !r.AnotherWorkerHolds?
    {
      NotHeldByNow(db, queue, base, config, a, day.trouble);
    }

    /** No checkout holds the base, it is at this commit, and this is the configuration in it. */
    ghost predicate StartsOn(refs: map<string, Sha>, base: Sha, config: Config) {
      && Some(queue.base) !in git.worktrees
      && queue.base in refs && refs[queue.base] == base && git.configs(base) == Some(config)
    }

    /** A base some checkout holds is left alone; the gate command comes out of the base commit itself. */
    method ReadBase() returns (r: Result<(Sha, Config), TickOutcome>)
      ensures r.Ok? ==> StartsOn(git.refs, r.value.0, r.value.1)
      ensures r.Err? ==> if Some(queue.base) in git.worktrees then r.error == BaseCheckedOut
                         else r.error.Failed? && (queue.base in git.refs ==> git.configs(git.refs[queue.base]).None?)
    {
      if Some(queue.base) in git.worktrees {
        return Err(BaseCheckedOut);
      }
      var resolved := git.Resolve(queue.base);
      if resolved.Err? {
        return Err(TickOutcome.Failed(resolved.error));
      }
      var config := git.configs(resolved.value);
      r := if config.None? then Err(TickOutcome.Failed("there is no gate to run"))
          else Ok((resolved.value, config.value));
    }

    /** At most one candidate is ever opened here, and only over a batch that is not empty. */
    method CandidateToWorkOn(base: Sha, config: Config) returns (r: Option<CandidateId>)
      requires Referential(store.Rows())
      modifies store`entries, store`candidates
      ensures Referential(store.Rows())
      ensures var db := old(store.Rows());
              var active, batch := ActiveCandidate(db, queue), SelectBatch(db, queue, config.maxBatch);
              if active.Some? then r == active && store.Rows() == db
              else if batch == [] then r == None && store.Rows() == db
              else r == Some(|db.candidates|) && store.Rows() == Opened(db, queue, base, batch, None)
    {
      var active := store.ActiveCandidate(queue);
      if active.Some? {
        return active;
      }
      var batch := store.SelectBatch(queue, config.maxBatch);
      if batch == [] {
        return None;
      }
      SelectedMayOpen(store.Rows(), queue, config.maxBatch);
      var id := store.OpenCandidate(queue, base, batch, None);
      r := Some(id.value);
    }

    method WorkOn(c: CandidateId, base: Sha, config: Config, day: Day) returns (r: TickOutcome)
      requires Referential(store.Rows()) && c < |store.candidates| && queue.base in git.refs
               && git.refs[queue.base] == base
      requires day.trouble != Some(AtPrune)
      modifies this, store`entries, store`candidates, store`runs, git
      ensures Referential(store.Rows())
      ensures var db := old(store.Rows());
              var a := AnswersTo(ShasAt(db.entries, Ids(db.candidates[c])), base, day, old(git.minted));
              && (store.Rows(), r) == WorkUnder(db, queue, c, base, config, a, day.trouble)
              && store.runs == old(store.runs) + Ran(db, c, base, config, a, day.trouble)
      ensures RefsFollow(old(git.refs), day, git.refs, r)
      ensures Calls(old(told), old(missed), ToldBy(config, store.Rows(), r), told, missed)
    {
      var row := store.candidates[c];
      if row.base != base {
        r := Discard(c, BaseMoved);
        return;
      }
      var assembled := Assemble(base, ShasAt(store.entries, Ids(row)), day.trouble);
      match assembled {
        case Broke =>
          r := TickOutcome.Failed(GAVE_OUT);
        case Conflicts(at) =>
          r := Blame(c, Ids(row)[at], config, CONFLICTS);
        case Candidate(tip) =>
          var marked := store.MarkTesting(c, tip);
          MarkedKeepsMembers(old(store.Rows()), c, tip);
          r := Gate(c, base, tip, config, day);
      }
    }

    /** Gate the assembled commit, record the run and act on the verdict; someone may push meanwhile. */
    method Gate(c: CandidateId, base: Sha, tip: Sha, config: Config, day: Day) returns (r: TickOutcome)
      requires Referential(store.Rows()) && c < |store.candidates| && store.candidates[c].commit.Some?
      requires queue.base in git.refs && git.refs[queue.base] == base
      modifies this, store`entries, store`candidates, store`runs, git`refs
      ensures Referential(store.Rows())
      ensures day.trouble == Some(AtGate) || (day.trouble == Some(AtFastForward) && day.passed) ==>
                r == TickOutcome.Failed(GAVE_OUT) && store.Rows() == old(store.Rows())
      ensures !(day.trouble == Some(AtGate) || (day.trouble == Some(AtFastForward) && day.passed)) ==>
                forall a: Answers :: AnsweredBy(a, tip, base, day) ==>
                  (store.Rows(), r) == Advancing.Judge(old(store.Rows()), queue, c, config, a)
      ensures store.runs == old(store.runs)
                + if day.trouble == Some(AtGate) then [] else [GateRun(c, config.gate, day.passed)]
      ensures RefsFollow(old(git.refs), day, git.refs, r)
      ensures Calls(old(told), old(missed), ToldBy(config, store.Rows(), r), told, missed)
    {
      if day.push.Some? {
        git.ForceBranch(queue.base, day.push.value);
      }
      if day.trouble == Some(AtGate) {
        return TickOutcome.Failed(GAVE_OUT);
      }
      store.RecordRun(c, config.gate, day.passed);
      if day.passed {
        if day.trouble == Some(AtFastForward) {
          return TickOutcome.Failed(GAVE_OUT);
        }
        r := Land(c, base, tip, config);
      } else if day.interrupted {
        r := Discard(c, Interrupted);
      } else {
        r := OnGateFailure(c, config);
      }
    }

    /**
     Check the base out and merge each entry in order onto it, up to the first that
     conflicts or the command that gives out.
     */
    method Assemble(base: Sha, shas: seq<Sha>, trouble: Option<Trouble>) returns (r: Assembly)
      modifies git`head, git`minted
      ensures var hit := FirstIn(shas, git.conflicting, 0);
              if trouble.Some? && trouble.value.AtAssembly? && trouble.value.command <= |shas|
                 && (hit.Some? ==> trouble.value.command <= hit.value + 1) then r == Broke
              else r == if hit.Some? then Conflicts(hit.value) else Candidate(TipOf(base, old(git.minted), |shas|))
      ensures r.Candidate? ==> git.head == Some(r.tip)
    {
      if trouble == Some(AtAssembly(0)) {
        return Broke;
      }
      git.CheckoutDetached(base);
      var tip := base;
      var i := 0;
      while i < |shas|
        invariant i <= |shas| && git.minted == old(git.minted) + i
        invariant tip == TipOf(base, old(git.minted), i) && git.head == Some(tip)
        invariant FirstIn(shas, git.conflicting, 0) == FirstIn(shas, git.conflicting, i)
        invariant trouble.Some? && trouble.value.AtAssembly? ==> trouble.value.command > i
      {
        if trouble == Some(AtAssembly(i + 1)) {
          return Broke;
        }
        var merged := git.Merge(shas[i]);
        match merged.value {
          case Merged(at) => tip := at;
          case Conflicted => return Conflicts(i);
        }
        i := i + 1;
      }
      r := Candidate(tip);
    }

    /** The base becomes the commit under test exactly if it is still the one the candidate was built on. */
    method Land(c: CandidateId, base: Sha, tip: Sha, config: Config) returns (r: TickOutcome)
      requires Referential(store.Rows()) && c < |store.candidates| && store.candidates[c].commit.Some?
               && queue.base in git.refs
      modifies this, store`entries, store`candidates, git`refs
      ensures Referential(store.Rows())
      ensures var db := old(store.Rows());
              if old(git.refs)[queue.base] == base then
                && store.Rows() == Tables.Landed(db, c) && r == TickOutcome.Landed(c, |db.candidates[c].members|, tip)
                && git.refs == old(git.refs)[queue.base := tip]
                && Calls(old(told), old(missed), ToldBy(config, store.Rows(), r), told, missed)
              else
                && (store.Rows(), r) == Advancing.Discard(db, c, BaseMoved) && git.refs == old(git.refs)
                && told == old(told) && missed == old(missed)
    {
      var update := git.FastForward(queue.base, base, tip);
      if update.value.Stale? {
        r := Discard(c, BaseMoved);
        return;
      }
      var landed := store.Land(c);
      Announce(landed.value, config);
      LandedStillTold(old(store.Rows()), c);
      r := TickOutcome.Landed(c, |landed.value|, tip);
    }

    /** Run the hook for each entry that settled, if one is configured, keeping what it failed to deliver. */
    method Announce(settled: seq<Settlement>, config: Config)
      modifies this
      ensures Calls(old(told), old(missed), HookCalls(config, settled), told, missed)
      ensures config.onSettle.None? ==> told == old(told) && missed == old(missed)
      ensures config.onSettle.Some? ==> told == old(told) + settled
    {
      if config.onSettle.None? {
        return;
      }
      for i := 0 to |settled|
        invariant told == old(told) + settled[..i]
        invariant missed == old(missed) + Undelivered(deaf, settled[..i])
      {
        assert settled[..i + 1][..i] == settled[..i];
        told := told + [settled[i]];
        if settled[i].entry in deaf {
          missed := missed + [settled[i]];
        }
      }
      assert settled[..|settled|] == settled;
    }

    method OnGateFailure(c: CandidateId, config: Config) returns (r: TickOutcome)
      requires Referential(store.Rows()) && c < |store.candidates|
      modifies this, store`entries, store`candidates
      ensures Referential(store.Rows())
      ensures (store.Rows(), r) == Advancing.OnGateFailure(old(store.Rows()), queue, c, config)
      ensures Calls(old(told), old(missed), ToldBy(config, store.Rows(), r), told, missed)
    {
      var ids, base := Ids(store.candidates[c]), store.candidates[c].base;
      match Bisection.Decide(ids) {
        case Ok(Culprit(e)) =>
          r := Blame(c, e, config, FAILED_ALONE);
        case Ok(Bisect(left, _)) =>
          var free := store.Abandon(c, CandidateState.Failed);
          LeftMayOpen(old(store.Rows()), store.Rows(), c, left);
          var next := store.OpenCandidate(queue, base, left, Some(c));
          r := Split(c, next.value, |left|);
        case Err(error) =>
          r := TickOutcome.Failed(error);
      }
    }

    method Blame(c: CandidateId, culprit: EntryId, config: Config, fault: string) returns (r: TickOutcome)
      requires Referential(store.Rows()) && culprit < |store.entries|
      modifies this, store`entries, store`candidates
      ensures Referential(store.Rows())
      ensures (store.Rows(), r) == Pin(old(store.Rows()), c, culprit, config, fault)
      ensures Calls(old(told), old(missed), ToldBy(config, store.Rows(), r), told, missed)
    {
      var blamed := store.Blame(c, culprit, config.maxAttempts, fault);
      var settled := blamed.value.1;
      Announce(if settled.Some? then [settled.value] else [], config);
      r := TickOutcome.Blamed(c, culprit, blamed.value.0.Evicted?, fault);
    }

    method Discard(c: CandidateId, why: Why) returns (r: TickOutcome)
      requires Referential(store.Rows())
      modifies store`entries, store`candidates
      ensures Referential(store.Rows())
      ensures (store.Rows(), r) == Advancing.Discard(old(store.Rows()), c, why)
    {
      var requeued := store.Abandon(c, Superseded);
      r := TickOutcome.Abandoned(c, why, requeued.value);
    }
  }

  lemma LandedStillTold(db: Db, c: CandidateId)
    requires Referential(db) && c < |db.candidates|
    ensures LandedSettlements(Tables.Landed(db, c), c) == LandedSettlements(db, c)
  {
    assert Ids(Tables.Landed(db, c).candidates[c]) == Ids(db.candidates[c]);
  }

  /** The commit that n merges onto the base come to. */
  function TipOf(base: Sha, minted: nat, n: nat): Sha {
    if n == 0 then base else FIRST_MINTED + minted + n
  }

  lemma SelectedMayOpen(db: Db, q: Queue, limit: nat)
    requires SelectBatch(db, q, limit) != []
    ensures MayOpen(db, SelectBatch(db, q, limit), None)
  {
    RankedDistinct(db.entries, Waiting(db, q));
    forall e | e in SelectBatch(db, q, limit) ensures e < |db.entries| { assert e in Waiting(db, q); }
  }

  lemma PickedAreKnown(db: Db, q: Queue, config: Config)
    requires Referential(db)
    ensures Known(db.entries, Picked(db, q, config))
  {
    var batch := SelectBatch(db, q, config.maxBatch);
    forall i | 0 <= i < |batch| ensures batch[i] < |db.entries| { assert batch[i] in Waiting(db, q); }
  }

  /** The candidate in hand holds what was picked, at the commits the rows named. */
  lemma WorkedOnIsPicked(db: Db, db': Db, c: CandidateId, q: Queue, base: Sha, config: Config, a: Answers,
                         trouble: Option<Trouble>)
    requires Referential(db) && Referential(db') && c < |db'.candidates| && trouble != Some(AtPrune)
    requires var active, batch := ActiveCandidate(db, q), SelectBatch(db, q, config.maxBatch);
             if active.Some? then c == active.value && db' == db
             else batch != [] && c == |db.candidates| && db' == Opened(db, q, base, batch, None)
    ensures Known(db.entries, Picked(db, q, config))
    ensures ShasAt(db'.entries, Ids(db'.candidates[c])) == ShasAt(db.entries, Picked(db, q, config))
    ensures AdvanceUnder(db, q, base, config, a, trouble) == WorkUnder(db', q, c, base, config, a, trouble)
    ensures RanIn(db, q, base, config, a, trouble) == Ran(db', c, base, config, a, trouble)
  {
    PickedAreKnown(db, q, config);
    assert Ids(db'.candidates[c]) == Picked(db, q, config);
  }

  /** Whoever advances has the lease. */
  lemma NotHeldByNow(db: Db, q: Queue, base: Sha, config: Config, a: Answers, trouble: Option<Trouble>)
    ensures !AdvanceUnder(db, q, base, config, a, trouble).1.AnotherWorkerHolds?
  {
    var active := ActiveCandidate(db, q);
    if active.Some? { WorkNotHeld(db, q, active.value, base, config, a); }
    else {
      WorkNotHeld(Opened(db, q, base, SelectBatch(db, q, config.maxBatch), None), q, |db.candidates|, base, config, a);
    }
  }

  lemma WorkNotHeld(db: Db, q: Queue, c: CandidateId, base: Sha, config: Config, a: Answers)
    requires c < |db.candidates|
    ensures !Work(db, q, c, base, config, a).1.AnotherWorkerHolds?
  {
  }

  lemma MarkedKeepsMembers(db: Db, c: CandidateId, commit: Sha)
    requires Referential(db) && c < |db.candidates|
    ensures Referential(UnderTest(db, c, commit))
            && Ids(UnderTest(db, c, commit).candidates[c]) == Ids(db.candidates[c])
  {
    SameMembers(db, UnderTest(db, c, commit), c);
  }

  lemma LeftMayOpen(db: Db, db': Db, c: CandidateId, left: seq<EntryId>)
    requires Referential(db) && c < |db.candidates| == |db'.candidates| && |db'.entries| == |db.entries|
    requires left != [] && left <= Ids(db.candidates[c])
    ensures MayOpen(db', left, Some(c))
  {
    var ids := Ids(db.candidates[c]);
    forall e | e in left ensures e < |db'.entries| {
      var i :| 0 <= i < |left| && left[i] == e;
      assert ids[i] == e;
    }
  }
}
