/** The store and the lease: each call one transaction over the tables. */
module Storage {
  import opened Vocabulary
  import opened States
  import opened Tables
  import Ranking
  import opened Protocol
  import TableInvariant

  /** What taking over from a holder cleared. */
  datatype Reclaim = Reclaim(previous: Pid, candidates: nat, entries: nat)

  datatype Acquisition = Acquired(lease: Lease, reclaimed: Option<Reclaim>) | Held(holder: Pid, expires: int)

  datatype Penalty = Evicted | Requeued

  /** What the schema enforces of every committed state: members exist, and none twice in a candidate. */
  ghost predicate Referential(db: Db) {
    forall c :: 0 <= c < |db.candidates| ==>
      Known(db.entries, Ids(db.candidates[c])) && Distinct(Ids(db.candidates[c]))
  }

  /** One attempt spent: out with this reason when it was the last, and otherwise waiting again. */
  predicate Pays(row: EntryRow, row': EntryRow, maxAttempts: nat, reason: string) {
    && row'.attempts == row.attempts + 1
    && (row'.state, row'.reason)
       == (if row'.attempts >= maxAttempts then (EntryState.Evicted, Some(reason)) else (Queued, row.reason))
    && row' == row.(attempts := row'.attempts, state := row'.state, reason := row'.reason)
  }

  /** Applied to a waiting entry of this queue, refused for one that is past waiting, and unknown otherwise. */
  predicate AnswersFor(es: seq<EntryRow>, q: Queue, e: EntryId, r: Amendment) {
    && (r.Applied? <==> e < |es| && es[e].queue == q && es[e].state == Queued)
    && (r.NotWaiting? <==> e < |es| && es[e].queue == q && es[e].state != Queued)
    && (r.NotWaiting? ==> r.state == es[e].state)
  }

  /** One more than the highest priority there is among what waits. */
  ghost predicate OneAboveAll(es: seq<EntryRow>, q: Queue, priority: int) {
    && (forall i :: 0 <= i < |es| && es[i].queue == q && es[i].state == Queued ==> es[i].priority < priority)
    && exists i :: 0 <= i < |es| && es[i].queue == q && es[i].state == Queued && es[i].priority == priority - 1
  }

  /** The index refuses a row exactly when it would be broken by it. */
  lemma TakenOrDistinct(es: seq<EntryRow>, q: Queue, branch: string, sha: Sha)
    ensures TableInvariant.DistinctLiveIdentities(es) ==>
              (LiveIdentityTaken(es, q, branch, sha) <==>
               !TableInvariant.DistinctLiveIdentities(es + [EntryRow(q, branch, sha, Queued, 0, 0, None)]))
  {
    var more := es + [EntryRow(q, branch, sha, Queued, 0, 0, None)];
    if i :| 0 <= i < |es| && es[i].queue == q && es[i].branch == branch && es[i].sha == sha && es[i].state.IsLive() {
      assert more[i] == es[i] && more[|es|].state.IsLive();
    }
  }

  class Store {
    var entries: seq<EntryRow>
    var candidates: seq<CandidateRow>
    var leases: map<Queue, LeaseRow>
    var runs: seq<GateRun>

    constructor ()
      ensures Rows() == Db([], []) && leases == map[] && runs == []
    {
      entries, candidates, leases, runs := [], [], map[], [];
    }

    function Rows(): Db
      reads this
    {
      Db(entries, candidates)
    }

    // ----- queueing

    /** The index over live identities refuses a second live entry for the same commit. */
    method Enqueue(q: Queue, branch: string, sha: Sha) returns (r: Result<EntryId, string>)
      modifies this`entries
      ensures Rows() == Enqueued(old(Rows()), q, branch, sha)
      ensures r.Err? <==> LiveIdentityTaken(old(entries), q, branch, sha)
      ensures r.Ok? ==> r.value == |old(entries)|
      ensures var more := old(entries) + [EntryRow(q, branch, sha, Queued, 0, 0, None)];
              && entries == (if r.Ok? then more else old(entries))
              && (TableInvariant.DistinctLiveIdentities(old(entries)) ==>
                    (r.Err? <==> !TableInvariant.DistinctLiveIdentities(more)))
    {
      TakenOrDistinct(entries, q, branch, sha);
      if LiveIdentityTaken(entries, q, branch, sha) {
        return Err("queueing " + branch);
      }
      entries := entries + [EntryRow(q, branch, sha, Queued, 0, 0, None)];
      r := Ok(|entries| - 1);
    }

    method SelectBatch(q: Queue, limit: nat) returns (batch: seq<EntryId>)
      ensures batch == Ranking.SelectBatch(Rows(), q, limit)
    {
      var all := Ranking.Waiting(Rows(), q);
      var queued := if limit < |all| then all[..limit] else all;
      if queued == [] {
        return [];
      }
      if entries[queued[0]].attempts > 0 {
        return [queued[0]];
      }
      batch := TakeWhileFresh(queued);
    }

    method TakeWhileFresh(queued: seq<EntryId>) returns (batch: seq<EntryId>)
      requires Known(entries, queued)
      ensures batch == Ranking.FreshRun(entries, queued)
    {
      var n := 0;
      while n < |queued| && entries[queued[n]].attempts == 0
        invariant n <= |queued|
        invariant forall i :: 0 <= i < n ==> entries[queued[i]].attempts == 0
      {
        n := n + 1;
      }
      FreshRunIs(entries, queued, n);
      batch := queued[..n];
    }

    method Dequeue(q: Queue, e: EntryId) returns (r: Amendment)
      modifies this`entries
      ensures Rows() == Dequeued(old(Rows()), q, e)
      ensures r == Amend(old(Rows()), q, e)
      ensures AnswersFor(old(entries), q, e, r)
      ensures entries == if r.Applied?
                         then old(entries)[e := old(entries)[e].(state := EntryState.Evicted,
                                                                 reason := Some("removed by hand"))]
                         else old(entries)
    {
      if e >= |entries| || entries[e].queue != q {
        return Unknown;
      }
      if !entries[e].state.Queued? {
        return NotWaiting(entries[e].state);
      }
      entries := entries[e := entries[e].(state := EntryState.Evicted, reason := Some(REMOVED_BY_HAND))];
      r := Applied;
    }

    method Promote(q: Queue, e: EntryId) returns (r: Amendment)
      modifies this`entries
      ensures Rows() == Promoted(old(Rows()), q, e)
      ensures r == Amend(old(Rows()), q, e)
      ensures AnswersFor(old(entries), q, e, r)
      ensures !r.Applied? ==> entries == old(entries)
      ensures r.Applied? ==>
                && |entries| == |old(entries)| && OneAboveAll(old(entries), q, entries[e].priority)
                && entries == old(entries)[e := old(entries)[e].(priority := entries[e].priority)]
    {
      MaxPriorityIsMax(entries, q);
      if e >= |entries| || entries[e].queue != q {
        return Unknown;
      }
      if !entries[e].state.Queued? {
        return NotWaiting(entries[e].state);
      }
      entries := entries[e := entries[e].(priority := TopPriority(entries, q) + 1)];
      r := Applied;
    }

    // ----- candidates

    /** Inserts one joining row per entry; a repeated or missing entry rolls the whole transaction back. */
    method OpenCandidate(q: Queue, base: Sha, batch: seq<EntryId>, parent: Option<CandidateId>)
      returns (r: Result<CandidateId, string>)
      requires Referential(Rows())
      modifies this`entries, this`candidates
      ensures Referential(Rows())
      ensures r.Ok? <==> MayOpen(old(Rows()), batch, parent)
      ensures r.Ok? ==> r.value == |old(candidates)| && Rows() == Opened(old(Rows()), q, base, batch, parent)
      ensures r.Err? ==> Rows() == old(Rows())
      ensures r.Ok? ==> entries == SetStates(old(entries), batch, false, Batched)
      ensures r.Ok? ==> |candidates| == |old(candidates)| + 1 && candidates[..r.value] == old(candidates)
      ensures r.Ok? ==> var row := candidates[r.value];
                        && row == CandidateRow(q, base, None, Building, parent, row.members)
                        && |row.members| == |batch|
                        && forall i :: 0 <= i < |batch| ==> row.members[i] == Member(batch[i], Pending)
    {
      if batch == [] {
        return Err("refusing to open a candidate over no entries");
      }
      if parent.Some? && parent.value >= |candidates| {
        return Err("no such parent");
      }
      var before := entries;
      var members := InsertMembers(batch);
      if members.None? {
        entries := before;
        assert forall i :: 0 <= i < |batch| ==> batch[i] in batch;
        return Err("constraint failed");
      }
      candidates := candidates + [CandidateRow(q, base, None, Building, parent, members.value)];
      r := Ok(|candidates| - 1);
      assert Ids(candidates[|candidates| - 1]) == batch;
      assert Known(entries, batch);
    }

    method InsertMembers(batch: seq<EntryId>) returns (r: Option<seq<Member>>)
      modifies this`entries
      ensures r.Some? <==> Distinct(batch) && Known(old(entries), batch)
      ensures r.Some? ==> r.value == Fresh(batch) && entries == SetStates(old(entries), batch, false, Batched)
    {
      var members: seq<Member> := [];
      var position := 0;
      while position < |batch|
        invariant position <= |batch|
        invariant members == Fresh(batch[..position])
        invariant entries == SetStates(old(entries), batch[..position], false, Batched)
        invariant Distinct(batch[..position]) && Known(old(entries), batch[..position])
      {
        var e := batch[position];
        FreshSnoc(batch[..position], e);
        if e >= |entries| || Member(e, Pending) in members {
          return None;
        }
        assert batch[..position + 1] == batch[..position] + [e];
        SetOneMore(old(entries), batch[..position], e, false, Batched);
        members := members + [Member(e, Pending)];
        entries := entries[e := entries[e].(state := Batched)];
        position := position + 1;
      }
      assert batch[..position] == batch;
      r := Some(members);
    }

    method ActiveCandidate(q: Queue) returns (r: Option<CandidateId>)
      ensures r == Tables.ActiveCandidate(Rows(), q)
    {
      var c := 0;
      while c < |candidates| && !(candidates[c].queue == q && candidates[c].state.IsActive())
        invariant c <= |candidates|
        invariant ActiveFrom(candidates, q, 0) == ActiveFrom(candidates, q, c)
      {
        c := c + 1;
      }
      r := if c < |candidates| then Some(c) else None;
    }

    method MarkTesting(c: CandidateId, commit: Sha) returns (r: Result<(), string>)
      modifies this`candidates
      ensures Rows() == UnderTest(old(Rows()), c, commit)
      ensures r.Err? <==> c >= |old(candidates)|
    {
      if c >= |candidates| {
        return Err("no such candidate to move to testing");
      }
      candidates := candidates[c := candidates[c].(state := Testing, commit := Some(commit))];
      r := Ok(());
    }

    method RecordRun(c: CandidateId, command: string, passed: bool)
      modifies this`runs
      ensures runs == old(runs) + [GateRun(c, command, passed)]
    {
      runs := runs + [GateRun(c, command, passed)];
    }

    /** Only a candidate that names its commit may pass. */
    method Land(c: CandidateId) returns (r: Result<seq<Settlement>, string>)
      requires Referential(Rows())
      modifies this`entries, this`candidates
      ensures Referential(Rows())
      ensures r.Err? <==> c < |old(candidates)| && old(candidates)[c].commit.None?
      ensures r.Err? ==> Rows() == old(Rows())
      ensures r.Ok? ==> Rows() == Landed(old(Rows()), c) && r.value == LandedSettlements(old(Rows()), c)
    {
      if c >= |candidates| {
        return Ok([]);
      }
      var row := candidates[c];
      if row.commit.None? {
        return Err("constraint failed");
      }
      ghost var was := Rows();
      var cleared := row.(members := Outcomes(row.members, _ => Cleared));
      assert Ids(cleared) == Ids(row);
      entries := SetStates(entries, Ids(cleared), false, EntryState.Merged);
      candidates := candidates[c := cleared.(state := Passed)];
      var landed: seq<Settlement> := [];
      for i := 0 to |row.members|
        invariant entries == Landed(was, c).entries && candidates == Landed(was, c).candidates
        invariant landed == LandedSettlements(was, c)[..i]
      {
        var e := row.members[i].entry;
        landed := landed + [Settlement(row.queue, e, EntryState.Merged, entries[e].attempts, None)];
      }
      SameMembers(was, Rows(), c);
      r := Ok(landed);
    }

    method Abandon(c: CandidateId, to: CandidateState) returns (r: Result<nat, string>)
      requires Referential(Rows())
      modifies this`entries, this`candidates
      ensures Referential(Rows())
      ensures r.Ok? <==> to.Superseded? || to.Failed?
      ensures r.Err? ==> Rows() == old(Rows())
      ensures r.Ok? ==> Rows() == Abandoned(old(Rows()), c, to)
      ensures r.Ok? ==> r.value == PutBack(old(Rows()), c) == |WentBack(old(entries), entries)|
    {
      if !(to.Superseded? || to.Failed?) {
        return Err("not a way to abandon a candidate");
      }
      if c >= |candidates| {
        assert WentBack(entries, entries) == {};
        return Ok(0);
      }
      ghost var was := Rows();
      var requeued := Requeue(Ids(candidates[c]));
      candidates := candidates[c := candidates[c].(state := to)];
      SameMembers(was, Rows(), c);
      BackIs(was.entries, Ids(was.candidates[c]));
      r := Ok(requeued);
    }

    /** Put the batched ones among these back, counting them. */
    method Requeue(ids: seq<EntryId>) returns (requeued: nat)
      requires Known(entries, ids) && Distinct(ids)
      modifies this`entries
      ensures entries == SetStates(old(entries), ids, true, Queued)
      ensures requeued == |BatchedAmong(old(entries), ids)|
    {
      requeued := 0;
      ghost var was := entries;
      for i := 0 to |ids|
        invariant entries == SetStates(was, ids[..i], true, Queued)
        invariant requeued == |BatchedAmong(was, ids[..i])|
      {
        var e := ids[i];
        OneMoreBack(was, ids, i);
        if entries[e].state.Batched? {
          entries := entries[e := entries[e].(state := Queued)];
          requeued := requeued + 1;
        }
      }
      assert ids[..|ids|] == ids;
    }

    method Blame(c: CandidateId, culprit: EntryId, maxAttempts: nat, reason: string)
      returns (r: Result<(Penalty, Option<Settlement>), string>)
      requires Referential(Rows())
      modifies this`entries, this`candidates
      ensures Referential(Rows())
      ensures Rows() == Blamed(old(Rows()), c, culprit, maxAttempts, reason)
      ensures r.Err? <==> culprit >= |old(entries)|
      ensures r.Ok? ==>
                |entries| == |old(entries)| && Pays(old(entries)[culprit], entries[culprit], maxAttempts, reason)
      ensures r.Ok? ==> (r.value.0.Evicted? <==> Evicts(old(Rows()), culprit, maxAttempts))
      ensures r.Ok? ==>
                (var out := BlameSettlements(old(Rows()), old(entries)[culprit].queue, culprit, maxAttempts, reason);
                 out == if r.value.1.Some? then [r.value.1.value] else [])
    {
      if culprit >= |entries| {
        return Err("no such entry");
      }
      var verdict, spent := Charge(culprit, maxAttempts, reason);
      if c < |candidates| {
        var row := candidates[c];
        ChargedIsSettled(old(Rows()), Ids(row), culprit, maxAttempts, reason);
        entries := SetStates(entries, Ids(row), true, Queued);
        var told := Outcomes(row.members, e => if e == culprit then Culprit else Skipped);
        candidates := candidates[c := row.(state := CandidateState.Failed, members := told)];
        assert Ids(candidates[c]) == Ids(row);
        SameMembers(old(Rows()), Rows(), c);
      }
      var settled := if verdict.Evicted?
        then Some(Settlement(entries[culprit].queue, culprit, EntryState.Evicted, spent, Some(reason))) else None;
      r := Ok((verdict, settled));
    }

    method Charge(culprit: EntryId, maxAttempts: nat, reason: string) returns (verdict: Penalty, spent: nat)
      requires culprit < |entries|
      modifies this`entries
      ensures entries == old(entries)[culprit := Charged(old(Rows()), culprit, maxAttempts, reason)]
      ensures spent == old(entries)[culprit].attempts + 1 && (verdict.Evicted? <==> spent >= maxAttempts)
    {
      spent := entries[culprit].attempts + 1;
      verdict := if spent >= maxAttempts then Penalty.Evicted else Requeued;
      if verdict.Evicted? {
        entries := entries[culprit := entries[culprit].(state := EntryState.Evicted, attempts := spent,
                                                        reason := Some(reason))];
      } else {
        entries := entries[culprit := entries[culprit].(state := Queued, attempts := spent)];
      }
    }

    // ----- the lease

    /** `now` may be an old reading; `gone` is the liveness answer about the recorded holder. */
    method Acquire(q: Queue, pid: Pid, now: int, ttl: nat, gone: bool, token: Token) returns (r: Acquisition)
      requires Referential(Rows())
      modifies this`entries, this`candidates, this`leases
      ensures Referential(Rows())
      ensures r.Held? <==> Protocol.Held(old(leases), q, now, gone)
      ensures r.Held? ==>
                && r == Held(old(leases)[q].holder, old(leases)[q].expires)
                && Rows() == old(Rows()) && leases == old(leases)
      ensures r.Acquired? ==>
                && r.lease == Lease(token, now + ttl)
                && leases == Taken(old(leases), q, LeaseRow(pid, token, now + ttl))
                && Rows() == TakenOver(old(Rows()), old(leases), q)
                && r.reclaimed == (if q in old(leases)
                                   then Some(Reclaim(old(leases)[q].holder, |GivenUp(old(candidates), candidates)|,
                                                     |WentBack(old(entries), entries)|)) else None)
    {
      var expires := now + ttl;
      var reclaimed := None;
      if q in leases {
        if leases[q].expires > now && !gone {
          return Held(leases[q].holder, leases[q].expires);
        }
        var superseded, requeued := SupersedeOrphans(q);
        reclaimed := Some(Reclaim(leases[q].holder, superseded, requeued));
        leases := leases - {q};
      }
      leases := leases[q := LeaseRow(pid, token, expires)];
      r := Acquired(Lease(token, expires), reclaimed);
    }

    /** The order matters: once the candidates are superseded, no entry would count as orphaned. */
    method SupersedeOrphans(q: Queue) returns (superseded: nat, requeued: nat)
      requires Referential(Rows())
      modifies this`entries, this`candidates
      ensures Referential(Rows()) && Rows() == Reclaimed(old(Rows()), q)
      ensures superseded == |Unfinished(old(Rows()), q)| && requeued == |Orphans(old(Rows()), q)|
      ensures requeued == |WentBack(old(entries), entries)| && superseded == |GivenUp(old(candidates), candidates)|
    {
      ghost var was := Rows();
      requeued := RequeueOrphans(q);
      OrphansAreReclaimed(was, q);
      superseded := SupersedeActive(was, q);
      assert Rows() == Reclaimed(was, q);
      CountsAreOfMoves(was, q);
      assert forall d :: 0 <= d < |candidates| ==> Ids(candidates[d]) == Ids(was.candidates[d]);
    }

    method RequeueOrphans(q: Queue) returns (requeued: nat)
      modifies this`entries
      ensures entries == SetThese(old(entries), Orphans(old(Rows()), q), Queued)
              && requeued == |Orphans(old(Rows()), q)|
    {
      ghost var was, orphans := Rows(), Orphans(Rows(), q);
      ghost var seen: set<EntryId> := {};
      requeued := 0;
      var e := 0;
      while e < |entries|
        invariant e <= |entries| == |was.entries|
        invariant entries == SetThese(was.entries, seen, Queued)
        invariant requeued == |seen| && seen == UpTo(orphans, e)
      {
        OrphanOrNot(was, entries, q, e);
        OneMoreUpTo(orphans, e);
        if entries[e].state.Batched? && Orphaned(Rows(), q, e) {
          SetOneOfThese(was.entries, seen, e, Queued);
          entries := entries[e := entries[e].(state := Queued)];
          requeued := requeued + 1;
          seen := seen + {e};
        }
        e := e + 1;
      }
      assert seen == orphans;
    }

    method SupersedeActive(ghost was: Db, q: Queue) returns (superseded: nat)
      requires candidates == was.candidates
      modifies this`candidates
      ensures candidates == Reclaimed(was, q).candidates && superseded == |Unfinished(was, q)|
    {
      ghost var seen: set<CandidateId> := {};
      superseded := 0;
      var c := 0;
      while c < |candidates|
        invariant c <= |candidates| == |was.candidates|
        invariant forall d :: 0 <= d < c ==> candidates[d] == Reclaimed(was, q).candidates[d]
        invariant forall d :: c <= d < |candidates| ==> candidates[d] == was.candidates[d]
        invariant superseded == |seen| && seen == UpTo(Unfinished(was, q), c)
      {
        OneMoreUpTo(Unfinished(was, q), c);
        if candidates[c].queue == q && candidates[c].state.IsActive() {
          candidates := candidates[c := candidates[c].(state := Superseded)];
          superseded := superseded + 1;
          seen := seen + {c};
        }
        c := c + 1;
      }
      assert seen == Unfinished(was, q);
    }

    method Renew(q: Queue, lease: Lease, now: int, ttl: nat) returns (r: Result<Lease, string>)
      modifies this`leases
      ensures r.Ok? <==> Ours(old(leases), q, lease.token)
      ensures r.Ok? ==> r.value == lease.(expires := now + ttl)
      ensures leases == Extended(old(leases), q, lease.token, now + ttl)
      ensures r.Ok? <==> q in old(leases) && old(leases)[q].token == lease.token
      ensures leases == if r.Ok? then old(leases)[q := old(leases)[q].(expires := now + ttl)] else old(leases)
    {
      if !(q in leases && leases[q].token == lease.token) {
        return Err("the lease is no longer ours; it was reclaimed while we held it");
      }
      leases := leases[q := leases[q].(expires := now + ttl)];
      r := Ok(lease.(expires := now + ttl));
    }

    method Release(q: Queue, lease: Lease) returns (ours: bool)
      modifies this`leases
      ensures ours <==> Ours(old(leases), q, lease.token)
      ensures leases == GivenBack(old(leases), q, lease.token)
      ensures ours <==> q in old(leases) && old(leases)[q].token == lease.token
      ensures leases == if ours then old(leases) - {q} else old(leases)
    {
      ours := q in leases && leases[q].token == lease.token;
      if ours {
        leases := leases - {q};
      }
    }
  }

  lemma {:induction false} FreshRunIs(es: seq<EntryRow>, ids: seq<EntryId>, n: nat)
    requires Known(es, ids) && n <= |ids| && (n < |ids| ==> es[ids[n]].attempts > 0)
    requires forall i :: 0 <= i < n ==> es[ids[i]].attempts == 0
    ensures Ranking.FreshRun(es, ids) == ids[..n]
  {
    if n > 0 {
      FreshRunIs(es, ids[1..], n - 1);
      assert ids[..n] == [ids[0]] + ids[1..][..n - 1];
    }
  }

  lemma NextId(ids: seq<EntryId>, i: nat)
    requires Distinct(ids) && i < |ids|
    ensures ids[..i + 1] == ids[..i] + [ids[i]] && ids[i] !in ids[..i]
  {
  }

  lemma SetOneMore(es: seq<EntryRow>, ids: seq<EntryId>, e: EntryId, onlyBatched: bool, to: EntryState)
    requires e < |es| && e !in ids
    ensures var one, more := SetStates(es, ids, onlyBatched, to), SetStates(es, ids + [e], onlyBatched, to);
            && one[e] == es[e]
            && more == if onlyBatched ==> es[e].state.Batched? then one[e := es[e].(state := to)] else one
  {
  }

  /** The rows with these in this state. */
  ghost function SetThese(es: seq<EntryRow>, these: set<EntryId>, to: EntryState): (r: seq<EntryRow>)
    ensures |r| == |es|
    ensures forall e :: 0 <= e < |es| ==> r[e] == if e in these then es[e].(state := to) else es[e]
  {
    seq(|es|, e requires 0 <= e < |es| => if e in these then es[e].(state := to) else es[e])
  }

  lemma SetOneOfThese(es: seq<EntryRow>, these: set<EntryId>, e: EntryId, to: EntryState)
    requires e < |es| && e !in these
    ensures SetThese(es, these, to)[e] == es[e]
    ensures SetThese(es, these + {e}, to) == SetThese(es, these, to)[e := es[e].(state := to)]
  {
  }

  ghost function UpTo(these: set<nat>, n: nat): set<nat> {
    set d | d in these && d < n
  }

  lemma OneMoreUpTo(these: set<nat>, n: nat)
    ensures UpTo(these, n + 1) == (if n in these then UpTo(these, n) + {n} else UpTo(these, n)) && n !in UpTo(these, n)
  {
  }

  /** Whether an entry is an orphan does not depend on what has been put back already. */
  lemma OrphanOrNot(db: Db, es: seq<EntryRow>, q: Queue, e: EntryId)
    requires e < |es| == |db.entries| && es[e] == db.entries[e]
    ensures e in Orphans(db, q) <==> es[e].state.Batched? && Orphaned(Db(es, db.candidates), q, e)
  {
    assert Orphaned(Db(es, db.candidates), q, e) <==> Orphaned(db, q, e);
  }

  lemma OrphansAreReclaimed(db: Db, q: Queue)
    ensures SetThese(db.entries, Orphans(db, q), Queued) == Reclaimed(db, q).entries
  {
  }

  /** The candidates that were unfinished and have been superseded. */
  ghost function GivenUp(cs: seq<CandidateRow>, cs': seq<CandidateRow>): set<CandidateId> {
    set c | 0 <= c < |cs| == |cs'| && cs[c].state.IsActive() && cs'[c].state.Superseded?
  }

  lemma CountsAreOfMoves(db: Db, q: Queue)
    ensures WentBack(db.entries, Reclaimed(db, q).entries) == Orphans(db, q)
    ensures GivenUp(db.candidates, Reclaimed(db, q).candidates) == Unfinished(db, q)
  {
  }

  lemma OneMoreBack(es: seq<EntryRow>, ids: seq<EntryId>, i: nat)
    requires Known(es, ids) && Distinct(ids) && i < |ids|
    ensures var e, sofar, more := ids[i], SetStates(es, ids[..i], true, Queued),
            SetStates(es, ids[..i + 1], true, Queued);
            && sofar[e] == es[e]
            && more == (if es[e].state.Batched? then sofar[e := es[e].(state := Queued)] else sofar)
    ensures |BatchedAmong(es, ids[..i + 1])| == |BatchedAmong(es, ids[..i])|
              + if es[ids[i]].state.Batched? then 1 else 0
  {
    NextId(ids, i);
    SetOneMore(es, ids[..i], ids[i], true, Queued);
    OneMoreBatched(es, ids[..i], ids[i]);
  }

  /** The entries that were in a batch and wait again. */
  ghost function WentBack(es: seq<EntryRow>, es': seq<EntryRow>): set<EntryId> {
    set e | 0 <= e < |es| == |es'| && es[e].state.Batched? && es'[e].state.Queued?
  }

  lemma BackIs(es: seq<EntryRow>, ids: seq<EntryId>)
    ensures WentBack(es, SetStates(es, ids, true, Queued)) == BatchedAmong(es, ids)
  {
  }

  lemma OneMoreBatched(es: seq<EntryRow>, ids: seq<EntryId>, e: EntryId)
    requires e < |es| && e !in ids
    ensures |BatchedAmong(es, ids + [e])| == |BatchedAmong(es, ids)| + if es[e].state.Batched? then 1 else 0
  {
    assert BatchedAmong(es, ids + [e]) == BatchedAmong(es, ids) + if es[e].state.Batched? then {e} else {};
  }

  lemma FreshSnoc(ids: seq<EntryId>, e: EntryId)
    ensures Fresh(ids + [e]) == Fresh(ids) + [Member(e, Pending)]
    ensures Member(e, Pending) in Fresh(ids) <==> e in ids
  {
    assert forall i :: 0 <= i < |ids| ==> Fresh(ids)[i].entry == ids[i];
  }

  /** Every candidate has the entries it had. */
  lemma SameMembers(db: Db, db': Db, c: CandidateId)
    requires Referential(db) && c < |db.candidates| == |db'.candidates| && |db.entries| == |db'.entries|
    requires forall d :: 0 <= d < |db.candidates| && d != c ==> db'.candidates[d] == db.candidates[d]
    requires Ids(db'.candidates[c]) == Ids(db.candidates[c])
    ensures Referential(db')
  {
  }

  /** The culprit is out of the batch by the time the others are put back. */
  lemma ChargedIsSettled(db: Db, ids: seq<EntryId>, culprit: EntryId, maxAttempts: nat, reason: string)
    requires culprit < |db.entries|
    ensures var charged := Charged(db, culprit, maxAttempts, reason);
            SetStates(db.entries[culprit := charged], ids, true, Queued)
              == SetStates(db.entries, ids, true, Queued)[culprit := charged]
  {
  }
}
