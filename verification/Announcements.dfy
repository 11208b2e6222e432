/** What the hook of a queue is called for. */
module Announcements {
  import opened Vocabulary
  import opened States
  import opened Tables
  import opened TableInvariant
  import opened Protocol
  import opened BaseSafety
  import opened Discipline
  import Agreement

  // ----- one queue's share of a record

  ghost function Of(xs: seq<Settlement>, q: Queue): seq<Settlement> {
    if xs == [] then []
    else
      var n := |xs| - 1;
      if xs[n].queue == q then Of(xs[..n], q) + [xs[n]] else Of(xs[..n], q)
  }

  lemma {:induction false} OfAppend(xs: seq<Settlement>, ys: seq<Settlement>, q: Queue, r: Queue)
    requires forall i :: 0 <= i < |ys| ==> ys[i].queue == q
    ensures Of(xs + ys, r) == if r == q then Of(xs, r) + ys else Of(xs, r)
  {
    if ys == [] {
      assert xs + ys == xs;
    } else {
      var n := |ys| - 1;
      OfAppend(xs, ys[..n], q, r);
      assert (xs + ys)[..|xs + ys| - 1] == xs + ys[..n];
      assert ys[..n] + [ys[n]] == ys;
    }
  }

  // ----- every settlement is told, in order

  predicate Tells(w: World, p: Pid) {
    Ticks(w, p) && w.procs[p].phase.Announcing?
  }

  ghost predicate TellingOn(w: World, q: Queue) {
    exists p :: Tells(w, p) && w.procs[p].queue == q
  }

  ghost predicate PendingIsOf(pending: seq<Settlement>, q: Queue) {
    forall i :: 0 <= i < |pending| ==> pending[i].queue == q
  }

  /** What was told, and what the worker at it still has to tell, is what settled. */
  ghost predicate Told(w: World) {
    && (forall p :: Tells(w, p) ==>
          var q, pending := w.procs[p].queue, w.procs[p].phase.pending;
          PendingIsOf(pending, q) && Of(w.calls, q) + pending == Of(w.settled, q))
    && (forall q :: !TellingOn(w, q) ==> Of(w.calls, q) == Of(w.settled, q))
  }

  /** No worker dies while it is telling. */
  ghost predicate Unbroken(w: World, e: Event) {
    e.By? && e.act.Crash? ==> !Tells(w, e.pid)
  }

  ghost predicate UnbrokenRun(env: Env, w: World, events: seq<Event>) {
    events == [] ||
    (var n := |events| - 1;
     UnbrokenRun(env, w, events[..n]) && Unbroken(Run(env, w, events[..n]), events[n]))
  }

  ghost predicate Hooked(env: Env) {
    forall s :: env.configs(s).Some? ==> env.configs(s).value.onSettle.Some?
  }

  lemma StaysTold(w: World, w': World)
    requires Told(w) && w'.calls == w.calls && w'.settled == w.settled
    requires forall p :: Tells(w, p) <==> Tells(w', p)
    requires forall p :: Tells(w, p) && Tells(w', p) ==>
               w'.procs[p].queue == w.procs[p].queue && w'.procs[p].phase == w.procs[p].phase
    ensures Told(w')
  {
    forall q ensures TellingOn(w', q) <==> TellingOn(w, q) {
      if p :| Tells(w, p) && w.procs[p].queue == q { assert Tells(w', p); }
      if p :| Tells(w', p) && w'.procs[p].queue == q { assert Tells(w, p); }
    }
  }

  /** A worker settled entries of its queue and is about to tell them. */
  lemma SettleTold(w: World, w': World, p: Pid, q: Queue, out: seq<Settlement>)
    requires Told(w) && Alone(w) && Ticks(w, p) && w.procs[p].queue == q && !Tells(w, p) && PendingIsOf(out, q)
    requires w'.calls == w.calls && w'.settled == w.settled + out
    requires w'.procs == Goto(w, p, Announcing(out)).procs
    ensures Told(w')
  {
    assert !TellingOn(w, q);
    forall r ensures Of(w'.settled, r) == if r == q then Of(w.settled, r) + out else Of(w.settled, r) {
      OfAppend(w.settled, out, q, r);
    }
    assert Tells(w', p) && TellingOn(w', q);
    forall r | r != q { OthersStillTell(w, w', p, r); }
  }

  lemma OthersStillTell(w: World, w': World, p: Pid, r: Queue)
    requires Ticks(w, p) && Ticks(w', p) && w'.procs == w.procs[p := w'.procs[p]]
    requires w.procs[p].queue != r && w'.procs[p].queue != r
    ensures TellingOn(w', r) <==> TellingOn(w, r)
  {
    if o :| Tells(w, o) && w.procs[o].queue == r { assert Tells(w', o); }
    if o :| Tells(w', o) && w'.procs[o].queue == r { assert Tells(w, o); }
  }

  lemma FinishTold(w: World, p: Pid)
    requires Told(w) && Alone(w) && Tells(w, p) && w.procs[p].phase.pending == []
    ensures Told(Goto(w, p, Releasing))
  {
    var w', q := Goto(w, p, Releasing), w.procs[p].queue;
    assert !TellingOn(w', q);
    forall r | r != q { OthersStillTell(w, w', p, r); }
  }

  lemma OneMoreCall(calls: seq<Settlement>, x: Settlement)
    ensures Of(calls + [x], x.queue) == Of(calls, x.queue) + [x]
    ensures forall r :: r != x.queue ==> Of(calls + [x], r) == Of(calls, r)
  {
    forall r ensures Of(calls + [x], r) == if r == x.queue then Of(calls, r) + [x] else Of(calls, r) {
      OfAppend(calls, [x], x.queue, r);
    }
  }

  lemma SpeakTold(w: World, p: Pid)
    requires Told(w) && Alone(w) && Tells(w, p) && w.procs[p].phase.pending != []
    ensures Told(StepAnnounce(w, p))
  {
    var w', q, pending := StepAnnounce(w, p), w.procs[p].queue, w.procs[p].phase.pending;
    OneMoreCall(w.calls, pending[0]);
    assert [pending[0]] + pending[1..] == pending;
    assert Tells(w', p) && TellingOn(w', q);
    forall r | r != q { OthersStillTell(w, w', p, r); }
  }

  lemma AnnounceTold(w: World, p: Pid)
    requires Told(w) && Alone(w)
    ensures Told(StepAnnounce(w, p))
  {
    if Tells(w, p) {
      if w.procs[p].phase.pending == [] { FinishTold(w, p); } else { SpeakTold(w, p); }
    }
  }

  lemma LandTold(env: Env, w: World, p: Pid)
    requires Sane(w) && SafeWorld(env, w) && Hooked(env) && Told(w)
    ensures Told(StepStoreLand(w, p))
  {
    if Ticks(w, p) && w.procs[p].phase.Moved? {
      var q, job := w.procs[p].queue, w.procs[p].phase.job;
      assert ProcSafe(env, w, p);
      var row := w.db.candidates[job.candidate];
      assert Sound(w.db.entries, row);
      assert Known(w.db.entries, Ids(row)) by { assert forall i :: 0 <= i < |Ids(row)| ==> Ids(row)[i] in Ids(row); }
      SettleTold(w, StepStoreLand(w, p), p, q, LandedSettlements(w.db, job.candidate));
    }
  }

  lemma BlameTold(env: Env, w: World, p: Pid)
    requires Sane(w) && SafeWorld(env, w) && Hooked(env) && Told(w)
    ensures Told(StepStoreBlame(w, p))
  {
    if Ticks(w, p) && w.procs[p].phase.Blaming? {
      var q, phase := w.procs[p].queue, w.procs[p].phase;
      assert ProcSafe(env, w, p);
      SettleTold(w, StepStoreBlame(w, p), p, q,
                 BlameSettlements(w.db, q, phase.culprit, phase.job.config.maxAttempts, phase.fault));
    }
  }

  lemma EdgeTold(env: Env, w: World, p: Pid, act: Action)
    requires Told(w) && Edges(act) && Unbroken(w, By(p, act))
    ensures Told(StepBy(env, w, p, act))
  {
    EdgeIsAtEdge(env, w, p, act);
    if Tells(w, p) { EdgeLeavesTelling(env, w, p, act); }
    StaysTold(w, StepBy(env, w, p, act));
  }

  /** Short of dying, a process at an edge of its tick keeps on telling if it was. */
  lemma EdgeLeavesTelling(env: Env, w: World, p: Pid, act: Action)
    requires Edges(act) && Unbroken(w, By(p, act)) && Tells(w, p)
    ensures Tells(StepBy(env, w, p, act), p)
  {
  }

  lemma QuietTold(env: Env, w: World, p: Pid, act: Action)
    requires Told(w) && Quiet(act)
    ensures Told(StepBy(env, w, p, act))
  {
    var w' := StepBy(env, w, p, act);
    QuietIsQuiet(env, w, p, act);
    WorkIsWithinTick(env, w, p, act);
    if Tells(w, p) { QuietIsNotTelling(env, w, p, act); }
    if w' != w { StaysTold(w, w'); }
  }

  lemma QuietIsNotTelling(env: Env, w: World, p: Pid, act: Action)
    requires Quiet(act) && Tells(w, p)
    ensures StepBy(env, w, p, act) == w
  {
  }

  /** A process that was not telling moved on to something that is not telling either. */
  lemma SilentTold(w: World, w': World, p: Pid)
    requires Told(w) && w'.calls == w.calls && w'.settled == w.settled
    requires Ticks(w, p) && Ticks(w', p) && !Tells(w, p) && !Tells(w', p) && w'.procs == w.procs[p := w'.procs[p]]
    ensures Told(w')
  {
    assert forall o :: Tells(w, o) <==> Tells(w', o);
    StaysTold(w, w');
  }

  lemma ChooseTold(w: World, p: Pid)
    requires Told(w)
    ensures Told(StepChoose(w, p))
  {
    if Ticks(w, p) && w.procs[p].phase.Based? { SilentTold(w, StepChoose(w, p), p); }
  }

  lemma AbandonTold(w: World, p: Pid)
    requires Told(w)
    ensures Told(StepStoreAbandon(w, p))
  {
    if Ticks(w, p) && w.procs[p].phase.Discarding? { SilentTold(w, StepStoreAbandon(w, p), p); }
  }

  lemma FastForwardTold(w: World, p: Pid)
    requires Told(w)
    ensures Told(StepFastForward(w, p))
  {
    if Ticks(w, p) && w.procs[p].phase.Judged? && w.procs[p].phase.passed && w.procs[p].phase.tips != [] {
      SilentTold(w, StepFastForward(w, p), p);
    }
  }

  lemma AroundTold(w: World, what: Happening)
    requires Told(w)
    ensures Told(StepAround(w, what))
  {
    StaysTold(w, StepAround(w, what));
  }

  lemma PlainTold(env: Env, w: World, p: Pid, act: Action)
    requires Told(w) && Unbroken(w, By(p, act)) && (Edges(act) || Quiet(act))
    ensures Told(StepBy(env, w, p, act))
  {
    if Edges(act) { EdgeTold(env, w, p, act); } else { QuietTold(env, w, p, act); }
  }

  lemma ByTold(env: Env, w: World, p: Pid, act: Action)
    requires Sane(w) && SafeWorld(env, w) && Hooked(env) && Told(w) && Unbroken(w, By(p, act))
    ensures Told(StepBy(env, w, p, act))
  {
    match act {
      case Choose => ChooseTold(w, p);
      case FastForward => FastForwardTold(w, p);
      case StoreLand => LandTold(env, w, p);
      case StoreAbandon => AbandonTold(w, p);
      case StoreBlame => BlameTold(env, w, p);
      case Announce => AnnounceTold(w, p);
      case _ => PlainTold(env, w, p, act);
    }
  }

  lemma StepTold(env: Env, w: World, e: Event)
    requires Sane(w) && SafeWorld(env, w) && Hooked(env) && Told(w) && Unbroken(w, e)
    ensures Told(Step(env, w, e))
  {
    match e {
      case Around(what) => AroundTold(w, what);
      case By(p, act) => ByTold(env, w, p, act);
    }
  }

  lemma {:induction false} RunTold(env: Env, w: World, events: seq<Event>)
    requires Initial(w) && DisciplinedRun(env, w, events) && Hooked(env) && UnbrokenRun(env, w, events)
    ensures Told(Run(env, w, events))
  {
    if events != [] {
      var n := |events| - 1;
      RunTold(env, w, events[..n]);
      RunFits(env, w, events[..n]);
      RunSafe(env, w, events[..n]);
      StepTold(env, Run(env, w, events[..n]), events[n]);
    }
  }

  // ----- what settled is what workers merged and evicted

  /** Merged, or evicted by a verdict rather than by hand. */
  predicate SettledByWorker(row: EntryRow) {
    row.state.Merged? || (row.state.Evicted? && row.reason != Some(REMOVED_BY_HAND))
  }

  /** The record says what the row says. */
  ghost predicate Describes(es: seq<EntryRow>, s: Settlement) {
    && s.entry < |es| && es[s.entry].queue == s.queue && es[s.entry].state == s.state
    && es[s.entry].attempts == s.attempts && SettledByWorker(es[s.entry])
    && (s.state.Evicted? ==> es[s.entry].reason == s.reason)
  }

  ghost predicate EntriesDistinct(xs: seq<Settlement>) {
    forall i, j :: 0 <= i < j < |xs| ==> xs[i].entry != xs[j].entry
  }

  ghost predicate Mentions(xs: seq<Settlement>, e: EntryId) {
    exists i :: 0 <= i < |xs| && xs[i].entry == e
  }

  ghost predicate Ledger(db: Db, settled: seq<Settlement>) {
    && EntriesDistinct(settled)
    && (forall i :: 0 <= i < |settled| ==> Describes(db.entries, settled[i]))
    && (forall e :: 0 <= e < |db.entries| && SettledByWorker(db.entries[e]) ==> Mentions(settled, e))
  }

  ghost predicate SettlesNone(db: Db, db': Db) {
    forall e :: 0 <= e < |db'.entries| && SettledByWorker(db'.entries[e]) ==>
      e < |db.entries| && SettledByWorker(db.entries[e])
  }

  lemma LedgerStays(db: Db, db': Db, settled: seq<Settlement>)
    requires Ledger(db, settled) && RowsEvolve(db, db') && SettlesNone(db, db')
    ensures Ledger(db', settled)
  {
  }

  /** New settlements describe rows that were live, and cover every row that settled. */
  lemma LedgerGrows(db: Db, db': Db, settled: seq<Settlement>, out: seq<Settlement>)
    requires Ledger(db, settled) && RowsEvolve(db, db') && EntriesDistinct(out)
    requires forall i :: 0 <= i < |out| ==>
               out[i].entry < |db.entries| && db.entries[out[i].entry].state.IsLive() && Describes(db'.entries, out[i])
    requires forall e :: 0 <= e < |db'.entries| && SettledByWorker(db'.entries[e]) ==>
               Mentions(out, e) || (e < |db.entries| && SettledByWorker(db.entries[e]))
    ensures Ledger(db', settled + out)
  {
    var all := settled + out;
    forall e | 0 <= e < |db'.entries| && SettledByWorker(db'.entries[e]) ensures Mentions(all, e) {
      if Mentions(out, e) {
        var i :| 0 <= i < |out| && out[i].entry == e;
        assert all[|settled| + i].entry == e;
      } else {
        var i :| 0 <= i < |settled| && settled[i].entry == e;
        assert all[i].entry == e;
      }
    }
    forall i, j | 0 <= i < j < |all| ensures all[i].entry != all[j].entry {
      if i < |settled| <= j {
        assert Describes(db.entries, settled[i]);
      }
    }
  }

  lemma LandLedger(db: Db, q: Queue, c: CandidateId, settled: seq<Settlement>)
    requires TableInv(db) && Ledger(db, settled) && ActiveIs(db, q, c) && db.candidates[c].state.Testing?
    ensures Ledger(Landed(db, c), settled + LandedSettlements(db, c))
  {
    var db', ids, out := Landed(db, c), Ids(db.candidates[c]), LandedSettlements(db, c);
    LandKeeps(db, q, c);
    assert Sound(db.entries, db.candidates[c]);
    forall i | 0 <= i < |ids|
      ensures ids[i] < |db.entries| && db.entries[ids[i]].state.Batched? && db.entries[ids[i]].queue == q
    {
      assert ids[i] in ids && Holds(db.candidates[c], ids[i]) && InFlight(db.candidates, ids[i]);
    }
    assert Known(db.entries, ids);
    forall e | 0 <= e < |db'.entries| && SettledByWorker(db'.entries[e])
      ensures Mentions(out, e) || SettledByWorker(db.entries[e])
    {
      if e in ids {
        var i :| 0 <= i < |ids| && ids[i] == e;
        assert out[i].entry == e;
      }
    }
    LedgerGrows(db, db', settled, out);
  }

  lemma BlameLedger(db: Db, q: Queue, c: CandidateId, culprit: EntryId, maxAttempts: nat, fault: string,
                    settled: seq<Settlement>)
    requires TableInv(db) && Ledger(db, settled) && ActiveIs(db, q, c) && Holds(db.candidates[c], culprit)
    requires fault in {CONFLICTS, FAILED_ALONE}
    ensures Ledger(Blamed(db, c, culprit, maxAttempts, fault),
                   settled + BlameSettlements(db, q, culprit, maxAttempts, fault))
  {
    var db', out := Blamed(db, c, culprit, maxAttempts, fault), BlameSettlements(db, q, culprit, maxAttempts, fault);
    BlameKeeps(db, q, c, culprit, maxAttempts, fault);
    assert Sound(db.entries, db.candidates[c]) && InFlight(db.candidates, culprit);
    assert REMOVED_BY_HAND[0] == 'r' && CONFLICTS[0] == 'c' && FAILED_ALONE[0] == 'f';
    assert out != [] ==> out[0].entry == culprit && Describes(db'.entries, out[0]);
    LedgerGrows(db, db', settled, out);
  }

  // ----- the ledger over whole runs

  predicate Settling(act: Action) {
    act.StoreLand? || act.StoreBlame?
  }

  lemma OpenSettlesNone(w: World, p: Pid)
    ensures SettlesNone(w.db, StepOpen(w, p).db)
  {
  }

  lemma MarkSettlesNone(w: World, p: Pid)
    ensures SettlesNone(w.db, StepMarkTesting(w, p).db)
  {
  }

  lemma RequeueingSettlesNone(env: Env, w: World, p: Pid, gone: bool, token: Token)
    ensures SettlesNone(w.db, StepStoreAbandon(w, p).db) && SettlesNone(w.db, StepAcquire(env, w, p, gone, token).db)
  {
  }

  lemma HandsSettleNone(w: World, what: Happening)
    ensures SettlesNone(w.db, StepAround(w, what).db)
  {
  }

  lemma SettlesByVerdictsOnly(env: Env, w: World, p: Pid, act: Action)
    requires !Settling(act)
    ensures SettlesNone(w.db, StepBy(env, w, p, act).db)
  {
    match act {
      case Open => OpenSettlesNone(w, p);
      case MarkTesting => MarkSettlesNone(w, p);
      case StoreAbandon => RequeueingSettlesNone(env, w, p, false, 0);
      case Acquire(gone, token) => RequeueingSettlesNone(env, w, p, gone, token);
      case _ => ReadsOnly(env, w, p, act);
    }
  }

  lemma MovingRecordsNone(w: World, p: Pid)
    ensures StepChoose(w, p).settled == w.settled && StepFastForward(w, p).settled == w.settled
    ensures StepStoreAbandon(w, p).settled == w.settled && StepAnnounce(w, p).settled == w.settled
  {
  }

  lemma RecordsByVerdictsOnly(env: Env, w: World, p: Pid, act: Action)
    requires !Settling(act)
    ensures StepBy(env, w, p, act).settled == w.settled
  {
    if Edges(act) { EdgeIsAtEdge(env, w, p, act); }
    else if Quiet(act) { QuietIsQuiet(env, w, p, act); }
    else { MovingRecordsNone(w, p); }
  }

  lemma LandStepLedger(env: Env, w: World, p: Pid)
    requires Sane(w) && Ledger(w.db, w.settled)
    ensures Ledger(StepStoreLand(w, p).db, StepStoreLand(w, p).settled)
  {
    if Ticks(w, p) && w.procs[p].phase.Moved? {
      LandLedger(w.db, w.procs[p].queue, w.procs[p].phase.job.candidate, w.settled);
    }
  }

  lemma BlameStepLedger(env: Env, w: World, p: Pid)
    requires Sane(w) && Ledger(w.db, w.settled)
    ensures Ledger(StepStoreBlame(w, p).db, StepStoreBlame(w, p).settled)
  {
    if Ticks(w, p) && w.procs[p].phase.Blaming? {
      var q, phase := w.procs[p].queue, w.procs[p].phase;
      BlameLedger(w.db, q, phase.job.candidate, phase.culprit, phase.job.config.maxAttempts, phase.fault, w.settled);
    }
  }

  lemma ByLedger(env: Env, w: World, p: Pid, act: Action)
    requires Sane(w) && Ledger(w.db, w.settled) && RowsEvolve(w.db, StepBy(env, w, p, act).db)
    ensures Ledger(StepBy(env, w, p, act).db, StepBy(env, w, p, act).settled)
  {
    if act.StoreLand? { LandStepLedger(env, w, p); }
    else if act.StoreBlame? { BlameStepLedger(env, w, p); }
    else {
      SettlesByVerdictsOnly(env, w, p, act);
      RecordsByVerdictsOnly(env, w, p, act);
      LedgerStays(w.db, StepBy(env, w, p, act).db, w.settled);
    }
  }

  lemma AroundLedger(w: World, what: Happening)
    requires Ledger(w.db, w.settled) && RowsEvolve(w.db, StepAround(w, what).db)
    ensures Ledger(StepAround(w, what).db, w.settled) && StepAround(w, what).settled == w.settled
  {
    HandsSettleNone(w, what);
    LedgerStays(w.db, StepAround(w, what).db, w.settled);
  }

  lemma StepLedger(env: Env, w: World, e: Event)
    requires Sane(w) && Ledger(w.db, w.settled) && RowsEvolve(w.db, Step(env, w, e).db)
    ensures Ledger(Step(env, w, e).db, Step(env, w, e).settled)
  {
    match e {
      case Around(what) => AroundLedger(w, what);
      case By(p, act) => ByLedger(env, w, p, act);
    }
  }

  lemma {:induction false} RunLedger(env: Env, w: World, events: seq<Event>)
    requires Initial(w) && DisciplinedRun(env, w, events)
    ensures Ledger(Run(env, w, events).db, Run(env, w, events).settled)
  {
    if events != [] {
      var n := |events| - 1;
      RunLedger(env, w, events[..n]);
      RunFits(env, w, events[..n]);
      StepFits(env, Run(env, w, events[..n]), events[n]);
      StepLedger(env, Run(env, w, events[..n]), events[n]);
    }
  }

  // ----- wherever workers die, no entry is announced twice

  ghost predicate Within(xs: seq<Settlement>, ys: seq<Settlement>) {
    forall i :: 0 <= i < |xs| ==> xs[i] in ys
  }

  ghost predicate Apart(xs: seq<Settlement>, ys: seq<Settlement>) {
    forall i, j :: 0 <= i < |xs| && 0 <= j < |ys| ==> xs[i].entry != ys[j].entry
  }

  /** What a worker is about to say was settled on its queue and never said. */
  ghost predicate Unsaid(w: World, p: Pid)
    requires Tells(w, p)
  {
    var q, pending := w.procs[p].queue, w.procs[p].phase.pending;
    PendingIsOf(pending, q) && Within(pending, w.settled) && EntriesDistinct(pending) && Apart(pending, w.calls)
  }

  ghost predicate Once(w: World) {
    && EntriesDistinct(w.calls) && Within(w.calls, w.settled)
    && forall p :: Tells(w, p) ==> Unsaid(w, p)
  }

  lemma StaysOnce(w: World, w': World)
    requires Once(w) && w'.calls == w.calls && w'.settled == w.settled
    requires forall p :: Tells(w', p) ==>
               Tells(w, p) && w'.procs[p].queue == w.procs[p].queue && w'.procs[p].phase == w.procs[p].phase
    ensures Once(w')
  {
    forall p | Tells(w', p) ensures Unsaid(w', p) { assert Unsaid(w, p); }
  }

  lemma SettleOnce(w: World, w': World, p: Pid, q: Queue, out: seq<Settlement>, pending: seq<Settlement>)
    requires Once(w) && Ticks(w, p) && w.procs[p].queue == q && EntriesDistinct(w.settled + out)
    requires PendingIsOf(out, q) && pending in {out, []}
    requires w'.calls == w.calls && w'.settled == w.settled + out
    requires w'.procs == Goto(w, p, Announcing(pending)).procs
    ensures Once(w')
  {
    var all := w.settled + out;
    assert forall i :: 0 <= i < |out| ==> all[|w.settled| + i] == out[i];
    forall i, j | 0 <= i < |pending| && 0 <= j < |w.calls| ensures pending[i].entry != w.calls[j].entry {
      assert w.calls[j] in w.settled;
      var k :| 0 <= k < |w.settled| && w.settled[k] == w.calls[j];
      assert all[k].entry != all[|w.settled| + i].entry;
    }
    assert EntriesDistinct(pending);
    forall o | Tells(w', o) ensures Unsaid(w', o) { if o != p { assert Unsaid(w, o); } }
  }

  /** Two records of one entry are one record, so workers on different queues never have the same to say. */
  lemma SpeakOnce(w: World, p: Pid)
    requires Once(w) && Alone(w) && EntriesDistinct(w.settled) && Tells(w, p) && w.procs[p].phase.pending != []
    ensures Once(StepAnnounce(w, p))
  {
    var w', pending := StepAnnounce(w, p), w.procs[p].phase.pending;
    assert Unsaid(w, p);
    assert EntriesDistinct(w'.calls) && Within(w'.calls, w'.settled);
    forall o | Tells(w', o) ensures Unsaid(w', o) {
      if o != p {
        OtherTellsElse(w, p, o);
      }
    }
  }

  lemma OtherTellsElse(w: World, p: Pid, o: Pid)
    requires Once(w) && Alone(w) && EntriesDistinct(w.settled) && Tells(w, p) && Tells(w, o) && o != p
    ensures Unsaid(w, o) && Apart(w.procs[o].phase.pending, w.procs[p].phase.pending)
  {
    var mine, theirs := w.procs[p].phase.pending, w.procs[o].phase.pending;
    assert Unsaid(w, p) && Unsaid(w, o);
    forall i, j | 0 <= i < |theirs| && 0 <= j < |mine| ensures theirs[i].entry != mine[j].entry {
      assert theirs[i] in w.settled && mine[j] in w.settled;
      assert theirs[i].queue != mine[j].queue;
    }
  }

  lemma AnnounceOnce(w: World, p: Pid)
    requires Once(w) && Alone(w) && EntriesDistinct(w.settled)
    ensures Once(StepAnnounce(w, p))
  {
    if Tells(w, p) {
      if w.procs[p].phase.pending == [] { StaysOnce(w, StepAnnounce(w, p)); } else { SpeakOnce(w, p); }
    }
  }

  lemma LandOnce(env: Env, w: World, p: Pid)
    requires Sane(w) && SafeWorld(env, w) && Once(w) && EntriesDistinct(StepStoreLand(w, p).settled)
    ensures Once(StepStoreLand(w, p))
  {
    if Ticks(w, p) && w.procs[p].phase.Moved? {
      var q, job := w.procs[p].queue, w.procs[p].phase.job;
      assert ProcSafe(env, w, p);
      var out := LandedSettlements(w.db, job.candidate);
      SettleOnce(w, StepStoreLand(w, p), p, q, out, HookCalls(job.config, out));
    }
  }

  lemma BlameOnce(w: World, p: Pid)
    requires Sane(w) && Once(w) && EntriesDistinct(StepStoreBlame(w, p).settled)
    ensures Once(StepStoreBlame(w, p))
  {
    if Ticks(w, p) && w.procs[p].phase.Blaming? {
      var q, phase := w.procs[p].queue, w.procs[p].phase;
      var out := BlameSettlements(w.db, q, phase.culprit, phase.job.config.maxAttempts, phase.fault);
      SettleOnce(w, StepStoreBlame(w, p), p, q, out, HookCalls(phase.job.config, out));
    }
  }

  lemma ChooseOnce(w: World, p: Pid)
    requires Once(w)
    ensures Once(StepChoose(w, p))
  {
    if Ticks(w, p) && w.procs[p].phase.Based? { StaysOnce(w, StepChoose(w, p)); }
  }

  lemma FastForwardOnce(w: World, p: Pid)
    requires Once(w)
    ensures Once(StepFastForward(w, p))
  {
    if Ticks(w, p) && w.procs[p].phase.Judged? { StaysOnce(w, StepFastForward(w, p)); }
  }

  lemma AbandonOnce(w: World, p: Pid)
    requires Once(w)
    ensures Once(StepStoreAbandon(w, p))
  {
    if Ticks(w, p) && w.procs[p].phase.Discarding? { StaysOnce(w, StepStoreAbandon(w, p)); }
  }

  lemma PlainOnce(env: Env, w: World, p: Pid, act: Action)
    requires Once(w) && (Edges(act) || Quiet(act))
    ensures Once(StepBy(env, w, p, act))
  {
    var w' := StepBy(env, w, p, act);
    if Edges(act) {
      EdgeIsAtEdge(env, w, p, act);
      StaysOnce(w, w');
    } else {
      QuietIsQuiet(env, w, p, act);
      WorkIsWithinTick(env, w, p, act);
      if w' != w { StaysOnce(w, w'); }
    }
  }

  lemma ByOnce(env: Env, w: World, p: Pid, act: Action)
    requires Sane(w) && SafeWorld(env, w) && Once(w)
    requires EntriesDistinct(w.settled) && EntriesDistinct(StepBy(env, w, p, act).settled)
    ensures Once(StepBy(env, w, p, act))
  {
    match act {
      case StoreLand => LandOnce(env, w, p);
      case StoreBlame => BlameOnce(w, p);
      case Announce => AnnounceOnce(w, p);
      case Choose => ChooseOnce(w, p);
      case FastForward => FastForwardOnce(w, p);
      case StoreAbandon => AbandonOnce(w, p);
      case _ => PlainOnce(env, w, p, act);
    }
  }

  lemma AroundOnce(w: World, what: Happening)
    requires Once(w)
    ensures Once(StepAround(w, what))
  {
    StaysOnce(w, StepAround(w, what));
  }

  lemma {:induction false} RunOnce(env: Env, w: World, events: seq<Event>)
    requires Initial(w) && DisciplinedRun(env, w, events)
    ensures Once(Run(env, w, events))
  {
    if events != [] {
      var n := |events| - 1;
      var now := Run(env, w, events[..n]);
      RunOnce(env, w, events[..n]);
      RunFits(env, w, events[..n]);
      RunSafe(env, w, events[..n]);
      RunLedger(env, w, events[..n]);
      RunLedger(env, w, events);
      match events[n] {
        case Around(what) => AroundOnce(now, what);
        case By(p, act) => ByOnce(env, now, p, act);
      }
    }
  }

  /**
   With or without hooks, and wherever workers die: no entry is announced twice,
   and only entries a worker merged or evicted are announced at all.
   */
  lemma AtMostOnce(env: Env, w: World, events: seq<Event>)
    requires Initial(w) && DisciplinedRun(env, w, events)
    ensures var now := Run(env, w, events);
            EntriesDistinct(now.calls) && forall i :: 0 <= i < |now.calls| ==> Describes(now.db.entries, now.calls[i])
  {
    RunOnce(env, w, events);
    RunLedger(env, w, events);
    var now := Run(env, w, events);
    forall i | 0 <= i < |now.calls| ensures Describes(now.db.entries, now.calls[i]) {
      assert now.calls[i] in now.settled;
    }
  }

  // ----- within a candidate, in merge order

  /** The entries of a landed candidate stand together in the record, in merge order. */
  ghost predicate Block(xs: seq<Settlement>, ids: seq<EntryId>) {
    exists k :: BlockAt(xs, ids, k)
  }

  ghost predicate BlockAt(xs: seq<Settlement>, ids: seq<EntryId>, k: nat) {
    k + |ids| <= |xs| && forall i :: k <= i < k + |ids| ==> xs[i].entry == ids[i - k] && xs[i].state.Merged?
  }

  ghost predicate Blocks(w: World) {
    forall c :: 0 <= c < |w.db.candidates| && w.db.candidates[c].state.Passed? ==>
      Block(Of(w.settled, w.db.candidates[c].queue), Ids(w.db.candidates[c]))
  }

  lemma BlockStays(xs: seq<Settlement>, ys: seq<Settlement>, ids: seq<EntryId>)
    requires Block(xs, ids)
    ensures Block(xs + ys, ids)
  {
    var k: nat :| BlockAt(xs, ids, k);
    assert BlockAt(xs + ys, ids, k);
  }

  lemma OfGrows(xs: seq<Settlement>, ys: seq<Settlement>, q: Queue, r: Queue, ids: seq<EntryId>)
    requires PendingIsOf(ys, q) && Block(Of(xs, r), ids)
    ensures Block(Of(xs + ys, r), ids)
  {
    OfAppend(xs, ys, q, r);
    if r == q { BlockStays(Of(xs, r), ys, ids); }
  }

  lemma LandBlocks(env: Env, w: World, p: Pid)
    requires Sane(w) && SafeWorld(env, w) && Blocks(w)
    ensures Blocks(StepStoreLand(w, p))
  {
    if Ticks(w, p) && w.procs[p].phase.Moved? {
      var w', q, job := StepStoreLand(w, p), w.procs[p].queue, w.procs[p].phase.job;
      assert ProcSafe(env, w, p);
      var out := LandedSettlements(w.db, job.candidate);
      LandedIdsStay(w.db, job.candidate);
      LandedBlock(w.db, q, job.candidate, w.settled);
      forall c | 0 <= c < |w'.db.candidates| && w'.db.candidates[c].state.Passed?
        ensures Block(Of(w'.settled, w'.db.candidates[c].queue), Ids(w'.db.candidates[c]))
      {
        if c != job.candidate { OfGrows(w.settled, out, q, w.db.candidates[c].queue, Ids(w.db.candidates[c])); }
      }
    }
  }

  lemma BlockAtEnd(before: seq<Settlement>, out: seq<Settlement>, ids: seq<EntryId>)
    requires |out| == |ids| && forall i :: 0 <= i < |ids| ==> out[i].entry == ids[i] && out[i].state.Merged?
    ensures Block(before + out, ids)
  {
    assert BlockAt(before + out, ids, |before|);
  }

  lemma LandedBlock(db: Db, q: Queue, c: CandidateId, settled: seq<Settlement>)
    requires c < |db.candidates| && db.candidates[c].queue == q && Known(db.entries, Ids(db.candidates[c]))
    ensures Block(Of(settled + LandedSettlements(db, c), q), Ids(db.candidates[c]))
  {
    var out, before := LandedSettlements(db, c), Of(settled, q);
    OfAppend(settled, out, q, q);
    BlockAtEnd(before, out, Ids(db.candidates[c]));
  }

  lemma LandedIdsStay(db: Db, c: CandidateId)
    requires c < |db.candidates|
    ensures Ids(Landed(db, c).candidates[c]) == Ids(db.candidates[c])
  {
  }

  lemma BlameBlocks(env: Env, w: World, p: Pid)
    requires Sane(w) && Blocks(w)
    ensures Blocks(StepStoreBlame(w, p))
  {
    if Ticks(w, p) && w.procs[p].phase.Blaming? {
      var w', q, phase := StepStoreBlame(w, p), w.procs[p].queue, w.procs[p].phase;
      var out := BlameSettlements(w.db, q, phase.culprit, phase.job.config.maxAttempts, phase.fault);
      forall c | 0 <= c < |w'.db.candidates| && w'.db.candidates[c].state.Passed?
        ensures Block(Of(w'.settled, w'.db.candidates[c].queue), Ids(w'.db.candidates[c]))
      {
        OfGrows(w.settled, out, q, w.db.candidates[c].queue, Ids(w.db.candidates[c]));
      }
    }
  }

  lemma StillBlocks(w: World, w': World)
    requires Blocks(w) && w'.settled == w.settled && Agreement.PassesNone(w.db, w'.db)
    ensures Blocks(w')
  {
  }

  lemma AroundBlocks(w: World, what: Happening)
    requires Blocks(w)
    ensures Blocks(StepAround(w, what))
  {
    Agreement.HandsPassNone(w, what);
    StillBlocks(w, StepAround(w, what));
  }

  lemma ByBlocks(env: Env, w: World, p: Pid, act: Action)
    requires Sane(w) && SafeWorld(env, w) && Blocks(w)
    ensures Blocks(StepBy(env, w, p, act))
  {
    if act.StoreLand? { LandBlocks(env, w, p); }
    else if act.StoreBlame? { BlameBlocks(env, w, p); }
    else {
      RecordsByVerdictsOnly(env, w, p, act);
      if Writes(act) { Agreement.OnlyLandingPasses(env, w, p, act); } else { ReadsOnly(env, w, p, act); }
      StillBlocks(w, StepBy(env, w, p, act));
    }
  }

  lemma {:induction false} RunBlocks(env: Env, w: World, events: seq<Event>)
    requires Initial(w) && DisciplinedRun(env, w, events)
    ensures Blocks(Run(env, w, events))
  {
    if events != [] {
      var n := |events| - 1;
      var now := Run(env, w, events[..n]);
      RunBlocks(env, w, events[..n]);
      RunFits(env, w, events[..n]);
      RunSafe(env, w, events[..n]);
      match events[n] {
        case Around(what) => AroundBlocks(now, what);
        case By(p, act) => ByBlocks(env, now, p, act);
      }
    }
  }

  // ----- with a hook, and no worker dying while it tells

  lemma {:induction false} OfKeeps(xs: seq<Settlement>, q: Queue)
    ensures forall i :: 0 <= i < |Of(xs, q)| ==> Of(xs, q)[i] in xs && Of(xs, q)[i].queue == q
    ensures forall i :: 0 <= i < |xs| && xs[i].queue == q ==> xs[i] in Of(xs, q)
  {
    if xs != [] {
      var n := |xs| - 1;
      OfKeeps(xs[..n], q);
    }
  }

  lemma {:induction false} OfDistinct(xs: seq<Settlement>, q: Queue)
    requires EntriesDistinct(xs)
    ensures EntriesDistinct(Of(xs, q))
  {
    if xs != [] {
      var n := |xs| - 1;
      OfDistinct(xs[..n], q);
      OfKeeps(xs[..n], q);
    }
  }

  lemma OfMentions(es: seq<EntryRow>, xs: seq<Settlement>, q: Queue, e: EntryId)
    requires forall i :: 0 <= i < |xs| ==> Describes(es, xs[i])
    requires e < |es| && es[e].queue == q && Mentions(xs, e)
    ensures Mentions(Of(xs, q), e)
  {
    OfKeeps(xs, q);
    var i :| 0 <= i < |xs| && xs[i].entry == e;
    assert Describes(es, xs[i]) && xs[i] in Of(xs, q);
  }

  /**
   Once no worker on the queue is telling, its hook has heard of exactly the
   entries its workers merged and evicted, each once, and of each landed
   candidate's entries together and in merge order.
   */
  lemma HookHearsAll(env: Env, w: World, events: seq<Event>, q: Queue)
    requires Initial(w) && DisciplinedRun(env, w, events) && Hooked(env) && UnbrokenRun(env, w, events)
    requires !TellingOn(Run(env, w, events), q)
    ensures var now := Run(env, w, events);
            var heard := Of(now.calls, q);
            && EntriesDistinct(heard)
            && (forall e :: 0 <= e < |now.db.entries| && now.db.entries[e].queue == q ==>
                  (Mentions(heard, e) <==> SettledByWorker(now.db.entries[e])))
            && (forall c ::
                  0 <= c < |now.db.candidates| && now.db.candidates[c].queue == q
                  && now.db.candidates[c].state.Passed? ==>
                  Block(heard, Ids(now.db.candidates[c])))
  {
    RunTold(env, w, events);
    RunLedger(env, w, events);
    RunBlocks(env, w, events);
    var now := Run(env, w, events);
    var heard := Of(now.settled, q);
    assert Of(now.calls, q) == heard;
    OfDistinct(now.settled, q);
    OfKeeps(now.settled, q);
    forall e | 0 <= e < |now.db.entries| && now.db.entries[e].queue == q
      ensures Mentions(heard, e) <==> SettledByWorker(now.db.entries[e])
    {
      if SettledByWorker(now.db.entries[e]) { OfMentions(now.db.entries, now.settled, q, e); }
      if i :| 0 <= i < |heard| && heard[i].entry == e { assert heard[i] in now.settled; }
    }
  }

  // ----- where no hook is configured

  ghost predicate Hookless(env: Env) {
    forall s :: env.configs(s).Some? ==> env.configs(s).value.onSettle.None?
  }

  /** Nobody has been called and nobody is about to be. */
  ghost predicate Silent(w: World) {
    w.calls == [] && forall p :: Tells(w, p) ==> w.procs[p].phase.pending == []
  }

  /** One worker at most moved on, and it has nothing to tell. */
  lemma OneMovedSilent(w: World, w': World, p: Pid)
    requires Silent(w) && w'.calls == []
    requires forall o :: o != p && Tells(w', o) ==> Tells(w, o) && w'.procs[o] == w.procs[o]
    requires Tells(w', p) ==> w'.procs[p].phase.pending == []
    ensures Silent(w')
  {
  }

  lemma LandSilent(env: Env, w: World, p: Pid)
    requires Silent(w) && SafeWorld(env, w) && Hookless(env)
    ensures Silent(StepStoreLand(w, p))
  {
    if Ticks(w, p) && w.procs[p].phase.Moved? {
      var job := w.procs[p].phase.job;
      assert ProcSafe(env, w, p);
      assert env.configs(job.base) == Some(job.config);
      OneMovedSilent(w, StepStoreLand(w, p), p);
    }
  }

  lemma BlameSilent(env: Env, w: World, p: Pid)
    requires Silent(w) && SafeWorld(env, w) && Hookless(env)
    ensures Silent(StepStoreBlame(w, p))
  {
    if Ticks(w, p) && w.procs[p].phase.Blaming? {
      var job := w.procs[p].phase.job;
      assert ProcSafe(env, w, p);
      assert env.configs(job.base) == Some(job.config);
      OneMovedSilent(w, StepStoreBlame(w, p), p);
    }
  }

  lemma AnnounceSilent(w: World, p: Pid)
    requires Silent(w)
    ensures Silent(StepAnnounce(w, p))
  {
    if Tells(w, p) { OneMovedSilent(w, StepAnnounce(w, p), p); }
  }

  /** The steps of a tick that neither settle nor tell. */
  predicate Mute(act: Action) {
    Works(act) && !act.StoreLand? && !act.StoreBlame? && !act.Announce?
  }

  ghost predicate TellsNothingNew(w: World, w': World, p: Pid) {
    w'.calls == w.calls && (Tells(w', p) ==> Tells(w, p) && w'.procs[p] == w.procs[p])
  }

  lemma OpenTellsNothing(w: World, p: Pid)
    ensures TellsNothingNew(w, StepOpen(w, p), p)
  {
  }

  lemma BuildTellsNothing(env: Env, w: World, p: Pid, act: Action)
    requires Chooses(act) || Assembles(act)
    ensures TellsNothingNew(w, StepBy(env, w, p, act), p)
  {
  }

  lemma GateTellsNothing(env: Env, w: World, p: Pid, act: Action)
    requires Gates(act) || act.FastForward?
    ensures TellsNothingNew(w, StepBy(env, w, p, act), p)
  {
  }

  lemma CloseTellsNothing(env: Env, w: World, p: Pid, act: Action)
    requires act.Decide? || act.StoreAbandon?
    ensures TellsNothingNew(w, StepBy(env, w, p, act), p)
  {
  }

  lemma MuteSilent(env: Env, w: World, p: Pid, act: Action)
    requires Silent(w) && Mute(act)
    ensures Silent(StepBy(env, w, p, act))
  {
    if act.Open? { OpenTellsNothing(w, p); }
    else if Chooses(act) || Assembles(act) { BuildTellsNothing(env, w, p, act); }
    else if Gates(act) || act.FastForward? { GateTellsNothing(env, w, p, act); }
    else { CloseTellsNothing(env, w, p, act); }
    WorkIsWithinTick(env, w, p, act);
    OneMovedSilent(w, StepBy(env, w, p, act), p);
  }

  lemma EdgeSilent(env: Env, w: World, p: Pid, act: Action)
    requires Silent(w) && Edges(act)
    ensures Silent(StepBy(env, w, p, act))
  {
    EdgeIsAtEdge(env, w, p, act);
    OneMovedSilent(w, StepBy(env, w, p, act), p);
  }

  lemma AroundSilent(w: World, what: Happening)
    requires Silent(w)
    ensures Silent(StepAround(w, what))
  {
    OneMovedSilent(w, StepAround(w, what), if what.Spawn? then what.pid else 0);
  }

  lemma StepSilent(env: Env, w: World, e: Event)
    requires Silent(w) && SafeWorld(env, w) && Hookless(env)
    ensures Silent(Step(env, w, e))
  {
    match e {
      case Around(what) => AroundSilent(w, what);
      case By(p, act) =>
        if Edges(act) { EdgeSilent(env, w, p, act); }
        else if act.StoreLand? { LandSilent(env, w, p); }
        else if act.StoreBlame? { BlameSilent(env, w, p); }
        else if act.Announce? { AnnounceSilent(w, p); }
        else { MuteSilent(env, w, p, act); }
    }
  }

  /** Where no commit's configuration names a hook, no run ever calls one. */
  lemma {:induction false} NoHookNoCalls(env: Env, w: World, events: seq<Event>)
    requires Initial(w) && Hookless(env)
    ensures Silent(Run(env, w, events))
  {
    if events != [] {
      var n := |events| - 1;
      NoHookNoCalls(env, w, events[..n]);
      RunSafe(env, w, events[..n]);
      StepSilent(env, Run(env, w, events[..n]), events[n]);
    }
  }
}
