/** At most one live worker holds an unexpired lease on a queue. */
module LeaseExclusion {
  import opened Vocabulary
  import opened Protocol

  ghost predicate Leased(w: World, p: Pid, q: Queue) {
    Ticks(w, p) && w.procs[p].queue == q && w.procs[p].lease.expires > w.clock
  }

  /** The row is this worker's own. */
  ghost predicate RowIs(w: World, p: Pid, q: Queue) {
    Ticks(w, p) && q in w.leases && w.leases[q] == LeaseRow(p, w.procs[p].lease.token, w.procs[p].lease.expires)
  }

  ghost predicate LeaseInv(w: World) {
    && (forall p :: p in w.procs && w.procs[p].Asking? ==> w.procs[p].now <= w.clock)
    && (forall p :: Ticks(w, p) ==> w.procs[p].lease.token in w.minted)
    && (forall p, o :: Ticks(w, p) && Ticks(w, o) && w.procs[p].lease.token == w.procs[o].lease.token ==> p == o)
    && (forall q :: q in w.leases ==> w.leases[q].token in w.minted)
    && (forall p, q :: RowMine(w, p, q) ==> w.leases[q].holder == p && w.procs[p].queue == q)
    && (forall p, q :: Leased(w, p, q) ==> RowIs(w, p, q))
  }

  /** The row carries this worker's token. */
  ghost predicate RowMine(w: World, p: Pid, q: Queue) {
    Ticks(w, p) && q in w.leases && w.leases[q].token == w.procs[p].lease.token
  }

  /** Nothing about leases changed, except that one worker may have stopped holding. */
  lemma Undisturbed(w: World, w': World, p: Pid)
    requires LeaseInv(w) && w'.leases == w.leases && w.minted <= w'.minted && w.clock <= w'.clock
    requires forall o :: o in w'.procs && o != p ==> o in w.procs && w'.procs[o] == w.procs[o]
    requires p in w'.procs ==>
               || w'.procs[p].Resting?
               || (w'.procs[p].Asking? && w'.procs[p].now <= w'.clock)
               || (Ticks(w, p) && w'.procs[p].Ticking? && w'.procs[p].lease == w.procs[p].lease
                   && w'.procs[p].queue == w.procs[p].queue)
    ensures LeaseInv(w')
  {
    forall o, q | Leased(w', o, q) ensures RowIs(w', o, q) {
      assert Leased(w, o, q);
    }
  }

  /** A lease that may be taken is held by no live worker, however old the reading of the clock. */
  lemma TakenIsFree(w: World, q: Queue, now: nat, gone: bool, o: Pid)
    requires LeaseInv(w) && now <= w.clock
    requires q in w.leases ==> w.leases[q].expires <= now || w.leases[q].holder !in w.procs
    ensures !Leased(w, o, q)
  {
    assert Leased(w, o, q) ==> RowIs(w, o, q);
  }

  lemma TakeExcludes(w: World, w': World, p: Pid, q: Queue, token: Token, expires: int)
    requires LeaseInv(w) && token !in w.minted && p in w.procs && w'.clock == w.clock
    requires w'.leases == w.leases[q := LeaseRow(p, token, expires)] && w'.minted == w.minted + {token}
    requires w'.procs == w.procs[p := Ticking(q, Lease(token, expires), Ready)]
    requires forall o :: o != p ==> !Leased(w, o, q)
    ensures LeaseInv(w')
  {
    forall o, r | RowMine(w', o, r) ensures w'.leases[r].holder == o && w'.procs[o].queue == r {
      if o != p && r != q { assert RowMine(w, o, r); }
    }
    forall o, r | Leased(w', o, r) ensures RowIs(w', o, r) {
      if o != p { assert Leased(w, o, r) && RowIs(w, o, r); }
    }
  }

  lemma AcquireExcludes(env: Env, w: World, p: Pid, gone: bool, token: Token)
    requires LeaseInv(w)
    ensures LeaseInv(StepAcquire(env, w, p, gone, token))
  {
    var w' := StepAcquire(env, w, p, gone, token);
    if p in w.procs && w.procs[p].Asking? && token !in w.minted {
      var q, now := w.procs[p].queue, w.procs[p].now;
      if token in w'.minted {
        forall o | o != p ensures !Leased(w, o, q) { TakenIsFree(w, q, now, gone, o); }
        TakeExcludes(w, w', p, q, token, now + env.ttl);
      } else {
        Undisturbed(w, w', p);
      }
    }
  }

  lemma RenewExcludes(env: Env, w: World, p: Pid, now: nat)
    requires LeaseInv(w)
    ensures LeaseInv(StepRenew(env, w, p, now))
  {
    var w' := StepRenew(env, w, p, now);
    if w' != w {
      forall o, r | RowMine(w', o, r) ensures w'.leases[r].holder == o && w'.procs[o].queue == r {
        assert RowMine(w, o, r);
      }
      forall o, r | Leased(w', o, r) ensures RowIs(w', o, r) {
        if o != p { assert Leased(w, o, r) && RowIs(w, o, r); } else { assert RowMine(w, o, r); }
      }
    }
  }

  lemma ReleaseExcludes(w: World, p: Pid)
    requires LeaseInv(w)
    ensures LeaseInv(StepRelease(w, p))
  {
    var w' := StepRelease(w, p);
    if w' != w {
      forall o, r | RowMine(w', o, r) ensures w'.leases[r].holder == o && w'.procs[o].queue == r {
        assert RowMine(w, o, r);
      }
      forall o, r | Leased(w', o, r) ensures RowIs(w', o, r) {
        assert Leased(w, o, r) && RowIs(w, o, r);
      }
    }
  }

  lemma AroundExcludes(w: World, what: Happening)
    requires LeaseInv(w)
    ensures LeaseInv(StepAround(w, what))
  {
    Undisturbed(w, StepAround(w, what), if what.Spawn? then what.pid else 0);
  }

  lemma EndExcludes(w: World, p: Pid)
    requires LeaseInv(w)
    ensures LeaseInv(StepCrash(w, p))
  {
    Undisturbed(w, StepCrash(w, p), p);
  }

  lemma FailExcludes(w: World, p: Pid)
    requires LeaseInv(w)
    ensures LeaseInv(StepFail(w, p))
  {
    Undisturbed(w, StepFail(w, p), p);
  }

  lemma AskExcludes(w: World, p: Pid, q: Queue)
    requires LeaseInv(w)
    ensures LeaseInv(StepAsk(w, p, q))
  {
    Undisturbed(w, StepAsk(w, p, q), p);
  }

  lemma WorkExcludes(env: Env, w: World, p: Pid, act: Action)
    requires LeaseInv(w) && Works(act)
    ensures LeaseInv(StepBy(env, w, p, act))
  {
    var w' := StepBy(env, w, p, act);
    WorkIsWithinTick(env, w, p, act);
    if w' != w { Undisturbed(w, w', p); }
  }

  lemma ByExcludes(env: Env, w: World, p: Pid, act: Action)
    requires LeaseInv(w)
    ensures LeaseInv(StepBy(env, w, p, act))
  {
    match act {
      case Acquire(gone, token) => AcquireExcludes(env, w, p, gone, token);
      case Renew(now) => RenewExcludes(env, w, p, now);
      case Release => ReleaseExcludes(w, p);
      case Crash => EndExcludes(w, p);
      case Fail => FailExcludes(w, p);
      case Ask(q) => AskExcludes(w, p, q);
      case _ => WorkExcludes(env, w, p, act);
    }
  }

  lemma StepExcludes(env: Env, w: World, e: Event)
    requires LeaseInv(w)
    ensures LeaseInv(Step(env, w, e))
  {
    match e {
      case Around(what) => AroundExcludes(w, what);
      case By(p, act) => ByExcludes(env, w, p, act);
    }
  }

  lemma {:induction false} RunExcludes(env: Env, w: World, events: seq<Event>)
    requires Initial(w)
    ensures LeaseInv(Run(env, w, events))
  {
    if events != [] {
      var n := |events| - 1;
      RunExcludes(env, w, events[..n]);
      StepExcludes(env, Run(env, w, events[..n]), events[n]);
    }
  }

  /** In every run: one live worker at most holds an unexpired lease, and the row carries its token. */
  lemma OneHolder(env: Env, w: World, events: seq<Event>, q: Queue, p: Pid, o: Pid)
    requires Initial(w)
    requires var now := Run(env, w, events); Leased(now, p, q) && Leased(now, o, q)
    ensures p == o
    ensures var now := Run(env, w, events);
            q in now.leases && now.leases[q] == LeaseRow(p, now.procs[p].lease.token, now.procs[p].lease.expires)
  {
    RunExcludes(env, w, events);
    var now := Run(env, w, events);
    assert RowIs(now, p, q) && RowIs(now, o, q);
  }

  // ----- what a lost lease is still good for

  lemma LostStaysLost(env: Env, w: World, e: Event, q: Queue, token: Token)
    requires token in w.minted && !Ours(w.leases, q, token)
    ensures var w' := Step(env, w, e); token in w'.minted && !Ours(w'.leases, q, token)
  {
    if e.By? && Works(e.act) { WorkIsWithinTick(env, w, e.pid, e.act); }
    else if e.By? { EdgeLosesNothing(env, w, e.pid, e.act, q, token); }
  }

  lemma EdgeLosesNothing(env: Env, w: World, p: Pid, act: Action, q: Queue, token: Token)
    requires Edges(act) && token in w.minted && !Ours(w.leases, q, token)
    ensures var w' := StepBy(env, w, p, act); token in w'.minted && !Ours(w'.leases, q, token)
  {
  }

  lemma {:induction false} LostForGood(env: Env, w: World, events: seq<Event>, more: seq<Event>, q: Queue, token: Token)
    requires var now := Run(env, w, events); token in now.minted && !Ours(now.leases, q, token)
    ensures !Ours(Run(env, w, events + more).leases, q, token) && token in Run(env, w, events + more).minted
    decreases |more|
  {
    if more == [] {
      assert events + more == events;
    } else {
      var n := |more| - 1;
      LostForGood(env, w, events, more[..n], q, token);
      assert events + more == (events + more[..n]) + [more[n]];
      RunSnoc(env, w, events + more[..n], more[n]);
      LostStaysLost(env, Run(env, w, events + more[..n]), more[n], q, token);
    }
  }

  /**
   Once the row of a queue is not a worker's own, whosever it is and if there is
   one at all, that worker can from then on neither extend nor delete it.
   */
  lemma StaleTokenIsHarmless(env: Env, w: World, events: seq<Event>, more: seq<Event>, q: Queue, stale: Pid, now: nat)
    requires Initial(w) && Ticks(Run(env, w, events), stale) && Ticks(Run(env, w, events + more), stale)
    requires var was, world := Run(env, w, events), Run(env, w, events + more);
             && !Ours(was.leases, q, was.procs[stale].lease.token)
             && world.procs[stale].lease.token == was.procs[stale].lease.token && world.procs[stale].queue == q
    ensures var world := Run(env, w, events + more);
            StepRenew(env, world, stale, now).leases == world.leases && StepRelease(world, stale).leases == world.leases
  {
    RunExcludes(env, w, events);
    LostForGood(env, w, events, more, q, Run(env, w, events).procs[stale].lease.token);
  }

  /** A row some other live worker wrote is not this worker's own. */
  lemma AnothersRow(env: Env, w: World, events: seq<Event>, q: Queue, p: Pid, stale: Pid)
    requires Initial(w)
    requires var world := Run(env, w, events); RowIs(world, p, q) && Ticks(world, stale) && stale != p
    ensures var world := Run(env, w, events); !Ours(world.leases, q, world.procs[stale].lease.token)
  {
    RunExcludes(env, w, events);
  }

  // ----- when a second worker gets in

  /** Every worker inside a tick finds the lease row as it wrote it. */
  ghost predicate OwnRows(w: World) {
    forall p :: Ticks(w, p) ==> RowIs(w, p, w.procs[p].queue)
  }

  /** This worker is still inside its tick although its lease has run out by this reading of the clock. */
  ghost predicate Outlasts(w: World, p: Pid, q: Queue, now: int) {
    Ticks(w, p) && w.procs[p].queue == q && w.procs[p].lease.expires <= now
  }

  /** A process asks for a queue that one outlasting its lease is still on, and is not told that it is gone. */
  ghost predicate TakesUnder(w: World, e: Event) {
    && e.By? && e.act.Acquire? && e.pid in w.procs && w.procs[e.pid].Asking?
    && !e.act.gone && e.act.token !in w.minted
    && exists p :: Outlasts(w, p, w.procs[e.pid].queue, w.procs[e.pid].now)
  }

  lemma TakesIsTicking(env: Env, w: World, p: Pid, gone: bool, token: Token)
    requires p in w.procs && w.procs[p].Asking?
    ensures var w', q := StepAcquire(env, w, p, gone, token), w.procs[p].queue;
            && (Ticks(w', p) <==> Takes(w, p, gone, token))
            && (Takes(w, p, gone, token) ==> w'.procs[p].queue == q)
            && (w' == w || w'.procs == w.procs[p := w'.procs[p]])
  {
  }

  /** Its row and its own memory both give this worker the queue until then. */
  ghost predicate HasUntil(was: World, next: World, p: Pid, until: int)
    requires Ticks(was, p) && was.procs[p].queue in was.leases
  {
    var q := was.procs[p].queue;
    && next.leases == was.leases[q := was.leases[q].(expires := until)] && next.db == was.db
    && next.procs == was.procs[p := was.procs[p].(lease := was.procs[p].lease.(expires := until))]
  }

  lemma RenewKeeps(env: Env, was: World, p: Pid, now: nat)
    requires Ticks(was, p) && now <= was.clock && Ours(was.leases, was.procs[p].queue, was.procs[p].lease.token)
    ensures HasUntil(was, StepRenew(env, was, p, now), p, now + env.ttl)
  {
  }

  lemma RefusedUntil(next: World, q: Queue, o: Pid, token: Token)
    requires o in next.procs && next.procs[o].Asking? && next.procs[o].queue == q && q in next.leases
    requires next.procs[o].now < next.leases[q].expires
    ensures !Takes(next, o, false, token)
  {
  }

  /**
   A worker that still has its row and renews by a reading of the clock has the
   queue for a whole term from then: until it is over whoever asks is refused,
   unless told that the worker is gone.
   */
  lemma RenewalHolds(env: Env, w: World, events: seq<Event>, p: Pid, now: nat, o: Pid, token: Token)
    requires var was := Run(env, w, events);
             && Ticks(was, p) && now <= was.clock
             && was.procs[p].queue in was.leases && was.leases[was.procs[p].queue].token == was.procs[p].lease.token
    ensures var was, next := Run(env, w, events), Run(env, w, events + [By(p, Renew(now))]);
            && HasUntil(was, next, p, now + env.ttl)
            && (o in next.procs && next.procs[o].Asking? && next.procs[o].queue == was.procs[p].queue
                && next.procs[o].now < now + env.ttl
                ==>
                !Takes(next, o, false, token))
  {
    var next := Run(env, w, events + [By(p, Renew(now))]);
    RunSnoc(env, w, events, By(p, Renew(now)));
    RenewKeeps(env, Run(env, w, events), p, now);
    var q := Run(env, w, events).procs[p].queue;
    if o in next.procs && next.procs[o].Asking? && next.procs[o].queue == q && next.procs[o].now < now + env.ttl {
      RefusedUntil(next, q, o, token);
    }
  }

  /**
   A queue whose row is some worker's own is taken from under it exactly when
   that worker's lease has run out by the reading of the clock the taker goes
   by, and the taker is not told that it is gone.
   */
  lemma TakenFromUnder(env: Env, w: World, events: seq<Event>, p: Pid, o: Pid, q: Queue, gone: bool, token: Token)
    requires Initial(w)
    requires var now := Run(env, w, events);
             RowIs(now, p, q) && o in now.procs && now.procs[o].Asking? && now.procs[o].queue == q
                 && token !in now.minted
    ensures var now := Run(env, w, events);
            Ticks(Run(env, w, events + [By(o, Acquire(gone, token))]), o) <==>
              !gone && now.procs[p].lease.expires <= now.procs[o].now
  {
    RunSnoc(env, w, events, By(o, Acquire(gone, token)));
    TakesIsTicking(env, Run(env, w, events), o, gone, token);
  }

  /** Only a process that gets a lease starts to work. */
  lemma NoneStarts(env: Env, w: World, e: Event, o: Pid)
    requires !(e.By? && e.act.Acquire?) && Ticks(Step(env, w, e), o)
    ensures Ticks(w, o) && Step(env, w, e).procs[o].queue == w.procs[o].queue
  {
    if e.By? {
      if Works(e.act) { WorkIsWithinTick(env, w, e.pid, e.act); } else { EdgeStartsNone(env, w, e.pid, e.act, o); }
    }
  }

  lemma EdgeStartsNone(env: Env, w: World, p: Pid, act: Action, o: Pid)
    requires Edges(act) && !act.Acquire? && Ticks(StepBy(env, w, p, act), o)
    ensures Ticks(w, o) && StepBy(env, w, p, act).procs[o].queue == w.procs[o].queue
  {
  }

  /**
   While one worker at most is on each queue, an event puts a second one on a
   queue exactly when it takes a lease that some worker inside a tick has
   outlasted.
   */
  lemma SecondWorkerEnters(env: Env, w: World, events: seq<Event>, e: Event)
    requires Initial(w) && Alone(Run(env, w, events))
    ensures var now := Run(env, w, events);
            !Alone(Run(env, w, events + [e])) <==>
              && e.By? && e.act.Acquire? && Takes(now, e.pid, e.act.gone, e.act.token)
              && exists p :: Outlasts(now, p, now.procs[e.pid].queue, now.clock)
  {
    var now := Run(env, w, events);
    RunSnoc(env, w, events, e);
    RunExcludes(env, w, events);
    if e.By? && e.act.Acquire? {
      AcquireBreaksAlone(env, now, e.pid, e.act.gone, e.act.token);
    } else {
      forall p, o | Ticks(Step(env, now, e), p) && Ticks(Step(env, now, e), o)
          && Step(env, now, e).procs[p].queue == Step(env, now, e).procs[o].queue
        ensures p == o
      {
        NoneStarts(env, now, e, p);
        NoneStarts(env, now, e, o);
      }
    }
  }

  lemma AcquireBreaksAlone(env: Env, w: World, o: Pid, gone: bool, token: Token)
    requires LeaseInv(w) && Alone(w)
    ensures !Alone(StepAcquire(env, w, o, gone, token)) <==>
              Takes(w, o, gone, token) && exists p :: Outlasts(w, p, w.procs[o].queue, w.clock)
  {
    if o in w.procs && w.procs[o].Asking? {
      TakesIsTicking(env, w, o, gone, token);
      if Takes(w, o, gone, token) {
        JoinsOutlasting(w, StepAcquire(env, w, o, gone, token), o, w.procs[o].queue, gone);
      }
    }
  }

  lemma JoinsOutlasting(w: World, w': World, o: Pid, q: Queue, gone: bool)
    requires LeaseInv(w) && Alone(w) && o in w.procs && w.procs[o].Asking? && w.procs[o].queue == q
    requires gone ==> q in w.leases && w.leases[q].holder !in w.procs
    requires !Held(w.leases, q, w.procs[o].now, gone)
    requires Ticks(w', o) && w'.procs[o].queue == q && w'.procs == w.procs[o := w'.procs[o]]
    ensures !Alone(w') <==> exists p :: Outlasts(w, p, q, w.clock)
  {
    if p :| Outlasts(w, p, q, w.clock) {
      assert Ticks(w', p) && Ticks(w', o) && p != o;
    }
    if p :| p != o && Ticks(w', p) && w'.procs[p].queue == q {
      TakenIsFree(w, q, w.procs[o].now, gone, p);
      assert Outlasts(w, p, q, w.clock);
    }
  }

  /** An event of a run in which every row is its worker's own leaves them so, or puts a second worker on a queue. */
  lemma OwnRowsOrTwo(env: Env, w: World, e: Event)
    requires LeaseInv(w) && OwnRows(w)
    ensures if TakesUnder(w, e) then !Alone(Step(env, w, e)) else OwnRows(Step(env, w, e))
  {
    if e.Around? {
      AroundOwnRows(w, e.what);
    } else if e.act.Acquire? {
      AcquireOwnRows(env, w, e.pid, e.act.gone, e.act.token);
    } else if e.act.Renew? {
      RenewOwnRows(env, w, e.pid, e.act.now);
    } else if e.act.Release? {
      ReleaseOwnRows(w, e.pid);
    } else {
      OtherOwnRows(env, w, e.pid, e.act);
    }
  }

  lemma AroundOwnRows(w: World, what: Happening)
    requires OwnRows(w)
    ensures OwnRows(StepAround(w, what))
  {
  }

  lemma RenewOwnRows(env: Env, w: World, p: Pid, now: nat)
    requires OwnRows(w)
    ensures OwnRows(StepRenew(env, w, p, now))
  {
    OwnRowsAlone(w);
  }

  lemma ReleaseOwnRows(w: World, p: Pid)
    requires OwnRows(w)
    ensures OwnRows(StepRelease(w, p))
  {
    OwnRowsAlone(w);
  }

  lemma OwnRowsAlone(w: World)
    requires OwnRows(w)
    ensures Alone(w)
  {
    forall p, o | Ticks(w, p) && Ticks(w, o) && w.procs[p].queue == w.procs[o].queue ensures p == o {
      assert RowIs(w, p, w.procs[p].queue) && RowIs(w, o, w.procs[p].queue);
    }
  }

  lemma OtherOwnRows(env: Env, w: World, p: Pid, act: Action)
    requires OwnRows(w) && !act.Acquire? && !act.Renew? && !act.Release?
    ensures OwnRows(StepBy(env, w, p, act))
  {
    if Works(act) {
      WorkIsWithinTick(env, w, p, act);
    } else {
      EndOwnRows(env, w, p, act);
    }
  }

  lemma EndOwnRows(env: Env, w: World, p: Pid, act: Action)
    requires OwnRows(w) && (act.Crash? || act.Fail? || act.Ask?)
    ensures OwnRows(StepBy(env, w, p, act))
  {
  }

  /** With every row its worker's own, taking a lease is taking it from under a worker exactly when one is there. */
  lemma TakesOwnRow(w: World, p: Pid, gone: bool, token: Token, o: Pid)
    requires OwnRows(w) && p in w.procs && w.procs[p].Asking? && Ticks(w, o) && w.procs[o].queue == w.procs[p].queue
    ensures Takes(w, p, gone, token) <==>
              token !in w.minted && !gone && Outlasts(w, o, w.procs[p].queue, w.procs[p].now)
  {
    assert RowIs(w, o, w.procs[p].queue);
  }

  lemma AcquireOwnRows(env: Env, w: World, p: Pid, gone: bool, token: Token)
    requires OwnRows(w)
    ensures if TakesUnder(w, By(p, Acquire(gone, token))) then !Alone(StepAcquire(env, w, p, gone, token))
            else OwnRows(StepAcquire(env, w, p, gone, token))
  {
    if p in w.procs && w.procs[p].Asking? {
      var q, w' := w.procs[p].queue, StepAcquire(env, w, p, gone, token);
      TakesIsTicking(env, w, p, gone, token);
      if TakesUnder(w, By(p, Acquire(gone, token))) {
        var o :| Outlasts(w, o, q, w.procs[p].now);
        TakesOwnRow(w, p, gone, token, o);
        assert Ticks(w', o) && Ticks(w', p) && o != p;
      } else if Takes(w, p, gone, token) {
        forall o | Ticks(w, o) ensures w.procs[o].queue != q {
          if w.procs[o].queue == q { TakesOwnRow(w, p, gone, token, o); }
        }
      }
    }
  }

  /** One worker at most was on each queue after every event. */
  ghost predicate AloneThroughout(env: Env, w: World, events: seq<Event>) {
    Alone(Run(env, w, events)) && (events == [] || AloneThroughout(env, w, events[..|events| - 1]))
  }

  /** No lease was ever taken from under a worker still inside its tick. */
  ghost predicate NoneTakenUnder(env: Env, w: World, events: seq<Event>) {
    events == [] ||
    (var n := |events| - 1;
     NoneTakenUnder(env, w, events[..n]) && !TakesUnder(Run(env, w, events[..n]), events[n]))
  }

  lemma {:induction false} OwnRowsWhile(env: Env, w: World, events: seq<Event>)
    requires Initial(w) && NoneTakenUnder(env, w, events)
    ensures OwnRows(Run(env, w, events))
  {
    if events != [] {
      var n := |events| - 1;
      OwnRowsWhile(env, w, events[..n]);
      RunExcludes(env, w, events[..n]);
      OwnRowsOrTwo(env, Run(env, w, events[..n]), events[n]);
    }
  }

  /**
   No queue has two workers inside their ticks at any point of a run if and only
   if no process ever asks for a queue whose worker is still inside
   its tick with its lease run out.
   */
  lemma {:induction false} OneWorkerPerQueue(env: Env, w: World, events: seq<Event>)
    requires Initial(w)
    ensures AloneThroughout(env, w, events) <==> NoneTakenUnder(env, w, events)
  {
    if events != [] {
      var n := |events| - 1;
      OneWorkerPerQueue(env, w, events[..n]);
      if NoneTakenUnder(env, w, events[..n]) {
        OwnRowsWhile(env, w, events[..n]);
        RunExcludes(env, w, events[..n]);
        OwnRowsOrTwo(env, Run(env, w, events[..n]), events[n]);
        if !TakesUnder(Run(env, w, events[..n]), events[n]) { OwnRowsAlone(Run(env, w, events)); }
      }
    }
  }
}
