/** The record of who was split from whom is true: a child is the left half of the failure it names. */
module Lineage {
  import opened Vocabulary
  import opened States
  import opened Tables
  import opened TableInvariant
  import opened Protocol
  import opened BaseSafety
  import opened Discipline
  import Agreement

  /** Candidate p failed without a verdict, and these are the first half of its entries on its base. */
  ghost predicate HalfOf(cs: seq<CandidateRow>, p: CandidateId, q: Queue, base: Sha, ids: seq<EntryId>) {
    && p < |cs| && cs[p].state.Failed? && AllPending(cs[p])
    && cs[p].queue == q && cs[p].base == base
    && |Ids(cs[p])| >= 2 && ids == Ids(cs[p])[..|Ids(cs[p])| / 2]
  }

  ghost predicate Childless(cs: seq<CandidateRow>, p: CandidateId) {
    forall c :: 0 <= c < |cs| ==> cs[c].parent != Some(p)
  }

  ghost predicate Lineal(cs: seq<CandidateRow>) {
    && (forall c :: 0 <= c < |cs| && cs[c].parent.Some? ==>
          HalfOf(cs, cs[c].parent.value, cs[c].queue, cs[c].base, Ids(cs[c])))
    && (forall a, b :: 0 <= a < b < |cs| && cs[a].parent.Some? ==> cs[a].parent != cs[b].parent)
  }

  /** A worker between the two halves of a split is about to open the one child its candidate will have. */
  ghost predicate Expecting(db: Db, q: Queue, phase: Phase) {
    phase.Opening? && phase.parent.Some? ==>
      HalfOf(db.candidates, phase.parent.value, q, phase.base, PickIds(phase.batch))
          && Childless(db.candidates, phase.parent.value)
  }

  ghost predicate Lined(w: World) {
    Lineal(w.db.candidates) && forall p :: Ticks(w, p) ==> Expecting(w.db, w.procs[p].queue, w.procs[p].phase)
  }

  /** Rows evolved and none was added. */
  ghost predicate SameRows(db: Db, db': Db) {
    RowsEvolve(db, db') && Written(db, db') && |db'.candidates| == |db.candidates|
  }

  lemma HalfStays(db: Db, db': Db, p: CandidateId, q: Queue, base: Sha, ids: seq<EntryId>)
    requires RowsEvolve(db, db') && HalfOf(db.candidates, p, q, base, ids)
    ensures HalfOf(db'.candidates, p, q, base, ids)
  {
  }

  lemma StaysLineal(db: Db, db': Db)
    requires SameRows(db, db') && Lineal(db.candidates)
    ensures Lineal(db'.candidates)
  {
    var cs, cs' := db.candidates, db'.candidates;
    forall c | 0 <= c < |cs'| && cs'[c].parent.Some?
      ensures HalfOf(cs', cs'[c].parent.value, cs'[c].queue, cs'[c].base, Ids(cs'[c]))
    {
      HalfStays(db, db', cs[c].parent.value, cs[c].queue, cs[c].base, Ids(cs[c]));
    }
  }

  lemma StillExpecting(db: Db, db': Db, q: Queue, phase: Phase)
    requires SameRows(db, db') && Expecting(db, q, phase)
    ensures Expecting(db', q, phase)
  {
    if phase.Opening? && phase.parent.Some? {
      HalfStays(db, db', phase.parent.value, q, phase.base, PickIds(phase.batch));
    }
  }

  /** One process moved on, to something that is not opening a child. */
  lemma StaysLined(w: World, w': World, p: Pid)
    requires Lined(w) && SameRows(w.db, w'.db)
    requires forall o :: Ticks(w', o) && o != p ==> Ticks(w, o) && w'.procs[o] == w.procs[o]
    requires Ticks(w', p) && w'.procs[p].phase.Opening? && w'.procs[p].phase.parent.Some? ==>
               Ticks(w, p) && w'.procs[p].queue == w.procs[p].queue && w'.procs[p].phase == w.procs[p].phase
    ensures Lined(w')
  {
    StaysLineal(w.db, w'.db);
    forall o | Ticks(w', o) ensures Expecting(w'.db, w'.procs[o].queue, w'.procs[o].phase) {
      if Ticks(w, o) { StillExpecting(w.db, w'.db, w.procs[o].queue, w.procs[o].phase); }
    }
  }

  // ----- the two halves of a split

  /** No candidate in flight has a child: parents have failed. */
  lemma ActiveIsChildless(cs: seq<CandidateRow>, c: CandidateId)
    requires Lineal(cs) && c < |cs| && cs[c].state.IsActive()
    ensures Childless(cs, c)
  {
  }

  lemma SplitHalves(db: Db, q: Queue, job: Job)
    requires TableInv(db) && PhaseFits(db, q, Discarding(job, true)) && db.candidates[job.candidate].base == job.base
    ensures var cs' := Abandoned(db, job.candidate, Failed).candidates;
            HalfOf(cs', job.candidate, q, job.base, PickIds(LeftHalf(job.picks)))
  {
    var c := job.candidate;
    assert Sound(db.entries, db.candidates[c]) && VerdictsFit(db.candidates[c]);
    LeftHalfIs(job.picks);
    assert Ids(Abandoned(db, c, Failed).candidates[c]) == Ids(db.candidates[c]);
  }

  lemma AbandonSame(db: Db, q: Queue, job: Job, split: bool)
    requires TableInv(db) && PhaseFits(db, q, Discarding(job, split))
    ensures SameRows(db, Abandoned(db, job.candidate, if split then Failed else Superseded))
  {
    AbandonedFits(db, q, job, split);
  }

  /** A split leaves the others what they expect, and the splitter what it is about to open. */
  lemma SplitLined(env: Env, w: World, w': World, p: Pid, q: Queue, job: Job)
    requires Sane(w) && SafeWorld(env, w) && Lined(w) && w' == StepStoreAbandon(w, p)
    requires Ticks(w, p) && w.procs[p].queue == q && w.procs[p].phase == Discarding(job, true)
    ensures Lined(w')
  {
    assert ProcSafe(env, w, p);
    AbandonSame(w.db, q, job, true);
    SplitHalves(w.db, q, job);
    ActiveIsChildless(w.db.candidates, job.candidate);
    StaysLineal(w.db, w'.db);
    forall o | Ticks(w', o) && o != p ensures Expecting(w'.db, w'.procs[o].queue, w'.procs[o].phase) {
      StillExpecting(w.db, w'.db, w.procs[o].queue, w.procs[o].phase);
    }
  }

  lemma AbandonLined(env: Env, w: World, p: Pid)
    requires Sane(w) && SafeWorld(env, w) && Lined(w)
    ensures Lined(StepStoreAbandon(w, p))
  {
    if Ticks(w, p) && w.procs[p].phase.Discarding? {
      var w', q, job, split := StepStoreAbandon(w, p), w.procs[p].queue, w.procs[p].phase.job, w.procs[p].phase.split;
      if split {
        SplitLined(env, w, w', p, q, job);
      } else {
        AbandonSame(w.db, q, job, false);
        StaysLined(w, w', p);
      }
    }
  }

  /** A new row at the end: the parent it names, if any, was childless and is halved by it. */
  lemma OpenedLineal(db: Db, q: Queue, base: Sha, batch: seq<EntryId>, parent: Option<CandidateId>)
    requires Lineal(db.candidates)
    requires parent.Some? ==>
               HalfOf(db.candidates, parent.value, q, base, batch) && Childless(db.candidates, parent.value)
    ensures Lineal(Opened(db, q, base, batch, parent).candidates)
  {
    var cs, cs' := db.candidates, Opened(db, q, base, batch, parent).candidates;
    assert Ids(cs'[|cs|]) == batch;
    forall c | 0 <= c < |cs'| && cs'[c].parent.Some?
      ensures HalfOf(cs', cs'[c].parent.value, cs'[c].queue, cs'[c].base, Ids(cs'[c]))
    {
      assert c < |cs| ==> HalfOf(cs, cs[c].parent.value, cs[c].queue, cs[c].base, Ids(cs[c]));
    }
  }

  lemma OtherStillExpecting(db: Db, q: Queue, base: Sha, batch: seq<EntryId>, parent: Option<CandidateId>, r: Queue,
                            phase: Phase)
    requires Expecting(db, r, phase) && r != q
    requires parent.Some? ==> HalfOf(db.candidates, parent.value, q, base, batch)
    ensures Expecting(Opened(db, q, base, batch, parent), r, phase)
  {
  }

  lemma OpenLined(w: World, p: Pid)
    requires Sane(w) && Lined(w)
    ensures Lined(StepOpen(w, p))
  {
    if Ticks(w, p) && w.procs[p].phase.Opening? {
      var w', q, phase := StepOpen(w, p), w.procs[p].queue, w.procs[p].phase;
      if MayOpen(w.db, PickIds(phase.batch), phase.parent) {
        OpenedLineal(w.db, q, phase.base, PickIds(phase.batch), phase.parent);
        forall o | Ticks(w', o) && o != p ensures Expecting(w'.db, w'.procs[o].queue, w'.procs[o].phase) {
          OtherStillExpecting(w.db, q, phase.base, PickIds(phase.batch), phase.parent, w.procs[o].queue,
                              w.procs[o].phase);
        }
      } else {
        SameIsSame(w.db);
        StaysLined(w, w', p);
      }
    }
  }

  lemma SameIsSame(db: Db)
    ensures SameRows(db, db)
  {
  }

  // ----- every other step

  lemma AcquireSame(env: Env, w: World, p: Pid, gone: bool, token: Token)
    requires RowsEvolve(w.db, StepAcquire(env, w, p, gone, token).db)
    ensures SameRows(w.db, StepAcquire(env, w, p, gone, token).db)
  {
    if p in w.procs && w.procs[p].Asking? { ReclaimWrites(w.db, w.procs[p].queue); }
  }

  lemma TestingSame(w: World, p: Pid)
    requires RowsEvolve(w.db, StepMarkTesting(w, p).db)
    ensures SameRows(w.db, StepMarkTesting(w, p).db)
  {
    if Ticks(w, p) && w.procs[p].phase.Assembling? && w.procs[p].phase.tips != [] {
      var phase := w.procs[p].phase;
      CloseWrites(w.db, phase.job.candidate, Failed, phase.tips[|phase.tips| - 1]);
    }
  }

  lemma ClosingSame(env: Env, w: World, p: Pid, act: Action)
    requires act.MarkTesting? || act.StoreLand? || act.StoreBlame?
    requires RowsEvolve(w.db, StepBy(env, w, p, act).db)
    ensures SameRows(w.db, StepBy(env, w, p, act).db)
  {
    if act.MarkTesting? {
      TestingSame(w, p);
    } else if Ticks(w, p) {
      var phase := w.procs[p].phase;
      if act.StoreLand? && phase.Moved? {
        CloseWrites(w.db, phase.job.candidate, Failed, 0);
      } else if act.StoreBlame? && phase.Blaming? {
        BlameWrites(w.db, phase.job.candidate, phase.culprit, phase.job.config.maxAttempts, phase.fault);
      }
    }
  }

  lemma BySame(env: Env, w: World, p: Pid, act: Action)
    requires !act.Open? && !act.StoreAbandon? && RowsEvolve(w.db, StepBy(env, w, p, act).db)
    ensures SameRows(w.db, StepBy(env, w, p, act).db)
  {
    match act {
      case Acquire(gone, token) => AcquireSame(env, w, p, gone, token);
      case MarkTesting => ClosingSame(env, w, p, act);
      case StoreLand => ClosingSame(env, w, p, act);
      case StoreBlame => ClosingSame(env, w, p, act);
      case _ => ReadsOnly(env, w, p, act);
    }
  }

  /** Only a split leads to opening a child. */
  ghost predicate OpensNoChild(w: World, w': World, p: Pid) {
    && (forall o :: Ticks(w', o) && o != p ==> Ticks(w, o) && w'.procs[o] == w.procs[o])
    && (Ticks(w', p) && w'.procs[p].phase.Opening? && w'.procs[p].phase.parent.Some? ==>
          Ticks(w, p) && w'.procs[p].queue == w.procs[p].queue && w'.procs[p].phase == w.procs[p].phase)
  }

  lemma PlainOpensNone(env: Env, w: World, p: Pid, act: Action)
    requires Edges(act) || Quiet(act)
    ensures OpensNoChild(w, StepBy(env, w, p, act), p)
  {
    if Edges(act) {
      EdgeIsAtEdge(env, w, p, act);
    } else {
      QuietIsQuiet(env, w, p, act);
      WorkIsWithinTick(env, w, p, act);
    }
  }

  lemma ChooseOpensNone(w: World, p: Pid)
    ensures OpensNoChild(w, StepChoose(w, p), p)
  {
  }

  lemma FastForwardOpensNone(w: World, p: Pid)
    ensures OpensNoChild(w, StepFastForward(w, p), p)
  {
  }

  lemma EndingOpensNone(env: Env, w: World, p: Pid, act: Action)
    requires act.StoreLand? || act.StoreBlame? || act.Announce?
    ensures OpensNoChild(w, StepBy(env, w, p, act), p)
  {
  }

  lemma OpensNone(env: Env, w: World, p: Pid, act: Action)
    requires !act.StoreAbandon?
    ensures OpensNoChild(w, StepBy(env, w, p, act), p)
  {
    match act {
      case Choose => ChooseOpensNone(w, p);
      case FastForward => FastForwardOpensNone(w, p);
      case StoreLand => EndingOpensNone(env, w, p, act);
      case StoreBlame => EndingOpensNone(env, w, p, act);
      case Announce => EndingOpensNone(env, w, p, act);
      case _ => PlainOpensNone(env, w, p, act);
    }
  }

  lemma ByLined(env: Env, w: World, p: Pid, act: Action)
    requires Sane(w) && SafeWorld(env, w) && Lined(w) && RowsEvolve(w.db, StepBy(env, w, p, act).db)
    ensures Lined(StepBy(env, w, p, act))
  {
    if act.Open? { OpenLined(w, p); }
    else if act.StoreAbandon? { AbandonLined(env, w, p); }
    else {
      BySame(env, w, p, act);
      OpensNone(env, w, p, act);
      StaysLined(w, StepBy(env, w, p, act), p);
    }
  }

  lemma HandSame(w: World, what: Happening)
    requires RowsEvolve(w.db, StepAround(w, what).db)
    ensures SameRows(w.db, StepAround(w, what).db)
  {
    if !what.OutsideMove? { Agreement.HandWrites(w, what); }
  }

  lemma AroundLined(w: World, what: Happening)
    requires Lined(w) && RowsEvolve(w.db, StepAround(w, what).db)
    ensures Lined(StepAround(w, what))
  {
    HandSame(w, what);
    StaysLined(w, StepAround(w, what), if what.Spawn? then what.pid else 0);
  }

  lemma {:induction false} RunLined(env: Env, w: World, events: seq<Event>)
    requires Initial(w) && DisciplinedRun(env, w, events)
    ensures Lined(Run(env, w, events))
  {
    if events != [] {
      var n := |events| - 1;
      var now := Run(env, w, events[..n]);
      RunLined(env, w, events[..n]);
      RunFits(env, w, events[..n]);
      RunSafe(env, w, events[..n]);
      StepFits(env, now, events[n]);
      match events[n] {
        case Around(what) => AroundLined(now, what);
        case By(p, act) => ByLined(env, now, p, act);
      }
    }
  }

  /**
   A candidate that names a parent is, in order and on the same base, the left
   half of a candidate of its queue that failed with no one blamed; and no
   candidate is the parent of two.
   */
  lemma ParentsWereSplit(env: Env, w: World, events: seq<Event>, c: CandidateId, p: CandidateId)
    requires Initial(w) && DisciplinedRun(env, w, events)
    requires var cs := Run(env, w, events).db.candidates; c < |cs| && cs[c].parent == Some(p)
    ensures var cs := Run(env, w, events).db.candidates;
            && HalfOf(cs, p, cs[c].queue, cs[c].base, Ids(cs[c]))
            && forall d :: 0 <= d < |cs| && cs[d].parent == Some(p) ==> d == c
  {
    RunLined(env, w, events);
  }
}
