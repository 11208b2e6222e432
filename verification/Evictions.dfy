/** In every run, whoever holds which lease: an evicted entry says why, and there are three reasons. */
module Evictions {
  import opened Vocabulary
  import opened States
  import opened Tables
  import opened Protocol

  predicate SaysWhy(row: EntryRow) {
    row.state.Evicted? ==>
      row.reason in {Some("removed by hand"), Some("conflicts with the base branch"),
          Some("failed the gate on its own")}
  }

  ghost predicate AllSayWhy(db: Db) {
    forall e :: 0 <= e < |db.entries| ==> SaysWhy(db.entries[e])
  }

  predicate Faults(phase: Phase) {
    phase.Blaming? ==> phase.fault in {"conflicts with the base branch", "failed the gate on its own"}
  }

  /** Every eviction on record is explained, and so will be those workers are about to make. */
  ghost predicate Justified(w: World) {
    AllSayWhy(w.db) && forall p :: Ticks(w, p) ==> Faults(w.procs[p].phase)
  }

  lemma OneMovedJustified(w: World, w': World, p: Pid)
    requires Justified(w) && AllSayWhy(w'.db)
    requires forall o :: o != p && Ticks(w', o) ==> Ticks(w, o) && w'.procs[o] == w.procs[o]
    requires Ticks(w', p) ==> Faults(w'.procs[p].phase)
    ensures Justified(w')
  {
  }

  // ----- what the transactions write

  lemma StatesSayWhy(es: seq<EntryRow>, ids: seq<EntryId>, onlyBatched: bool, to: EntryState)
    requires (forall e :: 0 <= e < |es| ==> SaysWhy(es[e])) && !to.Evicted?
    ensures var es' := SetStates(es, ids, onlyBatched, to); forall e :: 0 <= e < |es'| ==> SaysWhy(es'[e])
  {
  }

  lemma BlamedSaysWhy(db: Db, c: CandidateId, culprit: EntryId, maxAttempts: nat, fault: string)
    requires AllSayWhy(db) && fault in {"conflicts with the base branch", "failed the gate on its own"}
    ensures AllSayWhy(Blamed(db, c, culprit, maxAttempts, fault))
  {
    if c < |db.candidates| { StatesSayWhy(db.entries, Ids(db.candidates[c]), true, Queued); }
  }

  lemma AmendedSaysWhy(db: Db, q: Queue, e: EntryId)
    requires AllSayWhy(db)
    ensures AllSayWhy(Dequeued(db, q, e)) && AllSayWhy(Promoted(db, q, e))
  {
  }

  // ----- each event

  lemma AroundJustified(w: World, what: Happening)
    requires Justified(w)
    ensures Justified(StepAround(w, what))
  {
    if what.Dequeue? || what.Promote? { AmendedSaysWhy(w.db, what.queue, what.entry); }
    OneMovedJustified(w, StepAround(w, what), if what.Spawn? then what.pid else 0);
  }

  lemma AcquireJustified(env: Env, w: World, p: Pid, gone: bool, token: Token)
    requires Justified(w)
    ensures Justified(StepAcquire(env, w, p, gone, token))
  {
    EdgeIsAtEdge(env, w, p, Acquire(gone, token));
    if p in w.procs && w.procs[p].Asking? { ReclaimedSaysWhy(w.db, w.procs[p].queue); }
    OneMovedJustified(w, StepAcquire(env, w, p, gone, token), p);
  }

  lemma ReclaimedSaysWhy(db: Db, q: Queue)
    requires AllSayWhy(db)
    ensures AllSayWhy(Reclaimed(db, q))
  {
  }

  lemma EdgeJustified(env: Env, w: World, p: Pid, act: Action)
    requires Justified(w) && Edges(act)
    ensures Justified(StepBy(env, w, p, act))
  {
    if act.Acquire? {
      AcquireJustified(env, w, p, act.gone, act.token);
    } else {
      EdgeIsAtEdge(env, w, p, act);
      EdgeKeepsTables(env, w, p, act);
      OneMovedJustified(w, StepBy(env, w, p, act), p);
    }
  }

  lemma OpenJustified(w: World, p: Pid)
    requires Justified(w)
    ensures Justified(StepOpen(w, p))
  {
    if Ticks(w, p) && w.procs[p].phase.Opening? {
      StatesSayWhy(w.db.entries, PickIds(w.procs[p].phase.batch), false, Batched);
      OneMovedJustified(w, StepOpen(w, p), p);
    }
  }

  lemma LandJustified(w: World, p: Pid)
    requires Justified(w)
    ensures Justified(StepStoreLand(w, p))
  {
    if Ticks(w, p) && w.procs[p].phase.Moved? {
      var c := w.procs[p].phase.job.candidate;
      if c < |w.db.candidates| { StatesSayWhy(w.db.entries, Ids(w.db.candidates[c]), false, EntryState.Merged); }
      OneMovedJustified(w, StepStoreLand(w, p), p);
    }
  }

  lemma AbandonJustified(w: World, p: Pid)
    requires Justified(w)
    ensures Justified(StepStoreAbandon(w, p))
  {
    if Ticks(w, p) && w.procs[p].phase.Discarding? {
      var c := w.procs[p].phase.job.candidate;
      if c < |w.db.candidates| { StatesSayWhy(w.db.entries, Ids(w.db.candidates[c]), true, Queued); }
      OneMovedJustified(w, StepStoreAbandon(w, p), p);
    }
  }

  lemma BlameJustified(w: World, p: Pid)
    requires Justified(w)
    ensures Justified(StepStoreBlame(w, p))
  {
    if Ticks(w, p) && w.procs[p].phase.Blaming? {
      var phase := w.procs[p].phase;
      BlamedSaysWhy(w.db, phase.job.candidate, phase.culprit, phase.job.config.maxAttempts, phase.fault);
      OneMovedJustified(w, StepStoreBlame(w, p), p);
    }
  }

  /** The steps of a tick that write no entry. */
  predicate LeavesEntries(act: Action) {
    Chooses(act) || Assembles(act) || Gates(act) || act.FastForward? || act.Decide? || act.Announce?
  }

  lemma BuildFaults(env: Env, w: World, p: Pid, act: Action)
    requires Justified(w) && (Chooses(act) || Assembles(act))
    ensures var w' := StepBy(env, w, p, act);
            w'.db.entries == w.db.entries && (Ticks(w', p) ==> Faults(w'.procs[p].phase))
  {
  }

  lemma GateFaults(env: Env, w: World, p: Pid, act: Action)
    requires Justified(w) && Gates(act)
    ensures var w' := StepBy(env, w, p, act);
            w'.db.entries == w.db.entries && (Ticks(w', p) ==> Faults(w'.procs[p].phase))
  {
  }

  lemma FastForwardFaults(w: World, p: Pid)
    requires Justified(w)
    ensures var w' := StepFastForward(w, p);
            w'.db.entries == w.db.entries && (Ticks(w', p) ==> Faults(w'.procs[p].phase))
  {
  }

  lemma CloseFaults(env: Env, w: World, p: Pid, act: Action)
    requires Justified(w) && (act.Decide? || act.Announce?)
    ensures var w' := StepBy(env, w, p, act);
            w'.db.entries == w.db.entries && (Ticks(w', p) ==> Faults(w'.procs[p].phase))
  {
  }

  lemma WorkJustified(env: Env, w: World, p: Pid, act: Action)
    requires Justified(w) && LeavesEntries(act)
    ensures Justified(StepBy(env, w, p, act))
  {
    if Chooses(act) || Assembles(act) { BuildFaults(env, w, p, act); }
    else if Gates(act) { GateFaults(env, w, p, act); }
    else if act.FastForward? { FastForwardFaults(w, p); }
    else { CloseFaults(env, w, p, act); }
    WorkIsWithinTick(env, w, p, act);
    OneMovedJustified(w, StepBy(env, w, p, act), p);
  }

  lemma StepJustified(env: Env, w: World, e: Event)
    requires Justified(w)
    ensures Justified(Step(env, w, e))
  {
    match e {
      case Around(what) => AroundJustified(w, what);
      case By(p, act) =>
        if Edges(act) { EdgeJustified(env, w, p, act); }
        else if act.Open? { OpenJustified(w, p); }
        else if act.StoreLand? { LandJustified(w, p); }
        else if act.StoreAbandon? { AbandonJustified(w, p); }
        else if act.StoreBlame? { BlameJustified(w, p); }
        else { WorkJustified(env, w, p, act); }
    }
  }

  /** An entry is out for being removed by hand, for conflicting or for failing alone, and its row says which. */
  lemma {:induction false} EvictedForAReason(env: Env, w: World, events: seq<Event>)
    requires Initial(w)
    ensures Justified(Run(env, w, events))
  {
    if events != [] {
      var n := |events| - 1;
      EvictedForAReason(env, w, events[..n]);
      StepJustified(env, Run(env, w, events[..n]), events[n]);
    }
  }
}
