/** The documented lifecycles and per-candidate outcomes. */
module States {

  datatype EntryState = Queued | Batched | Merged | Evicted {
    predicate IsTerminal() {
      Merged? || Evicted?
    }

    predicate IsLive() {
      Queued? || Batched?
    }

    predicate CanTransitionTo(next: EntryState) {
      match (this, next)
      case (Queued, Batched) => true
      case (Queued, Evicted) => true
      case (Batched, Queued) => true
      case (Batched, Merged) => true
      case (Batched, Evicted) => true
      case _ => false
    }
  }

  datatype CandidateState = Building | Testing | Passed | Failed | Superseded {
    predicate IsTerminal() {
      Passed? || Failed? || Superseded?
    }

    predicate IsActive() {
      Building? || Testing?
    }

    predicate CanTransitionTo(next: CandidateState) {
      match (this, next)
      case (Building, Testing) => true
      case (Building, Superseded) => true
      case (Testing, Passed) => true
      case (Testing, Failed) => true
      case (Testing, Superseded) => true
      case _ => false
    }
  }

  /** The verdict on a membership, as opposed to the state of an entry. */
  datatype Outcome = Pending | Cleared | Culprit | Skipped {
    predicate BurnsAttempt() {
      Culprit?
    }

    predicate CanTransitionTo(next: Outcome) {
      Pending? && !next.Pending?
    }
  }

  /**
   What waits can only be batched or evicted, a batched entry can go anywhere else,
   and nothing leaves the two ends.
   */
  lemma EntryTable(a: EntryState, b: EntryState)
    ensures a.CanTransitionTo(b) <==> a != b && a.IsLive() && !(a == Queued && b == Merged)
    ensures a.IsLive() <==> a == Queued || a == Batched
    ensures a.IsTerminal() <==> !a.IsLive()
  {
  }

  /** A verdict comes only out of testing, giving up comes any time before one, and nothing leaves the three ends. */
  lemma CandidateTable(a: CandidateState, b: CandidateState)
    ensures a.CanTransitionTo(b) <==>
              || (a == Building && b == Testing) || (a.IsActive() && b == Superseded)
              || (a == Testing && (b == Passed || b == Failed))
    ensures a.IsActive() <==> a == Building || a == Testing
    ensures a.IsTerminal() <==> !a.IsActive()
  {
  }
}
