/**
 The persisted tables and what each transaction makes of them.

 Row ids are handed out consecutively and no row is ever deleted, so a row's id
 is its index here. The rows joining a candidate to its entries live inside the
 candidate, and a row's position is its index.
 */
module Tables {
  import opened Vocabulary
  import opened States

  datatype EntryRow = EntryRow(
    queue: Queue, branch: string, sha: Sha, state: EntryState,
    attempts: nat, priority: int, reason: Option<string>)

  datatype Member = Member(entry: EntryId, outcome: Outcome)

  datatype CandidateRow = CandidateRow(
    queue: Queue, base: Sha, commit: Option<Sha>, state: CandidateState,
    parent: Option<CandidateId>, members: seq<Member>)

  datatype Db = Db(entries: seq<EntryRow>, candidates: seq<CandidateRow>)

  const REMOVED_BY_HAND := "removed by hand"
  const CONFLICTS := "conflicts with the base branch"
  const FAILED_ALONE := "failed the gate on its own"

  datatype Amendment = Applied | NotWaiting(state: EntryState) | Unknown

  function Ids(c: CandidateRow): (r: seq<EntryId>)
    ensures |r| == |c.members|
    ensures forall i :: 0 <= i < |r| ==> r[i] == c.members[i].entry
  {
    seq(|c.members|, i requires 0 <= i < |c.members| => c.members[i].entry)
  }

  predicate Holds(c: CandidateRow, e: EntryId) {
    e in Ids(c)
  }

  /** The unfinished candidate of a queue; the lowest id if there were several. */
  function ActiveFrom(cs: seq<CandidateRow>, q: Queue, from: nat): (r: Option<CandidateId>)
    requires from <= |cs|
    ensures r.Some? ==>
              && from <= r.value < |cs|
              && cs[r.value].queue == q && cs[r.value].state.IsActive()
              && forall c :: from <= c < r.value ==> !(cs[c].queue == q && cs[c].state.IsActive())
    ensures r.None? ==> forall c :: from <= c < |cs| ==> !(cs[c].queue == q && cs[c].state.IsActive())
    decreases |cs| - from
  {
    if from == |cs| then None
    else if cs[from].queue == q && cs[from].state.IsActive() then Some(from)
    else ActiveFrom(cs, q, from + 1)
  }

  function ActiveCandidate(db: Db, q: Queue): Option<CandidateId> {
    ActiveFrom(db.candidates, q, 0)
  }

  /** UPDATE entry SET state = to WHERE id IN ids (AND state = 'batched'). */
  function SetStates(es: seq<EntryRow>, ids: seq<EntryId>, onlyBatched: bool, to: EntryState): (r: seq<EntryRow>)
    ensures |r| == |es|
    ensures forall i :: 0 <= i < |es| ==>
              r[i] == if i in ids && (onlyBatched ==> es[i].state.Batched?) then es[i].(state := to) else es[i]
  {
    seq(|es|, i requires 0 <= i < |es| =>
      if i in ids && (onlyBatched ==> es[i].state.Batched?) then es[i].(state := to) else es[i])
  }

  function Fresh(ids: seq<EntryId>): (r: seq<Member>)
    ensures |r| == |ids|
    ensures forall i :: 0 <= i < |ids| ==> r[i] == Member(ids[i], Pending)
  {
    seq(|ids|, i requires 0 <= i < |ids| => Member(ids[i], Pending))
  }

  function Outcomes(ms: seq<Member>, f: EntryId -> Outcome): (r: seq<Member>)
    ensures |r| == |ms|
    ensures forall i :: 0 <= i < |ms| ==> r[i] == Member(ms[i].entry, f(ms[i].entry))
  {
    seq(|ms|, i requires 0 <= i < |ms| => Member(ms[i].entry, f(ms[i].entry)))
  }

  // ----- transactions

  predicate LiveIdentityTaken(es: seq<EntryRow>, q: Queue, branch: string, sha: Sha) {
    exists i :: 0 <= i < |es| && es[i].queue == q && es[i].branch == branch && es[i].sha == sha && es[i].state.IsLive()
  }

  /** Nothing is inserted when a live entry already has this identity. */
  function Enqueued(db: Db, q: Queue, branch: string, sha: Sha): Db {
    if LiveIdentityTaken(db.entries, q, branch, sha) then db
    else db.(entries := db.entries + [EntryRow(q, branch, sha, Queued, 0, 0, None)])
  }

  predicate Waits(db: Db, q: Queue, e: EntryId) {
    e < |db.entries| && db.entries[e].queue == q && db.entries[e].state.Queued?
  }

  function Amend(db: Db, q: Queue, e: EntryId): Amendment {
    if e >= |db.entries| || db.entries[e].queue != q then Unknown
    else if db.entries[e].state.Queued? then Applied
    else NotWaiting(db.entries[e].state)
  }

  function Dequeued(db: Db, q: Queue, e: EntryId): Db {
    if Waits(db, q, e) then
      db.(entries := db.entries[e := db.entries[e].(state := Evicted, reason := Some(REMOVED_BY_HAND))])
    else db
  }

  predicate WaitsHere(row: EntryRow, q: Queue) {
    row.queue == q && row.state.Queued?
  }

  /** MAX(priority) over the waiting rows of the queue, if there are any. */
  function MaxPriority(es: seq<EntryRow>, q: Queue): Option<int> {
    if es == [] then None else
      var n := |es| - 1;
      var top := MaxPriority(es[..n], q);
      if WaitsHere(es[n], q) && (top.None? || es[n].priority > top.value) then Some(es[n].priority) else top
  }

  /** COALESCE(MAX(priority), 0). */
  function TopPriority(es: seq<EntryRow>, q: Queue): int {
    var top := MaxPriority(es, q);
    if top.Some? then top.value else 0
  }

  lemma {:induction false} MaxPriorityIsMax(es: seq<EntryRow>, q: Queue)
    ensures var top := MaxPriority(es, q);
            && (forall i :: 0 <= i < |es| && WaitsHere(es[i], q) ==> top.Some? && es[i].priority <= top.value)
            && (top.Some? ==> exists i :: 0 <= i < |es| && WaitsHere(es[i], q) && es[i].priority == top.value)
  {
    if es != [] {
      var n := |es| - 1;
      MaxPriorityIsMax(es[..n], q);
      assert forall i :: 0 <= i < n ==> es[..n][i] == es[i];
    }
  }

  function Promoted(db: Db, q: Queue, e: EntryId): Db {
    if Waits(db, q, e) then
      db.(entries := db.entries[e := db.entries[e].(priority := TopPriority(db.entries, q) + 1)])
    else db
  }

  /** What makes the insertions of a new candidate succeed. */
  ghost predicate CanOpen(db: Db, batch: seq<EntryId>) {
    batch != [] && Distinct(batch) && forall e :: e in batch ==> e < |db.entries|
  }

  /** The candidate it was split from, if any, must exist too. */
  ghost predicate MayOpen(db: Db, batch: seq<EntryId>, parent: Option<CandidateId>) {
    CanOpen(db, batch) && (parent.Some? ==> parent.value < |db.candidates|)
  }

  function Opened(db: Db, q: Queue, base: Sha, batch: seq<EntryId>, parent: Option<CandidateId>): Db {
    Db(SetStates(db.entries, batch, false, Batched),
       db.candidates + [CandidateRow(q, base, None, Building, parent, Fresh(batch))])
  }

  function UnderTest(db: Db, c: CandidateId, commit: Sha): Db {
    if c < |db.candidates| then
      db.(candidates := db.candidates[c := db.candidates[c].(state := Testing, commit := Some(commit))])
    else db
  }

  function Landed(db: Db, c: CandidateId): Db {
    if c < |db.candidates| then
      var row := db.candidates[c];
      Db(SetStates(db.entries, Ids(row), false, Merged),
         db.candidates[c := row.(state := Passed, members := Outcomes(row.members, _ => Cleared))])
    else db
  }

  function Abandoned(db: Db, c: CandidateId, to: CandidateState): Db {
    if c < |db.candidates| then
      Db(SetStates(db.entries, Ids(db.candidates[c]), true, Queued),
         db.candidates[c := db.candidates[c].(state := to)])
    else db
  }

  /** Those among these that are batched. */
  function BatchedAmong(es: seq<EntryRow>, ids: seq<EntryId>): set<EntryId> {
    set e | e in ids && e < |es| && es[e].state.Batched?
  }

  /** How many rows abandoning a candidate puts back. */
  function PutBack(db: Db, c: CandidateId): nat {
    if c < |db.candidates| then |BatchedAmong(db.entries, Ids(db.candidates[c]))| else 0
  }

  predicate Evicts(db: Db, culprit: EntryId, maxAttempts: nat)
    requires culprit < |db.entries|
  {
    db.entries[culprit].attempts + 1 >= maxAttempts
  }

  /** What the culprit's row becomes. */
  function Charged(db: Db, culprit: EntryId, maxAttempts: nat, reason: string): EntryRow
    requires culprit < |db.entries|
  {
    var paid := db.entries[culprit].(attempts := db.entries[culprit].attempts + 1);
    if Evicts(db, culprit, maxAttempts) then paid.(state := Evicted, reason := Some(reason))
    else paid.(state := Queued)
  }

  /** Only the culprit's attempts go up; its companions wait again. */
  function Blamed(db: Db, c: CandidateId, culprit: EntryId, maxAttempts: nat, reason: string): Db {
    if culprit >= |db.entries| then db
    else if c >= |db.candidates| then db.(entries := db.entries[culprit := Charged(db, culprit, maxAttempts, reason)])
    else
      var row := db.candidates[c];
      Db(SetStates(db.entries, Ids(row), true, Queued)[culprit := Charged(db, culprit, maxAttempts, reason)],
         db.candidates[c := row.(
           state := CandidateState.Failed,
           members := Outcomes(row.members, e => if e == culprit then Culprit else Skipped))])
  }

  predicate Orphaned(db: Db, q: Queue, e: EntryId) {
    exists c :: 0 <= c < |db.candidates| && db.candidates[c].queue == q && db.candidates[c].state.IsActive()
      && Holds(db.candidates[c], e)
  }

  /** The entries a reclaim puts back and the candidates it supersedes. */
  ghost function Orphans(db: Db, q: Queue): set<EntryId> {
    set e: nat | e < |db.entries| && db.entries[e].state.Batched? && Orphaned(db, q, e)
  }

  ghost function Unfinished(db: Db, q: Queue): set<CandidateId> {
    set c: nat | c < |db.candidates| && db.candidates[c].queue == q && db.candidates[c].state.IsActive()
  }

  /** Nothing of the queue is in flight any more. */
  function Reclaimed(db: Db, q: Queue): Db {
    Db(seq(|db.entries|, i requires 0 <= i < |db.entries| =>
         if db.entries[i].state.Batched? && Orphaned(db, q, i) then db.entries[i].(state := Queued) else db.entries[i]),
       seq(|db.candidates|, c requires 0 <= c < |db.candidates| =>
         if db.candidates[c].queue == q && db.candidates[c].state.IsActive()
         then db.candidates[c].(state := Superseded) else db.candidates[c]))
  }
}
