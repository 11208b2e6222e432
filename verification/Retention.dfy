/**
 Applying the log budget. Each removal is two writes, the row first and then the
 file, and the process may end between any two of them.
 */
module Retention {
  import opened Vocabulary
  import opened Logs
  import Bytes

  const RETAINED_TAIL_LINES: nat := 40

  /** A row of the run table and whether its candidate has settled. */
  datatype RunRow = RunRow(queue: Queue, candidate: nat, settled: bool, passed: bool, path: Option<string>,
                           tail: Option<string>)

  datatype File = File(bytes: nat, text: string)

  datatype Disk = Disk(runs: seq<RunRow>, files: map<string, File>)

  function TailText(file: File): string {
    Join(LastOf(LinesOf(file.text), RETAINED_TAIL_LINES))
  }

  // ----- what may be pruned

  predicate Offered(row: RunRow, q: Queue) {
    row.queue == q && row.settled && row.path.Some?
  }

  function LogOf(disk: Disk, r: nat): LogFile
    requires r < |disk.runs| && disk.runs[r].path.Some? && disk.runs[r].path.value in disk.files
  {
    var row := disk.runs[r];
    LogFile(r, row.candidate, row.path.value, disk.files[row.path.value].bytes, row.passed)
  }

  predicate Present(disk: Disk, q: Queue, r: nat) {
    r < |disk.runs| && Offered(disk.runs[r], q) && disk.runs[r].path.value in disk.files
  }

  /** The settled logs that are there, by run. */
  function Found(disk: Disk, q: Queue, upTo: nat): (logs: seq<LogFile>)
    requires upTo <= |disk.runs|
    ensures forall log :: log in logs <==> log.run < upTo && Present(disk, q, log.run) && log == LogOf(disk, log.run)
    ensures RunsDistinct(logs)
  {
    if upTo == 0 then []
    else
      var before := Found(disk, q, upTo - 1);
      assert forall i :: 0 <= i < |before| ==> before[i] in before;
      if Present(disk, q, upTo - 1) then before + [LogOf(disk, upTo - 1)] else before
  }

  /** The first n rows of logs that are gone say so. */
  function SurveyedTo(disk: Disk, q: Queue, n: nat): (r: Disk)
    ensures r.files == disk.files && |r.runs| == |disk.runs|
    ensures forall i :: 0 <= i < |r.runs| ==>
              r.runs[i] == if i < n && Offered(disk.runs[i], q) && disk.runs[i].path.value !in disk.files
                           then disk.runs[i].(path := None, tail := None) else disk.runs[i]
  {
    disk.(runs := seq(|disk.runs|, i requires 0 <= i < |disk.runs| =>
      if i < n && Offered(disk.runs[i], q) && disk.runs[i].path.value !in disk.files
      then disk.runs[i].(path := None, tail := None) else disk.runs[i]))
  }

  function Reconciled(disk: Disk, q: Queue): (r: Disk)
    ensures r.files == disk.files && |r.runs| == |disk.runs|
    ensures forall i :: 0 <= i < |r.runs| ==>
              r.runs[i] == if Offered(disk.runs[i], q) && disk.runs[i].path.value !in disk.files
                           then disk.runs[i].(path := None, tail := None) else disk.runs[i]
  {
    SurveyedTo(disk, q, |disk.runs|)
  }

  // ----- one removal, one write at a time

  function TailFor(disk: Disk, removal: Removal, unreadable: set<string>): Option<string> {
    var path := removal.log.path;
    if removal.because.OverBudget? && path in disk.files && path !in unreadable
    then Some(TailText(disk.files[path]))
    else None
  }

  function RowWritten(disk: Disk, removal: Removal, unreadable: set<string>): Disk {
    var r := removal.log.run;
    if r < |disk.runs| then
      disk.(runs := disk.runs[r := disk.runs[r].(path := None, tail := TailFor(disk, removal, unreadable))])
    else disk
  }

  function FileGone(disk: Disk, removal: Removal): Disk {
    disk.(files := disk.files - {removal.log.path})
  }

  /** After n whole removals, and the row of the next one if `written`. */
  function After(disk: Disk, removes: seq<Removal>, n: nat, written: bool, unreadable: set<string>): Disk
    requires n <= |removes| && (written ==> n < |removes|)
    decreases n, written
  {
    if written then RowWritten(After(disk, removes, n, false, unreadable), removes[n], unreadable)
    else if n == 0 then disk
    else FileGone(After(disk, removes, n - 1, true, unreadable), removes[n - 1])
  }

  /** Distinct runs, each with the row and the file it was found with. */
  ghost predicate Removable(disk: Disk, removes: seq<Removal>) {
    && (forall i, j :: 0 <= i < j < |removes| ==> removes[i].log.run != removes[j].log.run)
    && forall i :: 0 <= i < |removes| ==>
         var log := removes[i].log;
         log.run < |disk.runs| && disk.runs[log.run].path == Some(log.path) && log.path in disk.files
  }

  /** One of the first n removals took this file. */
  ghost predicate GoneBy(removes: seq<Removal>, path: string, n: nat) {
    exists i :: 0 <= i < n && i < |removes| && removes[i].log.path == path
  }

  lemma {:induction false} FilesAfter(disk: Disk, removes: seq<Removal>, n: nat, written: bool, unreadable: set<string>)
    requires n <= |removes| && (written ==> n < |removes|)
    ensures var now := After(disk, removes, n, written, unreadable);
            && |now.runs| == |disk.runs|
            && (forall p :: p in now.files <==> p in disk.files && !GoneBy(removes, p, n))
            && (forall p :: p in now.files && p in disk.files ==> now.files[p] == disk.files[p])
    decreases n, written
  {
    if written {
      FilesAfter(disk, removes, n, false, unreadable);
    } else if n > 0 {
      FilesAfter(disk, removes, n - 1, true, unreadable);
      forall p ensures GoneBy(removes, p, n) <==> GoneBy(removes, p, n - 1) || removes[n - 1].log.path == p {}
    }
  }

  /** What a removal leaves on its row: nothing if an earlier one had already taken the file. */
  ghost function Remembered(disk: Disk, removes: seq<Removal>, i: nat, unreadable: set<string>): Option<string>
    requires i < |removes|
  {
    if GoneBy(removes, removes[i].log.path, i) then None else TailFor(disk, removes[i], unreadable)
  }

  /** The row of removal i. */
  ghost function RowAt(disk: Disk, removes: seq<Removal>, i: nat, n: nat, written: bool,
                       unreadable: set<string>): RunRow
    requires i < |removes| && removes[i].log.run < |disk.runs|
  {
    var row := disk.runs[removes[i].log.run];
    if i < n || (i == n && written) then row.(path := None, tail := Remembered(disk, removes, i, unreadable)) else row
  }

  ghost predicate Removes(removes: seq<Removal>, r: nat) {
    exists i :: 0 <= i < |removes| && removes[i].log.run == r
  }

  /** The rows of finished removals are cleared and no other row has changed. */
  ghost predicate RowsAre(disk: Disk, removes: seq<Removal>, n: nat, written: bool, unreadable: set<string>,
                          runs: seq<RunRow>)
    requires Removable(disk, removes)
  {
    && |runs| == |disk.runs|
    && (forall i :: 0 <= i < |removes| ==> runs[removes[i].log.run] == RowAt(disk, removes, i, n, written, unreadable))
    && (forall r :: 0 <= r < |disk.runs| && !Removes(removes, r) ==> runs[r] == disk.runs[r])
  }

  lemma RowStep(disk: Disk, removes: seq<Removal>, n: nat, unreadable: set<string>, runs: seq<RunRow>)
    requires Removable(disk, removes) && n < |removes| && RowsAre(disk, removes, n, false, unreadable, runs)
    ensures RowsAre(disk, removes, n, true, unreadable,
                    runs[removes[n].log.run := RowAt(disk, removes, n, n, true, unreadable)])
  {
    var runs' := runs[removes[n].log.run := RowAt(disk, removes, n, n, true, unreadable)];
    forall j | 0 <= j < |removes| ensures runs'[removes[j].log.run] == RowAt(disk, removes, j, n, true, unreadable) {
      if j != n { assert removes[j].log.run != removes[n].log.run; }
    }
    assert Removes(removes, removes[n].log.run);
  }

  lemma NextRow(disk: Disk, removes: seq<Removal>, n: nat, unreadable: set<string>)
    requires n < |removes| && Removable(disk, removes)
    requires RowsAre(disk, removes, n, false, unreadable, After(disk, removes, n, false, unreadable).runs)
    ensures RowsAre(disk, removes, n, true, unreadable, After(disk, removes, n, true, unreadable).runs)
  {
    var was := After(disk, removes, n, false, unreadable);
    FilesAfter(disk, removes, n, false, unreadable);
    assert TailFor(was, removes[n], unreadable) == Remembered(disk, removes, n, unreadable);
    RowStep(disk, removes, n, unreadable, was.runs);
    assert RowWritten(was, removes[n], unreadable).runs
        == was.runs[removes[n].log.run := RowAt(disk, removes, n, n, true, unreadable)];
  }

  lemma {:induction false} RowsAfter(disk: Disk, removes: seq<Removal>, n: nat, written: bool, unreadable: set<string>)
    requires n <= |removes| && (written ==> n < |removes|) && Removable(disk, removes)
    ensures RowsAre(disk, removes, n, written, unreadable, After(disk, removes, n, written, unreadable).runs)
    decreases n, written
  {
    if written {
      RowsAfter(disk, removes, n, false, unreadable);
      NextRow(disk, removes, n, unreadable);
    } else if n > 0 {
      RowsAfter(disk, removes, n - 1, true, unreadable);
      SameRows(disk, removes, n, unreadable, After(disk, removes, n - 1, true, unreadable).runs);
    }
  }

  /** Deleting a file changes no row. */
  lemma SameRows(disk: Disk, removes: seq<Removal>, n: nat, unreadable: set<string>, runs: seq<RunRow>)
    requires 0 < n <= |removes| && Removable(disk, removes) && RowsAre(disk, removes, n - 1, true, unreadable, runs)
    ensures RowsAre(disk, removes, n, false, unreadable, runs)
  {
    forall i | 0 <= i < |removes|
      ensures RowAt(disk, removes, i, n, false, unreadable) == RowAt(disk, removes, i, n - 1, true, unreadable)
    {
    }
  }

  // ----- what holds at every point of a prune

  lemma PlannedIsRemovable(disk: Disk, q: Queue, budget: nat)
    ensures Removable(Reconciled(disk, q), Planned(Found(disk, q, |disk.runs|), budget).remove)
  {
    var found := Found(disk, q, |disk.runs|);
    var plan := Planned(found, budget);
    GoneAreDistinct(found, budget);
    forall i | 0 <= i < |plan.remove| ensures plan.remove[i].log in found {
      assert Gone(plan)[i] in Gone(plan);
      GoneIsFound(found, budget, Gone(plan)[i]);
    }
    assert forall i :: 0 <= i < |plan.remove| ==> Gone(plan)[i] == plan.remove[i].log;
  }

  lemma GoneIsFound(logs: seq<LogFile>, budget: nat, log: LogFile)
    requires log in Gone(Planned(logs, budget))
    ensures log in logs
  {
    PlanIsExact(logs, budget);
    assert log in multiset(Gone(Planned(logs, budget)));
    assert log in multiset(logs);
  }

  lemma JoinedAreDistinct(some: seq<LogFile>, others: seq<LogFile>, n: nat)
    requires RunsDistinct(some) && RunsDistinct(others) && n <= |others|
    requires forall x, y | x in some && y in others :: x.run != y.run
    ensures RunsDistinct(some + others[..n])
  {
    var joined := some + others[..n];
    forall i, j | 0 <= i < j < |joined| ensures joined[i].run != joined[j].run {
      if i < |some| <= j {
        assert joined[i] in some && others[j - |some|] in others;
      }
    }
  }

  /** Passing logs come first, then failures by age: no run twice. */
  lemma GoneAreDistinct(logs: seq<LogFile>, budget: nat)
    requires RunsDistinct(logs)
    ensures RunsDistinct(Gone(Planned(logs, budget)))
  {
    var passed, aged := Those(logs, true), Aged(Those(logs, false));
    PartsAreDistinct(logs, true, 0);
    PartsAreDistinct(logs, false, 0);
    AgedIsDistinct(Those(logs, false));
    GoneIs(logs, budget);
    forall x, y | x in passed && y in aged ensures x.run != y.run {
      assert x in logs && y in logs && x != y;
    }
    JoinedAreDistinct(passed, aged, Excess(aged, budget));
  }

  /** No two rows name one file. */
  ghost predicate PathsDistinct(disk: Disk) {
    forall r, s :: 0 <= r < s < |disk.runs| && disk.runs[r].path.Some? ==> disk.runs[r].path != disk.runs[s].path
  }

  /** No row names a file the prune deleted, and a deleted failure's last lines are on its row. */
  ghost predicate Explained(was: Disk, now: Disk, unreadable: set<string>) {
    && |now.runs| == |was.runs|
    && (forall r :: 0 <= r < |now.runs| && now.runs[r].path.Some? && now.runs[r].path.value in was.files ==>
          now.runs[r].path.value in now.files)
    && (forall r :: 0 <= r < |was.runs| && was.runs[r].path.Some? && !was.runs[r].passed ==>
          var path := was.runs[r].path.value;
          path in was.files && path !in now.files && path !in unreadable ==>
              now.runs[r].tail == Some(TailText(was.files[path])))
  }

  /** What a prune decides to remove. */
  function Chosen(disk: Disk, q: Queue, budget: nat): seq<Removal> {
    Planned(Found(disk, q, |disk.runs|), budget).remove
  }

  /** Where a prune has got to. */
  function Midway(disk: Disk, q: Queue, budget: nat, n: nat, written: bool, unreadable: set<string>): Disk
    requires n <= |Chosen(disk, q, budget)| && (written ==> n < |Chosen(disk, q, budget)|)
  {
    After(Reconciled(disk, q), Chosen(disk, q, budget), n, written, unreadable)
  }

  /** Tails are for failures. */
  lemma FailuresAreExplained(disk: Disk, q: Queue, budget: nat, i: nat)
    requires i < |Chosen(disk, q, budget)|
    ensures var removal := Chosen(disk, q, budget)[i];
            && removal.log.run < |disk.runs| && (removal.because.OverBudget? <==> !disk.runs[removal.log.run].passed)
            && disk.runs[removal.log.run].path == Some(removal.log.path)
  {
    WhyGone(Found(disk, q, |disk.runs|), budget, i);
  }

  lemma OwnerOfPath(disk: Disk, q: Queue, budget: nat, r: nat, path: string, n: nat) returns (i: nat)
    requires PathsDistinct(disk) && r < |disk.runs| && disk.runs[r].path == Some(path)
    requires n <= |Chosen(disk, q, budget)| && GoneBy(Chosen(disk, q, budget), path, n)
    ensures i < n && Chosen(disk, q, budget)[i].log.run == r && Chosen(disk, q, budget)[i].log.path == path
    ensures !GoneBy(Chosen(disk, q, budget), path, i)
  {
    var removes := Chosen(disk, q, budget);
    i :| 0 <= i < n && removes[i].log.path == path;
    FailuresAreExplained(disk, q, budget, i);
    forall j | 0 <= j < i ensures removes[j].log.path != path {
      PlannedIsRemovable(disk, q, budget);
      FailuresAreExplained(disk, q, budget, j);
    }
  }

  lemma ExplainedMidway(disk: Disk, q: Queue, budget: nat, n: nat, written: bool, unreadable: set<string>)
    requires PathsDistinct(disk) && n <= |Chosen(disk, q, budget)| && (written ==> n < |Chosen(disk, q, budget)|)
    ensures Explained(disk, Midway(disk, q, budget, n, written, unreadable), unreadable)
  {
    var start, removes, now := Reconciled(disk, q), Chosen(disk, q, budget),
        Midway(disk, q, budget, n, written, unreadable);
    PlannedIsRemovable(disk, q, budget);
    RowsAfter(start, removes, n, written, unreadable);
    FilesAfter(start, removes, n, written, unreadable);
    forall r | 0 <= r < |now.runs| && now.runs[r].path.Some? && now.runs[r].path.value in disk.files
      ensures now.runs[r].path.value in now.files
    {
      var path := now.runs[r].path.value;
      PathsOnlyGo(start, removes, n, written, unreadable, now.runs, r);
      if GoneBy(removes, path, n) {
        var i := OwnerOfPath(disk, q, budget, r, path, n);
      }
    }
    forall r | 0 <= r < |disk.runs| && disk.runs[r].path.Some? && !disk.runs[r].passed
      && disk.runs[r].path.value in disk.files && disk.runs[r].path.value !in now.files
      && disk.runs[r].path.value !in unreadable
      ensures now.runs[r].tail == Some(TailText(disk.files[disk.runs[r].path.value]))
    {
      var i := OwnerOfPath(disk, q, budget, r, disk.runs[r].path.value, n);
      FailuresAreExplained(disk, q, budget, i);
      assert now.runs[r] == RowAt(start, removes, i, n, written, unreadable);
    }
  }

  /** A row that still names a file has not been touched. */
  lemma PathsOnlyGo(disk: Disk, removes: seq<Removal>, n: nat, written: bool, unreadable: set<string>,
                    runs: seq<RunRow>, r: nat)
    requires Removable(disk, removes) && RowsAre(disk, removes, n, written, unreadable, runs)
    requires r < |runs| && runs[r].path.Some?
    ensures runs[r] == disk.runs[r] && forall i :: 0 <= i < n && i < |removes| ==> removes[i].log.run != r
  {
    forall i | 0 <= i < |removes| && removes[i].log.run == r
      ensures runs[r] == RowAt(disk, removes, i, n, written, unreadable)
    {
    }
  }

  /** How far a prune has got: so many rows looked at, or so many removals made and perhaps the next one's row. */
  datatype Point = Surveying(rows: nat) | Removing(n: nat, written: bool)

  predicate Possible(disk: Disk, q: Queue, budget: nat, at: Point) {
    at.Removing? ==> at.n <= |Chosen(disk, q, budget)| && (at.written ==> at.n < |Chosen(disk, q, budget)|)
  }

  function PruneAt(disk: Disk, q: Queue, budget: nat, at: Point, unreadable: set<string>): Disk
    requires Possible(disk, q, budget, at)
  {
    match at
    case Surveying(rows) => SurveyedTo(disk, q, rows)
    case Removing(n, written) => Midway(disk, q, budget, n, written, unreadable)
  }

  /**
   With a file to each row, no point between two writes of a prune leaves a row
   naming a file it deleted, or a deleted failure unexplained.
   */
  lemma ExplainedThroughout(disk: Disk, q: Queue, budget: nat, at: Point, unreadable: set<string>)
    requires PathsDistinct(disk) && Possible(disk, q, budget, at)
    ensures Explained(disk, PruneAt(disk, q, budget, at, unreadable), unreadable)
  {
    if at.Removing? { ExplainedMidway(disk, q, budget, at.n, at.written, unreadable); }
  }

  // ----- a finished prune

  function Finished(disk: Disk, q: Queue, budget: nat, unreadable: set<string>): Disk {
    Midway(disk, q, budget, |Chosen(disk, q, budget)|, false, unreadable)
  }

  lemma FinishedRows(disk: Disk, q: Queue, budget: nat, unreadable: set<string>, r: nat)
    requires r < |disk.runs|
    ensures var start, removes, end := Reconciled(disk, q), Chosen(disk, q, budget),
            Finished(disk, q, budget, unreadable);
            && |end.runs| == |disk.runs|
            && (Removes(removes, r) ==> end.runs[r].path.None?)
            && (!Removes(removes, r) ==> end.runs[r] == start.runs[r])
  {
    var start, removes, end := Reconciled(disk, q), Chosen(disk, q, budget), Finished(disk, q, budget, unreadable);
    PlannedIsRemovable(disk, q, budget);
    RowsAfter(start, removes, |removes|, false, unreadable);
    if Removes(removes, r) {
      var i :| 0 <= i < |removes| && removes[i].log.run == r;
      assert end.runs[r] == RowAt(start, removes, i, |removes|, false, unreadable);
    }
  }

  lemma RemovesIffGone(disk: Disk, q: Queue, budget: nat, r: nat)
    requires Present(disk, q, r)
    ensures Removes(Chosen(disk, q, budget), r) <==>
              LogOf(disk, r) in Gone(Planned(Found(disk, q, |disk.runs|), budget))
  {
    var found := Found(disk, q, |disk.runs|);
    var gone, removes := Gone(Planned(found, budget)), Chosen(disk, q, budget);
    if i :| 0 <= i < |removes| && removes[i].log.run == r {
      WhyGone(found, budget, i);
      assert gone[i] == LogOf(disk, r);
    }
    if i :| 0 <= i < |gone| && gone[i] == LogOf(disk, r) { assert removes[i].log.run == r; }
  }

  /** With a file to each row, a log is still there when its own row was not removed. */
  lemma StillPresent(disk: Disk, q: Queue, budget: nat, unreadable: set<string>, r: nat)
    requires PathsDistinct(disk) && r < |disk.runs|
    ensures var end := Finished(disk, q, budget, unreadable);
            && |end.runs| == |disk.runs|
            && (Present(end, q, r) <==> Present(disk, q, r) && !Removes(Chosen(disk, q, budget), r))
            && (Present(end, q, r) ==> LogOf(end, r) == LogOf(disk, r))
  {
    var start, removes := Reconciled(disk, q), Chosen(disk, q, budget);
    PlannedIsRemovable(disk, q, budget);
    FilesAfter(start, removes, |removes|, false, unreadable);
    FinishedRows(disk, q, budget, unreadable, r);
    if Present(disk, q, r) && GoneBy(removes, disk.runs[r].path.value, |removes|) {
      var i := OwnerOfPath(disk, q, budget, r, disk.runs[r].path.value, |removes|);
    }
  }

  /** So the logs still there are exactly those the plan keeps. */
  lemma FoundAfterwards(disk: Disk, q: Queue, budget: nat, unreadable: set<string>, log: LogFile)
    requires PathsDistinct(disk)
    ensures var end := Finished(disk, q, budget, unreadable);
            log in Found(end, q, |end.runs|) <==> log in Kept(Found(disk, q, |disk.runs|), budget)
  {
    var r := log.run;
    KeptIff(Found(disk, q, |disk.runs|), budget, log);
    PlannedIsRemovable(disk, q, budget);
    RowsAfter(Reconciled(disk, q), Chosen(disk, q, budget), |Chosen(disk, q, budget)|, false, unreadable);
    if r < |disk.runs| {
      StillPresent(disk, q, budget, unreadable, r);
      if Present(disk, q, r) { RemovesIffGone(disk, q, budget, r); }
    }
  }

  /** A finished prune leaves the files settled rows still name within budget, and another would remove nothing. */
  lemma PruneIsEnough(disk: Disk, q: Queue, budget: nat, unreadable: set<string>)
    requires PathsDistinct(disk)
    ensures var end := Finished(disk, q, budget, unreadable);
            && Total(Found(end, q, |end.runs|)) <= budget
            && Chosen(end, q, budget) == []
  {
    var found, end := Found(disk, q, |disk.runs|), Finished(disk, q, budget, unreadable);
    var left, kept := Found(end, q, |end.runs|), Kept(found, budget);
    forall log ensures log in left <==> log in kept { FoundAfterwards(disk, q, budget, unreadable, log); }
    KeptIsDistinct(found, budget);
    TotalOfSameElements(left, kept);
    PlanIsExact(found, budget);
    NoPasses(left);
    NothingToDo(left, budget);
  }

  // ----- rows that share a file

  /** Some row names a file that was there and has been deleted. */
  ghost predicate NamesDeleted(was: Disk, now: Disk) {
    exists r :: 0 <= r < |now.runs| && now.runs[r].path.Some? && now.runs[r].path.value in was.files
      && now.runs[r].path.value !in now.files
  }

  /**
   This settled log is there, and passed or is more than the budget takes together
   with the failures that are newer.
   */
  ghost predicate Goes(disk: Disk, q: Queue, budget: nat, s: nat) {
    Present(disk, q, s) && (disk.runs[s].passed || Total(NotOlder(Found(disk, q, |disk.runs|), s)) > budget)
  }

  lemma RemovesIffGoes(disk: Disk, q: Queue, budget: nat, s: nat)
    ensures Removes(Chosen(disk, q, budget), s) <==> Goes(disk, q, budget, s)
  {
    var found, removes := Found(disk, q, |disk.runs|), Chosen(disk, q, budget);
    if Present(disk, q, s) {
      RemovesIffGone(disk, q, budget, s);
      RemovedIff(found, budget, LogOf(disk, s));
    } else if i :| 0 <= i < |removes| && removes[i].log.run == s {
      WhyGone(found, budget, i);
    }
  }

  /** A row that stays shares its file with one that goes. */
  ghost predicate SharesWithGoing(disk: Disk, q: Queue, budget: nat) {
    exists r, s :: 0 <= r < |disk.runs| && 0 <= s < |disk.runs|
      && !Goes(disk, q, budget, r) && Goes(disk, q, budget, s) && disk.runs[r].path == disk.runs[s].path
  }

  /** Whose file goes is whose row goes. */
  lemma GoneBySome(disk: Disk, q: Queue, budget: nat, path: string)
    ensures GoneBy(Chosen(disk, q, budget), path, |Chosen(disk, q, budget)|) <==>
              exists s :: 0 <= s < |disk.runs| && Goes(disk, q, budget, s) && disk.runs[s].path == Some(path)
  {
    var removes := Chosen(disk, q, budget);
    PlannedIsRemovable(disk, q, budget);
    if i :| 0 <= i < |removes| && removes[i].log.path == path {
      FailuresAreExplained(disk, q, budget, i);
      RemovesIffGoes(disk, q, budget, removes[i].log.run);
    }
    if s :| 0 <= s < |disk.runs| && Goes(disk, q, budget, s) && disk.runs[s].path == Some(path) {
      RemovesIffGoes(disk, q, budget, s);
      var i :| 0 <= i < |removes| && removes[i].log.run == s;
      FailuresAreExplained(disk, q, budget, i);
    }
  }

  lemma NamingMeansSharing(disk: Disk, q: Queue, budget: nat, unreadable: set<string>, r: nat)
    requires r < |disk.runs| && disk.runs[r].path.Some? && disk.runs[r].path.value in disk.files
    ensures var removes, end := Chosen(disk, q, budget), Finished(disk, q, budget, unreadable);
            && |end.runs| == |disk.runs|
            && (end.runs[r].path == disk.runs[r].path <==> !Removes(removes, r))
            && (end.runs[r].path.Some? ==> end.runs[r].path == disk.runs[r].path)
            && (disk.runs[r].path.value !in end.files <==> GoneBy(removes, disk.runs[r].path.value, |removes|))
  {
    PlannedIsRemovable(disk, q, budget);
    FilesAfter(Reconciled(disk, q), Chosen(disk, q, budget), |Chosen(disk, q, budget)|, false, unreadable);
    FinishedRows(disk, q, budget, unreadable, r);
  }

  lemma NamesOnlyWhatItNamed(disk: Disk, q: Queue, budget: nat, unreadable: set<string>, r: nat)
    requires r < |disk.runs|
    ensures var end := Finished(disk, q, budget, unreadable);
            |end.runs| == |disk.runs| && (end.runs[r].path.Some? ==> end.runs[r].path == disk.runs[r].path)
  {
    FinishedRows(disk, q, budget, unreadable, r);
  }

  lemma NamingDeleted(disk: Disk, q: Queue, budget: nat, unreadable: set<string>, r: nat)
    requires r < |disk.runs|
    ensures var end := Finished(disk, q, budget, unreadable);
            && |end.runs| == |disk.runs|
            && (&& end.runs[r].path.Some? && end.runs[r].path.value in disk.files
                && end.runs[r].path.value !in end.files
                <==>
                && !Goes(disk, q, budget, r)
                && exists s ::
                     0 <= s < |disk.runs| && Goes(disk, q, budget, s) && disk.runs[r].path == disk.runs[s].path)
  {
    NamesOnlyWhatItNamed(disk, q, budget, unreadable, r);
    RemovesIffGoes(disk, q, budget, r);
    if disk.runs[r].path.Some? {
      GoneBySome(disk, q, budget, disk.runs[r].path.value);
      if disk.runs[r].path.value in disk.files { NamingMeansSharing(disk, q, budget, unreadable, r); }
    }
  }

  /**
   A finished prune leaves a row naming a deleted file exactly when a row that
   stays has the file of one that goes.
   */
  lemma SharedFiles(disk: Disk, q: Queue, budget: nat, unreadable: set<string>)
    ensures NamesDeleted(disk, Finished(disk, q, budget, unreadable)) <==> SharesWithGoing(disk, q, budget)
  {
    var end := Finished(disk, q, budget, unreadable);
    forall r | 0 <= r < |disk.runs|
      ensures |end.runs| == |disk.runs|
      ensures && end.runs[r].path.Some? && end.runs[r].path.value in disk.files
              && end.runs[r].path.value !in end.files
              <==>
              && !Goes(disk, q, budget, r)
              && exists s ::
                   0 <= s < |disk.runs| && Goes(disk, q, budget, s) && disk.runs[r].path == disk.runs[s].path
    {
      NamingDeleted(disk, q, budget, unreadable, r);
    }
  }

  // ----- what a prune does to each row and each file

  /** What the failures settled on this queue, from this row on and before that one, take up. */
  ghost function FailedBytes(disk: Disk, q: Queue, from: nat, upTo: nat): nat
    requires upTo <= |disk.runs|
  {
    if upTo <= from then 0
    else
      var row := disk.runs[upTo - 1];
      FailedBytes(disk, q, from, upTo - 1)
      + if row.queue == q && row.settled && !row.passed && row.path.Some? && row.path.value in disk.files
        then disk.files[row.path.value].bytes else 0
  }

  lemma {:induction false} FailedBytesAre(disk: Disk, q: Queue, from: nat, upTo: nat)
    requires upTo <= |disk.runs|
    ensures Total(NotOlder(Found(disk, q, upTo), from)) == FailedBytes(disk, q, from, upTo)
    decreases upTo
  {
    if upTo <= from {
      NoneNotOlder(Found(disk, q, upTo), from);
    } else {
      FailedBytesAre(disk, q, from, upTo - 1);
      if Present(disk, q, upTo - 1) {
        NotOlderSnoc(Found(disk, q, upTo - 1), LogOf(disk, upTo - 1), from);
      }
    }
  }

  lemma {:induction false} NoneNotOlder(logs: seq<LogFile>, from: nat)
    requires forall log :: log in logs ==> log.run < from
    ensures NotOlder(logs, from) == []
  {
    if NotOlder(logs, from) != [] { assert NotOlder(logs, from)[0] in NotOlder(logs, from); }
  }

  lemma NotOlderSnoc(logs: seq<LogFile>, log: LogFile, from: nat)
    ensures Total(NotOlder(logs + [log], from))
         == Total(NotOlder(logs, from)) + if !log.passed && log.run >= from then log.bytes else 0
  {
    assert (logs + [log])[..|logs|] == logs;
    TotalAppends(NotOlder(logs, from), [log]);
    TotalOne(log);
  }

  /** Its log is there, and passed or does not fit the budget together with the newer failures. */
  ghost predicate MustGo(disk: Disk, q: Queue, budget: nat, r: nat) {
    && r < |disk.runs| && disk.runs[r].queue == q && disk.runs[r].settled
    && disk.runs[r].path.Some? && disk.runs[r].path.value in disk.files
    && (disk.runs[r].passed || FailedBytes(disk, q, r, |disk.runs|) > budget)
  }

  lemma MustGoGoes(disk: Disk, q: Queue, budget: nat, r: nat)
    ensures MustGo(disk, q, budget, r) <==> Goes(disk, q, budget, r)
    ensures MustGo(disk, q, budget, r) <==> Removes(Chosen(disk, q, budget), r)
  {
    FailedBytesAre(disk, q, r, |disk.runs|);
    RemovesIffGoes(disk, q, budget, r);
  }

  /** The last forty lines of this text. */
  ghost predicate IsTailOf(tail: string, text: string) {
    exists lines :: AreTheLast(text, 40, lines) && tail == Join(lines)
  }

  lemma TailTextIsTail(file: File)
    ensures IsTailOf(TailText(file), file.text)
  {
    LastIsTheEnd(file.text, 40);
  }

  /** What a finished prune has made of a row. */
  ghost predicate RowComesTo(disk: Disk, q: Queue, budget: nat, unreadable: set<string>, r: nat, row': RunRow)
    requires r < |disk.runs|
  {
    var row := disk.runs[r];
    if row.queue != q || !row.settled || row.path.None? then row' == row
    else if row.path.value !in disk.files then row' == row.(path := None, tail := None)
    else if !MustGo(disk, q, budget, r) then row' == row
    else
      && row' == row.(path := None, tail := row'.tail)
      && (row'.tail.Some? <==> !row.passed && row.path.value !in unreadable)
      && (row'.tail.Some? ==> IsTailOf(row'.tail.value, disk.files[row.path.value].text))
  }

  /** The removal this row goes by; no earlier one has taken its file. */
  lemma RemovalOf(disk: Disk, q: Queue, budget: nat, r: nat) returns (i: nat)
    requires PathsDistinct(disk) && r < |disk.runs| && MustGo(disk, q, budget, r)
    ensures var removes := Chosen(disk, q, budget);
            && i < |removes| && removes[i].log.run == r && disk.runs[r].path == Some(removes[i].log.path)
            && (removes[i].because.OverBudget? <==> !disk.runs[r].passed) && !GoneBy(removes, removes[i].log.path, i)
  {
    var removes := Chosen(disk, q, budget);
    MustGoGoes(disk, q, budget, r);
    i :| 0 <= i < |removes| && removes[i].log.run == r;
    FailuresAreExplained(disk, q, budget, i);
    PlannedIsRemovable(disk, q, budget);
    forall j | 0 <= j < i ensures removes[j].log.path != removes[i].log.path {
      FailuresAreExplained(disk, q, budget, j);
    }
  }

  lemma RowOfRemoval(disk: Disk, q: Queue, budget: nat, unreadable: set<string>, i: nat)
    requires i < |Chosen(disk, q, budget)| && !GoneBy(Chosen(disk, q, budget), Chosen(disk, q, budget)[i].log.path, i)
    ensures var start, removal, end := Reconciled(disk, q), Chosen(disk, q, budget)[i],
            Finished(disk, q, budget, unreadable);
            && |end.runs| == |disk.runs| && removal.log.run < |disk.runs|
            && end.runs[removal.log.run]
               == start.runs[removal.log.run].(path := None, tail := TailFor(start, removal, unreadable))
  {
    var start, removes, end := Reconciled(disk, q), Chosen(disk, q, budget), Finished(disk, q, budget, unreadable);
    PlannedIsRemovable(disk, q, budget);
    RowsAfter(start, removes, |removes|, false, unreadable);
    assert end.runs[removes[i].log.run] == RowAt(start, removes, i, |removes|, false, unreadable);
  }

  lemma RemovedRow(disk: Disk, q: Queue, budget: nat, unreadable: set<string>, r: nat)
    requires PathsDistinct(disk) && r < |disk.runs| && MustGo(disk, q, budget, r)
    ensures var end := Finished(disk, q, budget, unreadable);
            |end.runs| == |disk.runs| && RowComesTo(disk, q, budget, unreadable, r, end.runs[r])
  {
    var i := RemovalOf(disk, q, budget, r);
    RowOfRemoval(disk, q, budget, unreadable, i);
    TailTextIsTail(disk.files[disk.runs[r].path.value]);
  }

  /**
   With a file to each row, a finished prune has left every row of another queue,
   of an unsettled candidate or without a file as it was, told the rows of missing
   files so, and taken exactly the logs that passed or do not fit the budget, with
   the last lines of each readable failure on its row.
   */
  lemma PruneComesTo(disk: Disk, q: Queue, budget: nat, unreadable: set<string>, r: nat)
    requires PathsDistinct(disk) && r < |disk.runs|
    ensures var end := Finished(disk, q, budget, unreadable);
            |end.runs| == |disk.runs| && RowComesTo(disk, q, budget, unreadable, r, end.runs[r])
  {
    if MustGo(disk, q, budget, r) {
      RemovedRow(disk, q, budget, unreadable, r);
    } else {
      MustGoGoes(disk, q, budget, r);
      FinishedRows(disk, q, budget, unreadable, r);
    }
  }

  /** The files that are gone are exactly those of the rows that had to go, and no other file has changed. */
  lemma FilesComeTo(disk: Disk, q: Queue, budget: nat, unreadable: set<string>)
    ensures var end := Finished(disk, q, budget, unreadable);
            && (forall path :: path in end.files <==>
                  path in disk.files
                  && !exists r :: 0 <= r < |disk.runs| && MustGo(disk, q, budget, r) && disk.runs[r].path == Some(path))
            && (forall path :: path in end.files && path in disk.files ==> end.files[path] == disk.files[path])
  {
    var removes, end := Chosen(disk, q, budget), Finished(disk, q, budget, unreadable);
    FilesAfter(Reconciled(disk, q), removes, |removes|, false, unreadable);
    forall path
      ensures GoneBy(removes, path, |removes|) <==>
                exists r :: 0 <= r < |disk.runs| && MustGo(disk, q, budget, r) && disk.runs[r].path == Some(path)
    {
      GoneBySome(disk, q, budget, path);
      forall r | 0 <= r < |disk.runs| ensures MustGo(disk, q, budget, r) <==> Goes(disk, q, budget, r) {
        MustGoGoes(disk, q, budget, r);
      }
    }
  }

  /** A row no prune of this queue may touch. */
  predicate OffLimits(row: RunRow, q: Queue) {
    row.queue != q || !row.settled
  }

  lemma RemovesOnlySettled(disk: Disk, q: Queue, budget: nat, i: nat)
    requires i < |Chosen(disk, q, budget)|
    ensures var log := Chosen(disk, q, budget)[i].log;
            && log.run < |disk.runs| && !OffLimits(disk.runs[log.run], q)
            && disk.runs[log.run].path == Some(log.path)
  {
    FailuresAreExplained(disk, q, budget, i);
    RemovesIffGoes(disk, q, budget, Chosen(disk, q, budget)[i].log.run);
  }

  lemma UnsettledRow(disk: Disk, q: Queue, budget: nat, n: nat, written: bool, unreadable: set<string>, r: nat)
    requires Possible(disk, q, budget, Removing(n, written)) && r < |disk.runs| && OffLimits(disk.runs[r], q)
    ensures var now := Midway(disk, q, budget, n, written, unreadable);
            |now.runs| == |disk.runs| && now.runs[r] == disk.runs[r]
  {
    var start, removes := Reconciled(disk, q), Chosen(disk, q, budget);
    PlannedIsRemovable(disk, q, budget);
    RowsAfter(start, removes, n, written, unreadable);
    if i :| 0 <= i < |removes| && removes[i].log.run == r { RemovesOnlySettled(disk, q, budget, i); }
  }

  /** Nothing but rows no prune of this queue may touch names this file. */
  ghost predicate OthersOnly(disk: Disk, q: Queue, path: string) {
    forall r :: 0 <= r < |disk.runs| && disk.runs[r].path == Some(path) ==> OffLimits(disk.runs[r], q)
  }

  lemma UnsettledFile(disk: Disk, q: Queue, budget: nat, n: nat, written: bool, unreadable: set<string>, path: string)
    requires Possible(disk, q, budget, Removing(n, written)) && path in disk.files && OthersOnly(disk, q, path)
    ensures var now := Midway(disk, q, budget, n, written, unreadable);
            path in now.files && now.files[path] == disk.files[path]
  {
    var removes := Chosen(disk, q, budget);
    FilesAfter(Reconciled(disk, q), removes, n, written, unreadable);
    if i :| 0 <= i < n && i < |removes| && removes[i].log.path == path { RemovesOnlySettled(disk, q, budget, i); }
  }

  /**
   Between any two writes of a prune, the rows of other queues and of candidates
   that have not settled are as they were, and a file only such rows name is there.
   */
  lemma UnsettledAreLeft(disk: Disk, q: Queue, budget: nat, at: Point, unreadable: set<string>)
    requires Possible(disk, q, budget, at)
    ensures var now := PruneAt(disk, q, budget, at, unreadable);
            && (forall r :: 0 <= r < |disk.runs| && OffLimits(disk.runs[r], q) ==>
                  r < |now.runs| && now.runs[r] == disk.runs[r])
            && (forall path :: path in disk.files && OthersOnly(disk, q, path) ==>
                  path in now.files && now.files[path] == disk.files[path])
  {
    if at.Removing? {
      var now := PruneAt(disk, q, budget, at, unreadable);
      forall r | 0 <= r < |disk.runs| && OffLimits(disk.runs[r], q)
        ensures r < |now.runs| && now.runs[r] == disk.runs[r]
      {
        UnsettledRow(disk, q, budget, at.n, at.written, unreadable, r);
      }
      forall path | path in disk.files && OthersOnly(disk, q, path)
        ensures path in now.files && now.files[path] == disk.files[path]
      {
        UnsettledFile(disk, q, budget, at.n, at.written, unreadable, path);
      }
    }
  }

  /** One candidate gated twice into one file: the first run passed, the second failed. */
  function GatedTwice(q: Queue, path: string, file: File): Disk {
    var passed := RunRow(q, 0, true, true, Some(path), None);
    Disk([passed, passed.(passed := false)], map[path := file])
  }

  lemma BothFound(q: Queue, path: string, file: File)
    ensures Found(GatedTwice(q, path, file), q, 2)
              == [LogFile(0, 0, path, file.bytes, true), LogFile(1, 0, path, file.bytes, false)]
  {
    var disk := GatedTwice(q, path, file);
    assert Found(disk, q, 0) == [];
    assert Found(disk, q, 1) == [LogFile(0, 0, path, file.bytes, true)];
  }

  /**
   A candidate resumed by a later tick logs to the same file again. When its
   first run passed and its second failed, pruning the pass takes the failure's
   file, and the failure's row is left naming it with nothing kept of why it
   failed.
   */
  lemma ResumedCandidateLosesItsLog(q: Queue, path: string, file: File, budget: nat, unreadable: set<string>)
    requires file.bytes <= budget
    ensures var disk := GatedTwice(q, path, file);
            var end := Finished(disk, q, budget, unreadable);
            NamesDeleted(disk, end) && |end.runs| == 2 && end.runs[1] == disk.runs[1]
  {
    var disk := GatedTwice(q, path, file);
    var first, second := LogFile(0, 0, path, file.bytes, true), LogFile(1, 0, path, file.bytes, false);
    BothFound(q, path, file);
    OnlyThePassGoes(first, second, budget);
    var removes := Chosen(disk, q, budget);
    assert removes == [Removal(first, NothingToExplain)];
    FinishedRows(disk, q, budget, unreadable, 1);
    assert !Removes(removes, 1) && disk.runs[1].path == Some(removes[0].log.path);
    SharedFiles(disk, q, budget, unreadable);
  }

  lemma OnlyThePassGoes(first: LogFile, second: LogFile, budget: nat)
    requires first.passed && !second.passed && second.bytes <= budget
    ensures Planned([first, second], budget).remove == [Removal(first, NothingToExplain)]
  {
    assert [first, second][..1] == [first] && [first][..0] == [] && [second][..0] == [];
    assert Those([first], true) == [first] && Those([first], false) == [];
    assert Those([first, second], true) == [first] && Those([first, second], false) == [second];
    assert Aged([second]) == [second];
    TotalOne(second);
  }

  // ----- as the program does it

  /** This removal's file is still there to delete, and can be. */
  ghost predicate Deletable(removes: seq<Removal>, i: nat, stuck: set<string>)
    requires i < |removes|
  {
    !GoneBy(removes, removes[i].log.path, i) && removes[i].log.path !in stuck
  }

  ghost predicate AllDeletable(removes: seq<Removal>, n: nat, stuck: set<string>) {
    forall i :: 0 <= i < n && i < |removes| ==> Deletable(removes, i, stuck)
  }

  /** What a prune did. */
  datatype Pruned = Pruned(plan: Plan, tailsKept: nat)

  /** The removals among the first n that left the file's last lines on its row. */
  ghost function Tailed(disk: Disk, removes: seq<Removal>, n: nat, unreadable: set<string>): set<nat> {
    set i: nat | i < n && i < |removes| && Remembered(disk, removes, i, unreadable).Some?
  }

  /** Every removal went through. */
  ghost predicate PrunedAll(was: Disk, now: Disk, q: Queue, budget: nat, done: Pruned, unreadable: set<string>,
                            stuck: set<string>) {
    && done.plan == Planned(Found(was, q, |was.runs|), budget)
    && done.tailsKept == |Tailed(Reconciled(was, q), done.plan.remove, |done.plan.remove|, unreadable)|
    && AllDeletable(done.plan.remove, |done.plan.remove|, stuck)
    && now == Finished(was, q, budget, unreadable)
  }

  /** The first file that could not be deleted ended it, its row already written. */
  ghost predicate StoppedAt(was: Disk, now: Disk, q: Queue, budget: nat, i: nat, unreadable: set<string>,
                            stuck: set<string>) {
    && i < |Chosen(was, q, budget)|
    && AllDeletable(Chosen(was, q, budget), i, stuck) && !Deletable(Chosen(was, q, budget), i, stuck)
    && now == Midway(was, q, budget, i, true, unreadable)
  }

  class Shelf {
    const unreadable: set<string>
    const stuck: set<string>  // files that cannot be deleted
    var runs: seq<RunRow>
    var files: map<string, File>

    function Now(): Disk
      reads this
    {
      Disk(runs, files)
    }

    /** One entry for each settled row with a file; a row without its file forgets the path. */
    method Survey(q: Queue) returns (found: seq<LogFile>)
      modifies this`runs
      ensures found == Found(old(Now()), q, |old(runs)|)
      ensures Now() == Reconciled(old(Now()), q)
    {
      ghost var was := Now();
      found := [];
      var r := 0;
      while r < |runs|
        invariant r <= |runs| == |was.runs|
        invariant found == Found(was, q, r)
        invariant Now() == SurveyedTo(was, q, r)
      {
        if Offered(runs[r], q) {
          var row := runs[r];
          if row.path.value in files {
            found := found + [LogFile(r, row.candidate, row.path.value, files[row.path.value].bytes, row.passed)];
          } else {
            ForgetLog(r, None);
          }
        }
        assert runs == SurveyedTo(was, q, r + 1).runs;
        r := r + 1;
      }
    }

    method ForgetLog(r: nat, tail: Option<string>)
      modifies this`runs
      ensures runs == if r < |old(runs)| then old(runs)[r := old(runs)[r].(path := None, tail := tail)] else old(runs)
    {
      if r < |runs| {
        runs := runs[r := runs[r].(path := None, tail := tail)];
      }
    }

    method RemoveFile(path: string) returns (ok: bool)
      modifies this`files
      ensures ok <==> path in old(files) && path !in stuck
      ensures files == if ok then old(files) - {path} else old(files)
    {
      ok := path in files && path !in stuck;
      if ok {
        files := files - {path};
      }
    }

    /** The last lines, if the file can be read. */
    method TailOf(path: string) returns (tail: Option<string>)
      ensures tail == if path in files && path !in unreadable then Some(TailText(files[path])) else None
    {
      if path !in files || path in unreadable {
        return None;
      }
      var lines := Tail(files[path].text, RETAINED_TAIL_LINES);
      tail := Some(Join(lines));
    }

    /** Row first, then file; a file that will not go stops the prune where it is. */
    method Apply(q: Queue, budget: nat) returns (r: Result<Pruned, nat>)
      requires Total(Found(Now(), q, |runs|)) < Bytes.U64
      modifies this
      ensures r.Ok? ==> PrunedAll(old(Now()), Now(), q, budget, r.value, unreadable, stuck)
      ensures r.Err? ==> StoppedAt(old(Now()), Now(), q, budget, r.error, unreadable, stuck)
    {
      ghost var was := Now();
      var found := Survey(q);
      var plan := MakePlan(found, budget);
      var stoppedAt, tailsKept := CarryOut(was, q, budget, plan.remove);
      r := if stoppedAt.Some? then Err(stoppedAt.value) else Ok(Pruned(plan, tailsKept));
    }

    method CarryOut(ghost was: Disk, q: Queue, budget: nat, removes: seq<Removal>)
      returns (stoppedAt: Option<nat>, tailsKept: nat)
      requires Now() == Reconciled(was, q) && removes == Chosen(was, q, budget)
      modifies this
      ensures stoppedAt.None? ==> Carried(was, Now(), q, budget, removes, |removes|, tailsKept, unreadable, stuck)
      ensures stoppedAt.Some? ==> StoppedAt(was, Now(), q, budget, stoppedAt.value, unreadable, stuck)
    {
      tailsKept := 0;
      var i := 0;
      while i < |removes|
        invariant i <= |removes| && Carried(was, Now(), q, budget, removes, i, tailsKept, unreadable, stuck)
      {
        ghost var sofar := Now();
        var removed, kept := RemoveNext(was, q, budget, removes, i);
        if !removed {
          return Some(i), tailsKept;
        }
        OneMoreCarried(was, sofar, Now(), q, budget, removes, i, tailsKept, kept, unreadable, stuck);
        if kept {
          tailsKept := tailsKept + 1;
        }
        i := i + 1;
      }
      stoppedAt := None;
    }

    method RemoveNext(ghost was: Disk, q: Queue, budget: nat, removes: seq<Removal>, i: nat)
      returns (ok: bool, kept: bool)
      requires removes == Chosen(was, q, budget) && i < |removes|
               && Now() == Midway(was, q, budget, i, false, unreadable)
      modifies this
      ensures ok <==> Deletable(removes, i, stuck)
      ensures kept <==> Remembered(Reconciled(was, q), removes, i, unreadable).Some?
      ensures ok ==> Now() == Midway(was, q, budget, i + 1, false, unreadable)
      ensures !ok ==> Now() == Midway(was, q, budget, i, true, unreadable)
    {
      FileStillThere(was, q, budget, i, unreadable);
      NextWrites(was, q, budget, i, unreadable);
      ok, kept := RemoveOne(removes[i]);
    }

    method RemoveOne(removal: Removal) returns (ok: bool, kept: bool)
      modifies this
      ensures kept <==> TailFor(old(Now()), removal, unreadable).Some?
      ensures var written := RowWritten(old(Now()), removal, unreadable);
              && (ok <==> removal.log.path in old(files) && removal.log.path !in stuck)
              && Now() == if ok then FileGone(written, removal) else written
    {
      var tail := None;
      if removal.because.OverBudget? {
        tail := TailOf(removal.log.path);
      }
      kept := tail.Some?;
      ForgetLog(removal.log.run, tail);
      ok := RemoveFile(removal.log.path);
    }
  }

  lemma OneMoreTailed(disk: Disk, removes: seq<Removal>, i: nat, unreadable: set<string>)
    requires i < |removes|
    ensures |Tailed(disk, removes, i + 1, unreadable)|
         == |Tailed(disk, removes, i, unreadable)| + if Remembered(disk, removes, i, unreadable).Some? then 1 else 0
  {
    assert Tailed(disk, removes, i + 1, unreadable)
        == Tailed(disk, removes, i, unreadable) + if Remembered(disk, removes, i, unreadable).Some? then {i} else {};
  }

  /** The first n removals have gone through, and so many of them left a tail. */
  ghost predicate Carried(was: Disk, now: Disk, q: Queue, budget: nat, removes: seq<Removal>, n: nat, tails: nat,
                          unreadable: set<string>, stuck: set<string>) {
    && removes == Chosen(was, q, budget) && n <= |removes| && AllDeletable(removes, n, stuck)
    && now == Midway(was, q, budget, n, false, unreadable)
    && tails == |Tailed(Reconciled(was, q), removes, n, unreadable)|
  }

  lemma OneMoreCarried(was: Disk, sofar: Disk, now: Disk, q: Queue, budget: nat, removes: seq<Removal>, n: nat,
                       tails: nat, kept: bool, unreadable: set<string>, stuck: set<string>)
    requires Carried(was, sofar, q, budget, removes, n, tails, unreadable, stuck) && n < |removes|
    requires Deletable(removes, n, stuck) && (kept <==> Remembered(Reconciled(was, q), removes, n, unreadable).Some?)
    requires now == Midway(was, q, budget, n + 1, false, unreadable)
    ensures Carried(was, now, q, budget, removes, n + 1, if kept then tails + 1 else tails, unreadable, stuck)
  {
    OneMoreDeletable(removes, n, stuck);
    OneMoreTailed(Reconciled(was, q), removes, n, unreadable);
  }

  lemma NextWrites(disk: Disk, q: Queue, budget: nat, i: nat, unreadable: set<string>)
    requires i < |Chosen(disk, q, budget)|
    ensures var removal := Chosen(disk, q, budget)[i];
            var written := Midway(disk, q, budget, i, true, unreadable);
            && written == RowWritten(Midway(disk, q, budget, i, false, unreadable), removal, unreadable)
            && Midway(disk, q, budget, i + 1, false, unreadable) == FileGone(written, removal)
  {
  }

  lemma OneMoreDeletable(removes: seq<Removal>, i: nat, stuck: set<string>)
    requires i < |removes| && AllDeletable(removes, i, stuck) && Deletable(removes, i, stuck)
    ensures AllDeletable(removes, i + 1, stuck)
  {
  }

  lemma FileStillThere(disk: Disk, q: Queue, budget: nat, i: nat, unreadable: set<string>)
    requires i < |Chosen(disk, q, budget)|
    ensures var removes := Chosen(disk, q, budget);
            removes[i].log.path in Midway(disk, q, budget, i, false, unreadable).files <==>
                !GoneBy(removes, removes[i].log.path, i)
  {
    PlannedIsRemovable(disk, q, budget);
    FilesAfter(Reconciled(disk, q), Chosen(disk, q, budget), i, false, unreadable);
  }
}
