/** Which gate logs go when the directory is over its budget. */
module Logs {
  import Bytes

  datatype LogFile = LogFile(run: nat, candidate: nat, path: string, bytes: nat, passed: bool)

  datatype Because = NothingToExplain | OverBudget

  datatype Removal = Removal(log: LogFile, because: Because)

  datatype Plan = Plan(remove: seq<Removal>, before: nat, after: nat, budget: nat)

  function Total(logs: seq<LogFile>): nat {
    if logs == [] then 0 else Total(logs[..|logs| - 1]) + logs[|logs| - 1].bytes
  }

  function Those(logs: seq<LogFile>, passed: bool): (r: seq<LogFile>)
    ensures forall log :: log in r <==> log in logs && log.passed == passed
  {
    if logs == [] then []
    else
      var n := |logs| - 1;
      if logs[n].passed == passed then Those(logs[..n], passed) + [logs[n]] else Those(logs[..n], passed)
  }

  /** Oldest first; logs of one run keep their order. */
  ghost predicate ByAge(logs: seq<LogFile>) {
    forall i, j :: 0 <= i < j < |logs| ==> logs[i].run <= logs[j].run
  }

  function Place(sorted: seq<LogFile>, log: LogFile): (r: seq<LogFile>)
    requires ByAge(sorted)
    ensures ByAge(r) && forall x :: x in r <==> x in sorted || x == log
  {
    var n := |sorted|;
    if n == 0 || sorted[n - 1].run <= log.run then sorted + [log]
    else
      var rest := Place(sorted[..n - 1], log);
      assert forall x :: x in sorted[..n - 1] ==> x in sorted && x.run <= sorted[n - 1].run;
      assert forall i :: 0 <= i < |rest| ==> rest[i] in rest;
      rest + [sorted[n - 1]]
  }

  function Aged(logs: seq<LogFile>): (r: seq<LogFile>)
    ensures ByAge(r) && forall x :: x in r <==> x in logs
  {
    if logs == [] then [] else Place(Aged(logs[..|logs| - 1]), logs[|logs| - 1])
  }

  lemma {:induction false} PlacesAll(sorted: seq<LogFile>, log: LogFile)
    requires ByAge(sorted)
    ensures multiset(Place(sorted, log)) == multiset(sorted) + multiset{log}
  {
    var n := |sorted|;
    if n > 0 && sorted[n - 1].run > log.run {
      PlacesAll(sorted[..n - 1], log);
      assert sorted == sorted[..n - 1] + [sorted[n - 1]];
    }
  }

  /** Putting logs in order neither loses nor repeats any. */
  lemma {:induction false} AgedIsAll(logs: seq<LogFile>)
    ensures multiset(Aged(logs)) == multiset(logs)
  {
    if logs != [] {
      var n := |logs| - 1;
      AgedIsAll(logs[..n]);
      PlacesAll(Aged(logs[..n]), logs[n]);
      LastIsIn(logs);
    }
  }

  lemma LastIsIn(logs: seq<LogFile>)
    requires logs != []
    ensures multiset(logs) == multiset(logs[..|logs| - 1]) + multiset{logs[|logs| - 1]}
  {
    assert logs == logs[..|logs| - 1] + [logs[|logs| - 1]];
  }

  /** How many of the oldest must go before the rest fit. */
  function Excess(aged: seq<LogFile>, budget: nat): (n: nat)
    ensures n <= |aged| && Total(aged[n..]) <= budget
    ensures forall i :: 0 <= i < n ==> Total(aged[i..]) > budget
  {
    if Total(aged) <= budget then
      assert aged[0..] == aged;
      0
    else
      var rest := Excess(aged[1..], budget);
      TailOfTail(aged, rest, budget);
      rest + 1
  }

  /** Dropping one and then more is dropping one more. */
  lemma TailOfTail(aged: seq<LogFile>, rest: nat, budget: nat)
    requires aged != [] && rest < |aged| && Total(aged) > budget
    requires forall i :: 0 <= i < rest ==> Total(aged[1..][i..]) > budget
    ensures aged[1..][rest..] == aged[rest + 1..]
    ensures forall i :: 0 <= i < rest + 1 ==> Total(aged[i..]) > budget
  {
    forall i | 0 <= i < rest + 1 ensures Total(aged[i..]) > budget {
      if i == 0 { assert aged[0..] == aged; } else { assert aged[i..] == aged[1..][i - 1..]; }
    }
  }

  function Marked(logs: seq<LogFile>, because: Because): (r: seq<Removal>)
    ensures |r| == |logs| && forall i :: 0 <= i < |r| ==> r[i] == Removal(logs[i], because)
  {
    seq(|logs|, i requires 0 <= i < |logs| => Removal(logs[i], because))
  }

  /** The failures that stay: the longest newest-first stretch that fits. */
  function Kept(logs: seq<LogFile>, budget: nat): seq<LogFile> {
    var aged := Aged(Those(logs, false));
    aged[Excess(aged, budget)..]
  }

  /** Every pass goes, then the oldest failures until the rest fit. */
  function Planned(logs: seq<LogFile>, budget: nat): Plan {
    var aged := Aged(Those(logs, false));
    Plan(Marked(Those(logs, true), NothingToExplain) + Marked(aged[..Excess(aged, budget)], OverBudget),
         Total(logs), Total(Kept(logs, budget)), budget)
  }

  function Less(a: nat, b: nat): nat {
    if a < b then 0 else a - b
  }

  // ----- sums

  lemma {:induction false} TotalAppends(a: seq<LogFile>, b: seq<LogFile>)
    ensures Total(a + b) == Total(a) + Total(b)
  {
    if b == [] {
      assert a + b == a;
    } else {
      assert (a + b)[..|a + b| - 1] == a + b[..|b| - 1];
      TotalAppends(a, b[..|b| - 1]);
    }
  }

  lemma TotalOne(log: LogFile)
    ensures Total([log]) == log.bytes
  {
    assert [log][..0] == [];
  }

  /** Taking one log out of a sequence takes its bytes out of the total. */
  lemma TotalWithout(logs: seq<LogFile>, k: nat)
    requires k < |logs|
    ensures var rest := logs[..k] + logs[k + 1..];
            multiset(rest) == multiset(logs) - multiset{logs[k]} && Total(logs) == Total(rest) + logs[k].bytes
  {
    var front, back := logs[..k], logs[k + 1..];
    assert logs == front + [logs[k]] + back;
    TotalAppends(front, back);
    TotalAppends(front + [logs[k]], back);
    TotalAppends(front, [logs[k]]);
    TotalOne(logs[k]);
  }

  lemma {:induction false} TotalOfSame(a: seq<LogFile>, b: seq<LogFile>)
    requires multiset(a) == multiset(b)
    ensures Total(a) == Total(b)
    decreases |a|
  {
    if a == [] {
      assert |multiset(b)| == 0;
    } else {
      assert a[0] in multiset(b);
      var k :| 0 <= k < |b| && b[k] == a[0];
      TotalWithout(a, 0);
      TotalWithout(b, k);
      TotalOfSame(a[..0] + a[1..], b[..k] + b[k + 1..]);
    }
  }

  lemma {:induction false} SplitsTotal(logs: seq<LogFile>)
    ensures Total(logs) == Total(Those(logs, true)) + Total(Those(logs, false))
  {
    if logs != [] {
      var n := |logs| - 1;
      SplitsTotal(logs[..n]);
      TotalAppends(Those(logs[..n], logs[n].passed), [logs[n]]);
      TotalOne(logs[n]);
    }
  }

  lemma {:induction false} SplitsAll(logs: seq<LogFile>)
    ensures multiset(logs) == multiset(Those(logs, true)) + multiset(Those(logs, false))
  {
    if logs != [] {
      var n := |logs| - 1;
      SplitsAll(logs[..n]);
      assert logs == logs[..n] + [logs[n]];
      assert multiset(logs) == multiset(logs[..n]) + multiset{logs[n]};
    }
  }

  lemma TotalCut(logs: seq<LogFile>, n: nat)
    requires n <= |logs|
    ensures Total(logs) == Total(logs[..n]) + Total(logs[n..])
  {
    TotalAppends(logs[..n], logs[n..]);
    assert logs[..n] + logs[n..] == logs;
  }

  // ----- what the plan is

  lemma GoneIs(logs: seq<LogFile>, budget: nat)
    ensures var aged := Aged(Those(logs, false));
            Gone(Planned(logs, budget)) == Those(logs, true) + aged[..Excess(aged, budget)]
  {
  }

  lemma CutIsAll(logs: seq<LogFile>, n: nat)
    requires n <= |logs|
    ensures multiset(logs) == multiset(logs[..n]) + multiset(logs[n..])
  {
    assert logs[..n] + logs[n..] == logs;
  }

  lemma FailedTotal(logs: seq<LogFile>, budget: nat)
    ensures var aged := Aged(Those(logs, false));
            Total(logs) == Total(Those(logs, true) + aged[..Excess(aged, budget)]) + Total(Kept(logs, budget))
  {
    var failed, passed := Those(logs, false), Those(logs, true);
    var aged := Aged(failed);
    var n := Excess(aged, budget);
    SplitsTotal(logs);
    AgedIsAll(failed);
    TotalOfSame(failed, aged);
    TotalCut(aged, n);
    TotalAppends(passed, aged[..n]);
  }

  /** The planned size is the size of what stays, never over budget, and every log either goes or stays. */
  lemma PlanIsExact(logs: seq<LogFile>, budget: nat)
    ensures var plan := Planned(logs, budget);
            && plan.after == Total(Kept(logs, budget)) <= budget
            && plan.before == plan.after + Total(Gone(plan))
            && multiset(logs) == multiset(Gone(plan)) + multiset(Kept(logs, budget))
  {
    var aged := Aged(Those(logs, false));
    FailedTotal(logs, budget);
    SplitsAll(logs);
    AgedIsAll(Those(logs, false));
    GoneIs(logs, budget);
    CutIsAll(aged, Excess(aged, budget));
  }

  ghost function Gone(plan: Plan): (r: seq<LogFile>)
    ensures |r| == |plan.remove| && forall i :: 0 <= i < |r| ==> r[i] == plan.remove[i].log
  {
    seq(|plan.remove|, i requires 0 <= i < |plan.remove| => plan.remove[i].log)
  }

  ghost predicate RunsDistinct(logs: seq<LogFile>) {
    forall i, j :: 0 <= i < j < |logs| ==> logs[i].run != logs[j].run
  }

  /** The failures of this run and newer ones. */
  function NotOlder(logs: seq<LogFile>, run: nat): (r: seq<LogFile>)
    ensures forall log :: log in r <==> log in logs && !log.passed && log.run >= run
  {
    if logs == [] then []
    else
      var n := |logs| - 1;
      if !logs[n].passed && logs[n].run >= run then NotOlder(logs[..n], run) + [logs[n]] else NotOlder(logs[..n], run)
  }

  lemma WithoutOne(logs: seq<LogFile>, k: nat)
    requires RunsDistinct(logs) && k < |logs|
    ensures var rest := logs[..k] + logs[k + 1..];
            RunsDistinct(rest) && forall log :: log in rest <==> log in logs && log != logs[k]
  {
    var rest := logs[..k] + logs[k + 1..];
    assert logs == logs[..k] + [logs[k]] + logs[k + 1..];
    assert forall i :: 0 <= i < |rest| ==> rest[i] == logs[if i < k then i else i + 1];
  }

  ghost predicate SameLogs(a: seq<LogFile>, b: seq<LogFile>) {
    forall log :: log in a <==> log in b
  }

  lemma SameWithoutOne(a: seq<LogFile>, i: nat, b: seq<LogFile>, k: nat)
    requires RunsDistinct(a) && RunsDistinct(b) && SameLogs(a, b) && i < |a| && k < |b| && a[i] == b[k]
    ensures var restA, restB := a[..i] + a[i + 1..], b[..k] + b[k + 1..];
            RunsDistinct(restA) && RunsDistinct(restB) && SameLogs(restA, restB)
  {
    WithoutOne(a, i);
    WithoutOne(b, k);
  }

  lemma {:induction false} TotalOfSameElements(a: seq<LogFile>, b: seq<LogFile>)
    requires RunsDistinct(a) && RunsDistinct(b) && SameLogs(a, b)
    ensures Total(a) == Total(b)
    decreases |a|
  {
    if a == [] {
      assert forall i :: 0 <= i < |b| ==> b[i] in b;
    } else {
      assert a[0] in b;
      var k :| 0 <= k < |b| && b[k] == a[0];
      SameWithoutOne(a, 0, b, k);
      TotalOfSameElements(a[..0] + a[1..], b[..k] + b[k + 1..]);
      TotalOfOneMore(a, 0, b, k);
    }
  }

  lemma TotalOfOneMore(a: seq<LogFile>, i: nat, b: seq<LogFile>, k: nat)
    requires i < |a| && k < |b| && a[i] == b[k] && Total(a[..i] + a[i + 1..]) == Total(b[..k] + b[k + 1..])
    ensures Total(a) == Total(b)
  {
    TotalWithout(a, i);
    TotalWithout(b, k);
  }

  lemma {:induction false} PartsAreDistinct(logs: seq<LogFile>, passed: bool, run: nat)
    requires RunsDistinct(logs)
    ensures RunsDistinct(Those(logs, passed)) && RunsDistinct(NotOlder(logs, run))
  {
    if logs != [] {
      PartsAreDistinct(logs[..|logs| - 1], passed, run);
      assert forall log :: log in logs[..|logs| - 1] ==> log.run != logs[|logs| - 1].run;
    }
  }

  lemma {:induction false} PlaceIsDistinct(sorted: seq<LogFile>, log: LogFile)
    requires ByAge(sorted) && RunsDistinct(sorted) && forall x :: x in sorted ==> x.run != log.run
    ensures RunsDistinct(Place(sorted, log))
  {
    var n := |sorted|;
    if n > 0 && sorted[n - 1].run > log.run {
      PlaceIsDistinct(sorted[..n - 1], log);
      assert forall x :: x in sorted[..n - 1] ==> x in sorted && x.run != sorted[n - 1].run;
      assert forall x :: x in Place(sorted[..n - 1], log) ==> x.run != sorted[n - 1].run;
    }
  }

  lemma {:induction false} AgedIsDistinct(logs: seq<LogFile>)
    requires RunsDistinct(logs)
    ensures RunsDistinct(Aged(logs))
  {
    if logs != [] {
      var n := |logs| - 1;
      AgedIsDistinct(logs[..n]);
      assert forall x :: x in logs[..n] ==> x.run != logs[n].run;
      PlaceIsDistinct(Aged(logs[..n]), logs[n]);
    }
  }

  lemma NewerStretch(aged: seq<LogFile>, k: nat)
    requires ByAge(aged) && RunsDistinct(aged) && k < |aged|
    ensures RunsDistinct(aged[k..])
    ensures forall log :: log in aged[k..] <==> log in aged && log.run >= aged[k].run
  {
    forall log | log in aged && log.run >= aged[k].run ensures log in aged[k..] {
      var i :| 0 <= i < |aged| && aged[i] == log;
      assert i >= k && aged[k..][i - k] == log;
    }
  }

  /** In age order, what stands at k and after is what is not older than it. */
  lemma NewerTotal(logs: seq<LogFile>, aged: seq<LogFile>, k: nat)
    requires RunsDistinct(logs) && aged == Aged(Those(logs, false)) && k < |aged|
    ensures Total(aged[k..]) == Total(NotOlder(logs, aged[k].run))
  {
    PartsAreDistinct(logs, false, aged[k].run);
    AgedIsDistinct(Those(logs, false));
    NewerStretch(aged, k);
    TotalOfSameElements(aged[k..], NotOlder(logs, aged[k].run));
  }

  /** Passes go because they are passes, failures because of the budget. */
  lemma WhyGone(logs: seq<LogFile>, budget: nat, i: nat)
    requires i < |Planned(logs, budget).remove|
    ensures var removal := Planned(logs, budget).remove[i];
            removal.log in logs && (removal.because.OverBudget? <==> !removal.log.passed)
  {
    var passed, aged := Those(logs, true), Aged(Those(logs, false));
    var n := Excess(aged, budget);
    var goes, over := Marked(passed, NothingToExplain), Marked(aged[..n], OverBudget);
    if i < |passed| {
      assert (goes + over)[i] == goes[i] && passed[i] in passed;
    } else {
      assert (goes + over)[i] == over[i - |passed|] && aged[i - |passed|] in aged;
    }
  }

  lemma {:induction false} ShorterIsLess(logs: seq<LogFile>, a: nat, b: nat)
    requires a <= b <= |logs|
    ensures Total(logs[b..]) <= Total(logs[a..])
  {
    assert logs[a..] == logs[a..b] + logs[b..];
    TotalAppends(logs[a..b], logs[b..]);
  }

  lemma {:induction false} ThoseKeepOrder(logs: seq<LogFile>, passed: bool)
    requires ByAge(logs)
    ensures ByAge(Those(logs, passed))
  {
    if logs != [] {
      var n := |logs| - 1;
      ThoseKeepOrder(logs[..n], passed);
      var front := Those(logs[..n], passed);
      forall i | 0 <= i < |front| ensures front[i].run <= logs[n].run {
        assert front[i] in front && front[i] in logs[..n];
      }
    }
  }

  /**
   Removals come in this order: the passes, as they were found, and then the
   failures, the oldest first, each with the reason it goes for.
   */
  lemma RemovedInOrder(logs: seq<LogFile>, budget: nat, i: nat, j: nat)
    requires ByAge(logs) && i < j < |Planned(logs, budget).remove|
    ensures var first, second := Planned(logs, budget).remove[i], Planned(logs, budget).remove[j];
            && (first.log.passed == second.log.passed ==> first.log.run <= second.log.run)
            && (second.log.passed ==> first.log.passed)
            && (first.because.OverBudget? <==> !first.log.passed)
  {
    ThoseKeepOrder(logs, true);
    RemovalAt(logs, budget, i);
    RemovalAt(logs, budget, j);
  }

  lemma RemovalAt(logs: seq<LogFile>, budget: nat, i: nat)
    requires i < |Planned(logs, budget).remove|
    ensures var passed, aged, removal := Those(logs, true), Aged(Those(logs, false)), Planned(logs, budget).remove[i];
            if i < |passed| then removal == Removal(passed[i], NothingToExplain) && removal.log.passed
            else i - |passed| < |aged| && removal == Removal(aged[i - |passed|], OverBudget) && !removal.log.passed
  {
    var passed, aged := Those(logs, true), Aged(Those(logs, false));
    if i < |passed| {
      assert passed[i] in passed;
    } else {
      assert aged[i - |passed|] in aged;
    }
  }

  /** A log goes exactly when it passed, or when it and the newer failures together exceed the budget. */
  lemma RemovedIff(logs: seq<LogFile>, budget: nat, log: LogFile)
    requires RunsDistinct(logs) && log in logs
    ensures log in Gone(Planned(logs, budget)) <==> log.passed || Total(NotOlder(logs, log.run)) > budget
  {
    var aged := Aged(Those(logs, false));
    var n := Excess(aged, budget);
    GoneIs(logs, budget);
    if !log.passed {
      PartsAreDistinct(logs, false, 0);
      AgedIsDistinct(Those(logs, false));
      assert log in Those(logs, false) && log in aged;
      var k :| 0 <= k < |aged| && aged[k] == log;
      NewerTotal(logs, aged, k);
      if k >= n {
        ShorterIsLess(aged, n, k);
        assert log !in aged[..n] by { assert forall i :: 0 <= i < n ==> aged[i].run != aged[k].run; }
      } else {
        assert aged[..n][k] == log;
      }
    }
  }

  lemma {:induction false} OncePerRun(logs: seq<LogFile>, log: LogFile)
    requires RunsDistinct(logs)
    ensures multiset(logs)[log] <= 1
  {
    if logs != [] {
      var n := |logs| - 1;
      OncePerRun(logs[..n], log);
      assert logs == logs[..n] + [logs[n]];
      assert logs[n] !in logs[..n];
    }
  }

  /** What stays is what does not go. */
  lemma KeptIff(logs: seq<LogFile>, budget: nat, log: LogFile)
    requires RunsDistinct(logs)
    ensures log in Kept(logs, budget) <==> log in logs && log !in Gone(Planned(logs, budget))
  {
    PlanIsExact(logs, budget);
    OncePerRun(logs, log);
    assert multiset(logs)[log] == multiset(Gone(Planned(logs, budget)))[log] + multiset(Kept(logs, budget))[log];
    assert (log in Kept(logs, budget) <==> log in multiset(Kept(logs, budget)))
        && (log in logs <==> log in multiset(logs));
    assert log in Gone(Planned(logs, budget)) <==> log in multiset(Gone(Planned(logs, budget)));
  }

  lemma KeptIsDistinct(logs: seq<LogFile>, budget: nat)
    requires RunsDistinct(logs)
    ensures RunsDistinct(Kept(logs, budget)) && forall log :: log in Kept(logs, budget) ==> !log.passed
  {
    PartsAreDistinct(logs, false, 0);
    AgedIsDistinct(Those(logs, false));
    var aged := Aged(Those(logs, false));
    SuffixIsDistinct(aged, Excess(aged, budget));
  }

  lemma SuffixIsDistinct(logs: seq<LogFile>, n: nat)
    requires RunsDistinct(logs) && n <= |logs|
    ensures RunsDistinct(logs[n..]) && forall log :: log in logs[n..] ==> log in logs
  {
  }

  lemma {:induction false} NoPasses(logs: seq<LogFile>)
    requires forall log :: log in logs ==> !log.passed
    ensures Those(logs, true) == []
  {
    if logs != [] {
      assert logs[|logs| - 1] in logs;
      NoPasses(logs[..|logs| - 1]);
    }
  }

  /** Failures alone that fit are left alone. */
  lemma NothingToDo(logs: seq<LogFile>, budget: nat)
    requires Those(logs, true) == [] && Total(logs) <= budget
    ensures Planned(logs, budget).remove == []
  {
    SplitsTotal(logs);
    AgedIsAll(Those(logs, false));
    TotalOfSame(Those(logs, false), Aged(Those(logs, false)));
  }

  // ----- as the program works it out

  /** Decide what goes; nothing overflows as long as the sum of the files does not. */
  method MakePlan(logs: seq<LogFile>, budget: nat) returns (plan: Plan)
    requires Total(logs) < Bytes.U64
    ensures plan == Planned(logs, budget)
  {
    var before, passed, failed := Sort(logs);
    SplitsTotal(logs);
    AgedIsAll(Those(logs, false));
    TotalOfSame(Those(logs, false), failed);
    var passes, afterPasses := DropPasses(passed, before);
    var oldest, after := DropOldest(failed, afterPasses, budget);
    plan := Plan(passes + oldest, before, after, budget);
  }

  /** No subtraction saturates: each takes from a sum it is part of. */
  method DropPasses(passed: seq<LogFile>, before: nat) returns (remove: seq<Removal>, remaining: nat)
    requires Total(passed) <= before
    ensures remove == Marked(passed, NothingToExplain) && remaining + Total(passed) == before
  {
    remaining, remove := before, [];
    for i := 0 to |passed|
      invariant remaining + Total(passed[..i]) == before
      invariant remove == Marked(passed[..i], NothingToExplain)
    {
      OneMoreGone(passed, i);
      TotalCut(passed, i + 1);
      assert remaining >= passed[i].bytes;
      remaining := Less(remaining, passed[i].bytes);
      remove := remove + [Removal(passed[i], NothingToExplain)];
    }
    assert passed[..|passed|] == passed;
  }

  method DropOldest(failed: seq<LogFile>, before: nat, budget: nat) returns (remove: seq<Removal>, remaining: nat)
    requires before == Total(failed)
    ensures remove == Marked(failed[..Excess(failed, budget)], OverBudget)
            && remaining == Total(failed[Excess(failed, budget)..])
  {
    remaining, remove := before, [];
    var i := 0;
    assert failed[0..] == failed;
    while i < |failed| && remaining > budget
      invariant i <= |failed| && remaining == Total(failed[i..])
      invariant forall j :: 0 <= j < i ==> Total(failed[j..]) > budget
      invariant remove == Marked(failed[..i], OverBudget)
    {
      OneFewerLeft(failed, i);
      assert remaining >= failed[i].bytes;
      remaining := Less(remaining, failed[i].bytes);
      remove := remove + [Removal(failed[i], OverBudget)];
      i := i + 1;
    }
    FirstToFit(failed, budget, i);
  }

  /** Sum them, part them by verdict, and put the failures in age order. */
  method Sort(logs: seq<LogFile>) returns (total: nat, passed: seq<LogFile>, aged: seq<LogFile>)
    ensures total == Total(logs) && passed == Those(logs, true) && aged == Aged(Those(logs, false))
  {
    var failed: seq<LogFile> := [];
    total, passed := 0, [];
    for i := 0 to |logs|
      invariant total == Total(logs[..i]) && passed == Those(logs[..i], true) && failed == Those(logs[..i], false)
    {
      assert logs[..i + 1][..i] == logs[..i];
      total := total + logs[i].bytes;
      if logs[i].passed { passed := passed + [logs[i]]; } else { failed := failed + [logs[i]]; }
    }
    assert logs[..|logs|] == logs;
    aged := Aged(failed);
  }

  lemma OneMoreGone(logs: seq<LogFile>, i: nat)
    requires i < |logs|
    ensures Total(logs[..i + 1]) == Total(logs[..i]) + logs[i].bytes
    ensures Marked(logs[..i + 1], NothingToExplain) == Marked(logs[..i], NothingToExplain)
              + [Removal(logs[i], NothingToExplain)]
  {
    assert logs[..i + 1][..i] == logs[..i];
  }

  lemma OneFewerLeft(logs: seq<LogFile>, i: nat)
    requires i < |logs|
    ensures Total(logs[i..]) == logs[i].bytes + Total(logs[i + 1..])
    ensures Marked(logs[..i + 1], OverBudget) == Marked(logs[..i], OverBudget) + [Removal(logs[i], OverBudget)]
  {
    assert logs[i..] == [logs[i]] + logs[i + 1..];
    TotalAppends([logs[i]], logs[i + 1..]);
    TotalOne(logs[i]);
  }

  /** There is one place where what is left first fits. */
  lemma FirstToFit(aged: seq<LogFile>, budget: nat, i: nat)
    requires i <= |aged| && (i == |aged| || Total(aged[i..]) <= budget)
    requires forall j :: 0 <= j < i ==> Total(aged[j..]) > budget
    ensures Excess(aged, budget) == i
  {
    assert Total(aged[|aged|..]) == 0;
  }

  // ----- the end of a log

  function LastOf<T>(lines: seq<T>, n: nat): seq<T> {
    if |lines| <= n then lines else lines[|lines| - n..]
  }

  /** Where the line that starts here ends. */
  function LineEnd(text: string, from: nat): (end: nat)
    requires from <= |text|
    ensures from <= end <= |text| && (forall i :: from <= i < end ==> text[i] != '\n')
            && (end < |text| ==> text[end] == '\n')
    decreases |text| - from
  {
    if from == |text| || text[from] == '\n' then from else LineEnd(text, from + 1)
  }

  /** The lines of a text from here on; a newline at the very end starts no line. */
  function LinesFrom(text: string, from: nat): seq<string>
    requires from <= |text|
    decreases |text| - from
  {
    if from == |text| then []
    else
      var end := LineEnd(text, from);
      [text[from..end]] + if end < |text| then LinesFrom(text, end + 1) else []
  }

  function LinesOf(text: string): seq<string> {
    LinesFrom(text, 0)
  }

  function Join(lines: seq<string>): string {
    if lines == [] then ""
    else if |lines| == 1 then lines[0]
    else lines[0] + "\n" + Join(lines[1..])
  }

  /** The end of a text is missing from its lines when it is a newline. */
  function Ending(text: string): string {
    if text != "" && text[|text| - 1] == '\n' then "\n" else ""
  }

  predicate OneLine(line: string) {
    forall i :: 0 <= i < |line| ==> line[i] != '\n'
  }

  lemma LineIsOne(text: string, from: nat)
    requires from < |text|
    ensures OneLine(text[from..LineEnd(text, from)])
  {
  }

  lemma {:induction false} LinesAreWhole(text: string, from: nat)
    requires from <= |text|
    ensures from < |text| ==> LinesFrom(text, from) != []
    ensures forall line :: line in LinesFrom(text, from) ==> OneLine(line)
    decreases |text| - from
  {
    if from < |text| {
      var end := LineEnd(text, from);
      LineThenRest(text, from);
      LineIsOne(text, from);
      LinesAreWhole(text, NextLine(text, end));
    }
  }

  /** Past the line that ends here and its newline. */
  function NextLine(text: string, end: nat): (next: nat)
    requires end <= |text|
    ensures end <= next <= |text|
  {
    if end < |text| then end + 1 else end
  }

  lemma LineThenRest(text: string, from: nat)
    requires from < |text|
    ensures var end := LineEnd(text, from);
            LinesFrom(text, from) == [text[from..end]] + LinesFrom(text, NextLine(text, end))
  {
  }

  lemma CutAt(text: string, from: nat, end: nat)
    requires from <= end < |text| && text[end] == '\n'
    ensures text[from..] == text[from..end] + "\n" + text[end + 1..]
  {
    assert text[from..] == text[from..end] + text[end..];
    assert text[end..] == [text[end]] + text[end + 1..];
    assert text[from..end] + ("\n" + text[end + 1..]) == text[from..end] + "\n" + text[end + 1..];
  }

  lemma {:induction false} RestRejoins(text: string, from: nat)
    requires from < |text|
    ensures text[from..] == Join(LinesFrom(text, from)) + Ending(text)
    decreases |text| - from
  {
    var next := NextLine(text, LineEnd(text, from));
    if next < |text| {
      RestRejoins(text, next);
      ManyRejoin(text, from, next);
    } else {
      LineThenRest(text, from);
      LastLine(text, from, LineEnd(text, from));
    }
  }

  lemma ManyRejoin(text: string, from: nat, next: nat)
    requires from < |text| && next == NextLine(text, LineEnd(text, from)) < |text|
    requires text[next..] == Join(LinesFrom(text, next)) + Ending(text)
    ensures text[from..] == Join(LinesFrom(text, from)) + Ending(text)
  {
    var end := LineEnd(text, from);
    LineThenRest(text, from);
    LinesAreWhole(text, next);
    CutAt(text, from, end);
    OneLineMore(text[from..], text[from..end], text[next..], LinesFrom(text, next), Ending(text));
  }

  lemma OneLineMore(whole: string, line: string, after: string, rest: seq<string>, ending: string)
    requires rest != [] && whole == line + "\n" + after && after == Join(rest) + ending
    ensures whole == Join([line] + rest) + ending
  {
    JoinMore(line, rest);
    Regroup(line + "\n", Join(rest), ending);
  }

  lemma LastLine(text: string, from: nat, end: nat)
    requires from <= end <= |text| && NextLine(text, end) == |text| && from < |text|
    requires (end < |text| ==> text[end] == '\n') && forall i :: from <= i < end ==> text[i] != '\n'
    ensures text[from..] == Join([text[from..end]]) + Ending(text)
  {
    if end < |text| {
      CutAt(text, from, end);
      assert text[end + 1..] == "";
    }
  }

  lemma Regroup(a: string, b: string, c: string)
    ensures a + (b + c) == (a + b) + c
  {
  }

  lemma JoinMore(line: string, rest: seq<string>)
    requires rest != []
    ensures Join([line] + rest) == line + "\n" + Join(rest)
  {
    assert ([line] + rest)[1..] == rest;
  }

  /** No line holds a newline, and put together they are the text but for a newline at its very end. */
  lemma LinesRejoin(text: string)
    ensures forall line :: line in LinesOf(text) ==> OneLine(line)
    ensures text == Join(LinesOf(text)) + Ending(text)
    ensures LinesOf(text) == [] <==> text == ""
  {
    LinesAreWhole(text, 0);
    if text != "" {
      RestRejoins(text, 0);
      assert text[0..] == text;
    }
  }

  lemma {:induction false} JoinSplits(front: seq<string>, back: seq<string>)
    requires back != []
    ensures Join(front + back) == (if front == [] then "" else Join(front) + "\n") + Join(back)
  {
    if front == [] {
      assert front + back == back;
    } else {
      JoinSplits(front[1..], back);
      assert front + back == [front[0]] + (front[1..] + back);
      assert front == [front[0]] + front[1..];
      JoinMore(front[0], front[1..] + back);
      if front[1..] != [] {
        JoinMore(front[0], front[1..]);
        Regroup(front[0] + "\n", Join(front[1..]) + "\n", Join(back));
      }
    }
  }

  ghost predicate EndsIn(text: string, end: string) {
    |end| <= |text| && text[|text| - |end|..] == end
  }

  /** The last k lines, put together, are how the text ends; and where more lines came before, a newline did. */
  lemma EndOfText(text: string, k: nat)
    requires k <= |LinesOf(text)|
    ensures var all := LinesOf(text);
            EndsIn(text, Join(all[|all| - k..]) + Ending(text)) || k == 0
  {
    var all := LinesOf(text);
    LinesRejoin(text);
    if k > 0 {
      var front, back := all[..|all| - k], all[|all| - k..];
      assert all == front + back;
      JoinSplits(front, back);
      var before := if front == [] then "" else Join(front) + "\n";
      assert text == (before + Join(back)) + Ending(text) == before + (Join(back) + Ending(text));
    }
  }

  /** As many lines as asked for if there are so many, by their places in the text, and the text ends in them. */
  ghost predicate AreTheLast(text: string, n: nat, lines: seq<string>) {
    var all := LinesOf(text);
    && |lines| == (if |all| < n then |all| else n)
    && (forall i :: 0 <= i < |lines| ==> lines[i] == all[|all| - |lines| + i])
    && (lines != [] ==> EndsIn(text, Join(lines) + Ending(text)))
  }

  /** One forward pass over a file with a ring never longer than asked for. */
  method Tail(text: string, n: nat) returns (kept: seq<string>)
    ensures kept == LastOf(LinesOf(text), n)
    ensures AreTheLast(text, n, kept)
  {
    kept := [];
    var pos := 0;
    ghost var done: seq<string> := [];
    while pos < |text|
      invariant pos <= |text| && LinesOf(text) == done + LinesFrom(text, pos)
      invariant kept == LastOf(done, n)
    {
      var end := LineEnd(text, pos);
      LineThenRest(text, pos);
      Append(done, text[pos..end], LinesFrom(text, NextLine(text, end)));
      kept := Push(kept, done, text[pos..end], n);
      done := done + [text[pos..end]];
      pos := NextLine(text, end);
    }
    assert done + [] == done;
    LastIsTheEnd(text, n);
  }

  lemma LastIsTheEnd(text: string, n: nat)
    ensures AreTheLast(text, n, LastOf(LinesOf(text), n))
  {
    EndOfText(text, |LastOf(LinesOf(text), n)|);
  }

  lemma Append(done: seq<string>, line: string, rest: seq<string>)
    ensures done + ([line] + rest) == (done + [line]) + rest
  {
  }

  /** One line more, and the oldest one out if that is too many. */
  method Push(kept: seq<string>, ghost done: seq<string>, line: string, n: nat) returns (r: seq<string>)
    requires kept == LastOf(done, n)
    ensures r == LastOf(done + [line], n)
  {
    r := kept + [line];
    if |r| > n {
      r := r[1..];
    }
  }
}
