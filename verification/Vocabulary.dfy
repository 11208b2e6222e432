/** Names and small values shared by the whole model. */
module Vocabulary {

  datatype Option<+T> = None | Some(value: T)

  datatype Result<+T, +E> = Ok(value: T) | Err(error: E)

  /** An object id. Only equality is ever asked of it. */
  type Sha = nat

  type EntryId = nat

  type CandidateId = nat

  type Pid = nat

  /** Fencing token of one lease acquisition. */
  type Token = nat

  /** A queue is a base branch of a repository; queues share the tables. */
  datatype Queue = Queue(repo: string, base: string)

  datatype RawConfig = RawConfig(gate: string, maxBatch: nat, maxAttempts: nat, onSettle: Option<string>)

  /** What parsing guarantees of a committed configuration. */
  type Config = c: RawConfig | c.maxBatch >= 1 && c.maxAttempts >= 1 witness RawConfig("gate", 1, 1, None)

  /** Floor of the binary logarithm; 0 for 0, which no caller asks. */
  function Log2(n: nat): nat {
    if n < 2 then 0 else 1 + Log2(n / 2)
  }

  /** Length of n in binary; 0 has none. */
  function Bits(n: nat): nat {
    if n == 0 then 0 else 1 + Bits(n / 2)
  }

  lemma Log2Monotone(a: nat, b: nat)
    requires a <= b
    ensures Log2(a) <= Log2(b)
  {
    if a >= 2 {
      Log2Monotone(a / 2, b / 2);
    }
  }

  lemma BitsMonotone(a: nat, b: nat)
    requires a <= b
    ensures Bits(a) <= Bits(b)
  {
    if a > 0 {
      BitsMonotone(a / 2, b / 2);
    }
  }

  ghost predicate Distinct<T(!new)>(s: seq<T>) {
    forall i, j :: 0 <= i < j < |s| ==> s[i] != s[j]
  }

  /** The first position from here on that holds a marked number. */
  function FirstIn(xs: seq<nat>, marked: set<nat>, from: nat): (r: Option<nat>)
    requires from <= |xs|
    ensures r.Some? ==> from <= r.value < |xs| && xs[r.value] in marked && forall i :: from <= i < r.value ==>
              xs[i] !in marked
    ensures r.None? ==> forall i :: from <= i < |xs| ==> xs[i] !in marked
    decreases |xs| - from
  {
    if from == |xs| then None
    else if xs[from] in marked then Some(from)
    else FirstIn(xs, marked, from + 1)
  }
}
