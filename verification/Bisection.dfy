/** A red batch is either one entry, which is to blame, or two smaller batches. */
module Bisection {
  import opened Vocabulary

  datatype Verdict = Culprit(entry: EntryId) | Bisect(left: seq<EntryId>, right: seq<EntryId>)

  function Decide(entries: seq<EntryId>): (r: Result<Verdict, string>)
    ensures r.Err? <==> entries == []
    ensures r.Ok? && r.value.Culprit? ==> entries == [r.value.entry]
    ensures r.Ok? && r.value.Bisect? ==>
              && r.value.left + r.value.right == entries
              && 0 < |r.value.left| <= |r.value.right| <= |r.value.left| + 1
  {
    if entries == [] then Err("cannot bisect an empty candidate")
    else if |entries| == 1 then Ok(Culprit(entries[0]))
    else
      var half := |entries| / 2;
      Ok(Bisect(entries[..half], entries[half..]))
  }
}
