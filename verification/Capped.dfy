/** A gate's output on disk: its beginning and its end, whatever came in between. */
module CappedLog {
  import opened Decimal
  import Bytes

  newtype byte = b: int | 0 <= b < 256

  function Half(cap: nat): nat {
    if cap / 2 > 1 then cap / 2 else 1
  }

  function Ascii(s: string): (r: seq<byte>)
    ensures |r| == |s| && forall i :: 0 <= i < |s| && s[i] as int < 128 ==> r[i] as int == s[i] as int
  {
    seq(|s|, i requires 0 <= i < |s| => (s[i] as int % 256) as byte)
  }

  const BEFORE := "\n[sasse dropped "
  const AFTER := " bytes from the middle of this log]\n"

  function Marker(dropped: nat): seq<byte> {
    Ascii(BEFORE + Digits(dropped) + AFTER)
  }

  /** What a stream comes to on disk, said without any buffering. */
  function Stored(stream: seq<byte>, cap: nat): seq<byte> {
    var half := Half(cap);
    if |stream| <= 2 * half then stream
    else stream[..half] + Marker(|stream| - 2 * half) + stream[|stream| - half..]
  }

  /** What a file says it dropped between its two ends, each at most so long. */
  ghost predicate Cut(stream: seq<byte>, file: seq<byte>, kept: nat)
    requires 2 * kept < |stream|
  {
    exists count ::
      && AllDigits(count) && Value(count) == |stream| - 2 * kept
      && file == stream[..kept]
         + Ascii("\n[sasse dropped " + count + " bytes from the middle of this log]\n")
         + stream[|stream| - kept..]
  }

  /**
   The file of a stream, by the allowance alone: half of it for either end, and
   one byte each if it is too small to halve.
   */
  ghost predicate Fits(stream: seq<byte>, file: seq<byte>, cap: nat) {
    var kept := if cap < 2 then 1 else cap / 2;
    if |stream| <= 2 * kept then file == stream else Cut(stream, file, kept)
  }

  lemma StoredIsCut(stream: seq<byte>, cap: nat)
    ensures Fits(stream, Stored(stream, cap), cap)
  {
    var kept := if cap < 2 then 1 else cap / 2;
    if |stream| > 2 * kept {
      assert Half(cap) == kept;
      MarkerSays(|stream| - 2 * kept);
    }
  }

  lemma MarkerSays(dropped: nat)
    ensures var count := Digits(dropped);
            && AllDigits(count) && Value(count) == dropped
            && Marker(dropped) == Ascii("\n[sasse dropped " + count + " bytes from the middle of this log]\n")
  {
    DigitsReadBack(dropped);
  }

  class Capped {
    const cap: nat
    var file: seq<byte>
    var headRoom: nat
    var tail: seq<byte>
    var dropped: nat
    ghost var stream: seq<byte>  // everything taken so far

    /** The head is on disk, the end of the rest is in the ring, and the count is what fell out of it. */
    ghost predicate Valid()
      reads this
    {
      var half := Half(cap);
      && headRoom <= half && |file| == half - headRoom && file <= stream
      && (headRoom > 0 ==> file == stream && tail == [] && dropped == 0)
      && |tail| <= half && dropped + |tail| == |stream| - |file|
      && tail == stream[|stream| - |tail|..]
      && (dropped > 0 ==> |tail| == half)
    }

    constructor (cap: nat)
      ensures Valid() && this.cap == cap && stream == []
    {
      this.cap := cap;
      file, headRoom, tail, dropped := [], Half(cap), [], 0;
      stream := [];
    }

    method Take(chunk: seq<byte>)
      requires Valid()
      modifies this
      ensures Valid() && stream == old(stream) + chunk
    {
      var rest := chunk;
      if headRoom > 0 {
        rest := FillHead(chunk);
      }
      var i := 0;
      while i < |rest|
        invariant i <= |rest| && Valid() && (i < |rest| ==> headRoom == 0)
        invariant stream + rest[i..] == old(stream) + chunk
      {
        assert stream + rest[i..] == (stream + [rest[i]]) + rest[i + 1..];
        Keep(rest[i]);
        i := i + 1;
      }
      assert stream + rest[i..] == stream;
    }

    /** What the head still has room for goes straight to disk. */
    method FillHead(chunk: seq<byte>) returns (rest: seq<byte>)
      requires Valid() && headRoom > 0
      modifies this`file, this`headRoom, this`stream
      ensures Valid() && stream + rest == old(stream) + chunk && (rest != [] ==> headRoom == 0)
    {
      var take := if headRoom < |chunk| then headRoom else |chunk|;
      file := file + chunk[..take];
      stream := stream + chunk[..take];
      headRoom := headRoom - take;
      rest := chunk[take..];
      assert chunk[..take] + rest == chunk;
    }

    /** One byte past the head: the ring keeps it and lets its oldest go. */
    method Keep(b: byte)
      requires Valid() && headRoom == 0
      modifies this`tail, this`dropped, this`stream
      ensures Valid() && stream == old(stream) + [b]
    {
      if |tail| == Half(cap) {
        tail := tail[1..];
        dropped := dropped + 1;
      }
      tail := tail + [b];
      stream := stream + [b];
    }

    method Finish()
      requires Valid()
      modifies this`file
      ensures file == Stored(stream, cap) && Fits(stream, file, cap)
    {
      PutTogether(stream, cap, file, tail, dropped);
      StoredIsCut(stream, cap);
      if dropped > 0 {
        file := file + Marker(dropped);
      }
      file := file + tail;
    }
  }

  /** The head, the marker if anything fell out of the ring, and the ring. */
  lemma PutTogether(stream: seq<byte>, cap: nat, head: seq<byte>, tail: seq<byte>, dropped: nat)
    requires head <= stream && |tail| <= |stream| - |head| && tail == stream[|stream| - |tail|..]
    requires dropped + |tail| == |stream| - |head| && |head| <= Half(cap) && |tail| <= Half(cap)
    requires dropped > 0 ==> |head| == |tail| == Half(cap)
    ensures Stored(stream, cap) == if dropped > 0 then head + Marker(dropped) + tail else head + tail
  {
    if dropped > 0 {
      assert head == stream[..Half(cap)] && dropped == |stream| - 2 * Half(cap);
    } else {
      assert head + tail == stream;
    }
  }

  function Joined(chunks: seq<seq<byte>>): seq<byte> {
    if chunks == [] then [] else Joined(chunks[..|chunks| - 1]) + chunks[|chunks| - 1]
  }

  /** However the pipe cuts the gate's output up, the file is what the whole output comes to. */
  method Transcribe(chunks: seq<seq<byte>>, cap: nat) returns (file: seq<byte>)
    ensures file == Stored(Joined(chunks), cap) && Fits(Joined(chunks), file, cap)
    ensures |Joined(chunks)| < cap ==> file == Joined(chunks)
  {
    var log := new Capped(cap);
    var i := 0;
    while i < |chunks|
      invariant i <= |chunks| && log.Valid() && log.cap == cap && log.stream == Joined(chunks[..i])
    {
      assert chunks[..i + 1][..i] == chunks[..i];
      log.Take(chunks[i]);
      i := i + 1;
    }
    assert chunks[..i] == chunks;
    log.Finish();
    file := log.file;
  }

  // ----- what the stored form promises

  /** For any stream a 64-bit count can describe, the marker is at most 72 bytes. */
  lemma MarkerIsShort(dropped: nat)
    requires dropped < Bytes.U64
    ensures |Marker(dropped)| <= 72
  {
    assert Power(20) == 100_000_000_000_000_000_000 by {
      assert Power(5) == 100_000;
      assert Power(10) == 100_000 * 100_000 by { PowerAdds(5, 5); }
      PowerAdds(10, 10);
    }
    DigitsAreFew(dropped, 20);
    assert |BEFORE| == 16 && |AFTER| == 36;
  }

  lemma {:induction false} PowerAdds(a: nat, b: nat)
    ensures Power(a + b) == Power(a) * Power(b)
  {
    if a > 0 { PowerAdds(a - 1, b); }
  }

  /** The limit on what the file holds, for any stream a 64-bit count can describe; what fits is stored as it is. */
  lemma StoredFits(stream: seq<byte>, cap: nat)
    requires |stream| < Bytes.U64
    ensures |Stored(stream, cap)| <= (if cap > 2 then cap else 2) + 72
    ensures |stream| < cap || |stream| <= (if cap < 2 then 2 else cap / 2 * 2) ==> Stored(stream, cap) == stream
  {
    if |stream| > 2 * Half(cap) { MarkerIsShort(|stream| - 2 * Half(cap)); }
  }

  /** Both ends are whole, and what was stored and what the marker counts make up the whole stream. */
  lemma NothingUnaccounted(stream: seq<byte>, cap: nat, kept: nat)
    requires kept == (if cap < 2 then 1 else cap / 2) && |stream| > 2 * kept
    ensures var file := Stored(stream, cap);
            && |file| >= 2 * kept && file[..kept] == stream[..kept]
            && file[|file| - kept..] == stream[|stream| - kept..]
            && exists marker, count ::
                 && file == stream[..kept] + marker + stream[|stream| - kept..]
                 && marker == Ascii("\n[sasse dropped " + count + " bytes from the middle of this log]\n")
                 && AllDigits(count) && |file| - |marker| + Value(count) == |stream|
  {
    StoredIsCut(stream, cap);
    var file := Stored(stream, cap);
    var count :|
      && AllDigits(count) && Value(count) == |stream| - 2 * kept
      && file == stream[..kept]
         + Ascii("\n[sasse dropped " + count + " bytes from the middle of this log]\n")
         + stream[|stream| - kept..];
    var marker := Ascii("\n[sasse dropped " + count + " bytes from the middle of this log]\n");
    assert file == stream[..kept] + marker + stream[|stream| - kept..];
  }
}
