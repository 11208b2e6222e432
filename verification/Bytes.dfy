/** Byte counts with unit suffixes: what is read as one, and what is printed for one. */
module Bytes {
  import opened Vocabulary
  import opened Decimal

  const U64: nat := 0x1_0000_0000_0000_0000
  const KB: nat := 1024
  const MB: nat := 1024 * KB
  const GB: nat := 1024 * MB

  type ByteSize = n: nat | n < U64

  predicate IsSpace(c: char) {
    || '\U{9}' <= c <= '\U{D}' || c in {' ', '\U{85}', '\U{A0}', '\U{1680}', '\U{2028}', '\U{2029}', '\U{202F}',
        '\U{205F}', '\U{3000}'}
    || '\U{2000}' <= c <= '\U{200A}'
  }

  function TrimStart(s: string): string {
    if s != "" && IsSpace(s[0]) then TrimStart(s[1..]) else s
  }

  function TrimEnd(s: string): string {
    if s != "" && IsSpace(s[|s| - 1]) then TrimEnd(s[..|s| - 1]) else s
  }

  function Trim(s: string): string {
    TrimEnd(TrimStart(s))
  }

  function DigitsEnd(s: string): (n: nat)
    ensures n <= |s| && AllDigits(s[..n]) && (n < |s| ==> !IsDigit(s[n]))
  {
    if s != "" && IsDigit(s[0]) then 1 + DigitsEnd(s[1..]) else 0
  }

  function Upper(s: string): (r: string)
    ensures |r| == |s|
  {
    seq(|s|, i requires 0 <= i < |s| => if 'a' <= s[i] <= 'z' then s[i] - 'a' + 'A' else s[i])
  }

  function Multiplier(suffix: string): Option<nat> {
    if suffix in {"", "B"} then Some(1)
    else if suffix in {"K", "KB", "KIB"} then Some(KB)
    else if suffix in {"M", "MB", "MIB"} then Some(MB)
    else if suffix in {"G", "GB", "GIB"} then Some(GB)
    else None
  }

  /** The leading digits and what the suffix multiplies them by. */
  function Split(raw: string): (r: Result<(string, nat), string>)
    ensures r.Ok? ==> AllDigits(r.value.0) && r.value.1 >= 1
  {
    var text := Trim(raw);
    if text == "" then Err("a size cannot be empty")
    else
      var n := DigitsEnd(text);
      if n == 0 then Err("does not start with a number")
      else
        var unit := Multiplier(Upper(Trim(text[n..])));
        if unit.None? then Err("not a size suffix") else Ok((text[..n], unit.value))
  }

  /** A value that does not fit is an error, never a smaller size. */
  function Parse(raw: string): (r: Result<ByteSize, string>)
    ensures r.Ok? <==> Split(raw).Ok? && Value(Split(raw).value.0) * Split(raw).value.1 < U64
    ensures r.Ok? ==> r.value == Value(Split(raw).value.0) * Split(raw).value.1
  {
    var parts := Split(raw);
    if parts.Err? then Err(parts.error)
    else
      var value, unit := Value(parts.value.0), parts.value.1;
      AtLeastItself(value, unit);
      if value >= U64 then Err("not a whole number")
      else if value * unit >= U64 then Err("too large to be a size in bytes")
      else Ok(value * unit)
  }

  lemma AtLeastItself(value: nat, unit: nat)
    requires unit >= 1
    ensures value * unit >= value
  {
  }

  /** Nothing is lost in printing: a unit is used only if it leaves no remainder, the biggest such first. */
  function Display(size: ByteSize): string {
    if size >= GB && size % GB == 0 then Digits(size / GB) + "GB"
    else if size >= MB && size % MB == 0 then Digits(size / MB) + "MB"
    else if size >= KB && size % KB == 0 then Digits(size / KB) + "KB"
    else Digits(size) + "B"
  }

  /** Digits followed by something else: the split falls between them. */
  lemma {:induction false} DigitsEndIs(digits: string, rest: string)
    requires AllDigits(digits) && (rest != "" ==> !IsDigit(rest[0]))
    ensures DigitsEnd(digits + rest) == |digits|
  {
    if digits != "" {
      assert (digits + rest)[1..] == digits[1..] + rest;
      DigitsEndIs(digits[1..], rest);
    } else {
      assert digits + rest == rest;
    }
  }

  lemma NothingToTrim(s: string)
    requires s != "" && !IsSpace(s[0]) && !IsSpace(s[|s| - 1])
    ensures Trim(s) == s
  {
  }

  lemma PlainUnit(unit: string)
    requires unit in {"B", "KB", "MB", "GB"}
    ensures Trim(unit) == unit && Upper(unit) == unit
    ensures unit != "" && !IsDigit(unit[0]) && !IsSpace(unit[|unit| - 1])
  {
    NothingToTrim(unit);
    assert |unit| == 1 || |unit| == 2;
  }

  lemma DigitIsNoSpace(s: string)
    requires s != "" && AllDigits(s)
    ensures !IsSpace(s[0])
  {
  }

  lemma SplitsAs(n: nat, unit: string)
    requires unit in {"B", "KB", "MB", "GB"}
    ensures var text := Digits(n) + unit;
            && Trim(text) == text && DigitsEnd(text) == |Digits(n)|
            && text[..|Digits(n)|] == Digits(n) && text[|Digits(n)|..] == unit
  {
    PlainUnit(unit);
    DigitIsNoSpace(Digits(n));
    NothingToTrim(Digits(n) + unit);
    DigitsEndIs(Digits(n), unit);
  }

  lemma ParsesAs(n: nat, unit: string, size: nat)
    requires unit in {"B", "KB", "MB", "GB"} && Multiplier(unit).Some? && size == n * Multiplier(unit).value < U64
    ensures Parse(Digits(n) + unit) == Ok(size)
  {
    SplitsAs(n, unit);
    PlainUnit(unit);
    DigitsReadBack(n);
  }

  lemma UnitsOf(size: nat, unit: nat)
    requires unit > 0 && size % unit == 0
    ensures size == size / unit * unit
  {
  }

  /** Whatever is displayed can be pasted back, for every size there is. */
  lemma DisplayedSizeParsesBack(size: ByteSize)
    ensures Parse(Display(size)) == Ok(size)
  {
    if size >= GB && size % GB == 0 {
      UnitsOf(size, GB);
      ParsesAs(size / GB, "GB", size);
    } else if size >= MB && size % MB == 0 {
      UnitsOf(size, MB);
      ParsesAs(size / MB, "MB", size);
    } else if size >= KB && size % KB == 0 {
      UnitsOf(size, KB);
      ParsesAs(size / KB, "KB", size);
    } else {
      ParsesAs(size, "B", size);
    }
  }

  /** Sizes never print alike. */
  lemma DisplayIsInjective(a: ByteSize, b: ByteSize)
    requires Display(a) == Display(b)
    ensures a == b
  {
    DisplayedSizeParsesBack(a);
    DisplayedSizeParsesBack(b);
  }

  // ----- forgiving in spacing and spelling

  predicate AllSpace(s: string) {
    forall i :: 0 <= i < |s| ==> IsSpace(s[i])
  }

  lemma {:induction false} TrimStartSkips(a: string, s: string)
    requires AllSpace(a)
    ensures TrimStart(a + s) == TrimStart(s)
  {
    if a == "" {
      assert a + s == s;
    } else {
      assert (a + s)[1..] == a[1..] + s;
      TrimStartSkips(a[1..], s);
    }
  }

  lemma {:induction false} TrimEndSkips(s: string, c: string)
    requires AllSpace(c)
    ensures TrimEnd(s + c) == TrimEnd(s)
  {
    if c == "" {
      assert s + c == s;
    } else {
      var n := |c| - 1;
      assert (s + c)[..|s + c| - 1] == s + c[..n];
      TrimEndSkips(s, c[..n]);
    }
  }

  /** Spaces around something with none at its ends. */
  lemma TrimsTo(a: string, s: string, c: string)
    requires AllSpace(a) && AllSpace(c)
    requires s != "" && !IsSpace(s[0]) && !IsSpace(s[|s| - 1])
    ensures Trim(a + s + c) == s
  {
    assert a + s + c == a + (s + c);
    TrimStartSkips(a, s + c);
    assert (s + c)[0] == s[0];
    TrimEndSkips(s, c);
  }

  /** A known unit, however it is cased, is made of letters. */
  lemma UnitIsLetters(unit: string)
    requires unit != "" && Multiplier(Upper(unit)).Some?
    ensures !IsDigit(unit[0]) && !IsSpace(unit[0]) && !IsSpace(unit[|unit| - 1])
  {
    assert Upper(unit)[0] in {'B', 'K', 'M', 'G'};
    assert Upper(unit)[|unit| - 1] in {'B', 'K', 'M', 'G'};
  }

  lemma LastIsNoSpace(digits: string)
    requires digits != "" && AllDigits(digits)
    ensures !IsSpace(digits[0]) && !IsSpace(digits[|digits| - 1])
  {
  }

  /** Where the number and its unit are found, whatever spaces stand before, between and after. */
  lemma SplitsForgivingly(a: string, digits: string, b: string, unit: string, c: string)
    requires AllSpace(a) && AllSpace(b) && AllSpace(c)
    requires digits != "" && AllDigits(digits) && Multiplier(Upper(unit)).Some?
    ensures Split(a + digits + b + unit + c) == Ok((digits, Multiplier(Upper(unit)).value))
  {
    LastIsNoSpace(digits);
    if unit == "" {
      assert a + digits + b + unit + c == a + digits + (b + c);
      TrimsTo(a, digits, b + c);
      SplitsAt(a + digits + b + unit + c, digits, "", "");
    } else {
      UnitIsLetters(unit);
      var text := digits + b + unit;
      assert a + digits + b + unit + c == a + text + c;
      assert text[0] == digits[0] && text[|text| - 1] == unit[|unit| - 1];
      TrimsTo(a, text, c);
      SplitsAt(a + digits + b + unit + c, digits, b, unit);
    }
  }

  lemma SplitsAt(raw: string, digits: string, b: string, unit: string)
    requires AllSpace(b) && digits != "" && AllDigits(digits) && Multiplier(Upper(unit)).Some?
    requires Trim(raw) == digits + b + unit && (unit == "" ==> b == "")
    ensures Split(raw) == Ok((digits, Multiplier(Upper(unit)).value))
  {
    var text, rest := Trim(raw), b + unit;
    if unit != "" {
      UnitIsLetters(unit);
      TrimsTo(b, unit, "");
      assert b + unit + "" == rest;
    }
    assert text == digits + rest;
    assert rest != "" ==> !IsDigit(rest[0]);
    DigitsEndIs(digits, rest);
    assert text[..|digits|] == digits && text[|digits|..] == rest;
  }

  /** Spaces around and between, and any casing of the unit, make no difference to what is read. */
  lemma SpellingIsForgiven(a: string, n: nat, b: string, unit: string, c: string)
    requires AllSpace(a) && AllSpace(b) && AllSpace(c) && Multiplier(Upper(unit)).Some?
    ensures var size := n * Multiplier(Upper(unit)).value;
            var read := Parse(a + Digits(n) + b + unit + c);
            if size < U64 then read == Ok(size) else read.Err?
  {
    SplitsForgivingly(a, Digits(n), b, unit, c);
    DigitsReadBack(n);
  }

  // ----- what is read, without the parser

  /** This word in capitals, small letters or any mixture. */
  predicate Spells(unit: string, word: string) {
    |unit| == |word| && forall i :: 0 <= i < |word| ==> unit[i] == word[i] || unit[i] as int == word[i] as int + 32
  }

  /** What each suffix stands for. */
  predicate Means(unit: string, bytes: nat) {
    || ((Spells(unit, "") || Spells(unit, "B")) && bytes == 1)
    || ((Spells(unit, "K") || Spells(unit, "KB") || Spells(unit, "KIB")) && bytes == 1024)
    || ((Spells(unit, "M") || Spells(unit, "MB") || Spells(unit, "MIB")) && bytes == 1048576)
    || ((Spells(unit, "G") || Spells(unit, "GB") || Spells(unit, "GIB")) && bytes == 1073741824)
  }

  /** The characters Unicode calls white space. */
  lemma SpacesAre(c: char)
    ensures IsSpace(c) <==>
              var code := c as int;
              || 9 <= code <= 13 || code in {32, 133, 160, 5760, 8232, 8233, 8239, 8287, 12288}
              || 8192 <= code <= 8202
  {
  }

  lemma UpperSpells(unit: string, word: string)
    requires forall i :: 0 <= i < |word| ==> 'A' <= word[i] <= 'Z'
    ensures Upper(unit) == word <==> Spells(unit, word)
  {
    if Upper(unit) == word {
      forall i | 0 <= i < |word| ensures unit[i] == word[i] || unit[i] as int == word[i] as int + 32 {
        assert Upper(unit)[i] == word[i];
      }
    }
    if Spells(unit, word) {
      forall i | 0 <= i < |word| ensures Upper(unit)[i] == word[i] {
        assert unit[i] == word[i] || unit[i] as int == word[i] as int + 32;
      }
    }
  }

  lemma MultiplierMeans(unit: string, bytes: nat)
    ensures Multiplier(Upper(unit)) == Some(bytes) <==> Means(unit, bytes)
  {
    UpperSpells(unit, "");
    UpperSpells(unit, "B");
    UpperSpells(unit, "K");
    UpperSpells(unit, "KB");
    UpperSpells(unit, "KIB");
    UpperSpells(unit, "M");
    UpperSpells(unit, "MB");
    UpperSpells(unit, "MIB");
    UpperSpells(unit, "G");
    UpperSpells(unit, "GB");
    UpperSpells(unit, "GIB");
  }

  lemma {:induction false} TrimStartCuts(s: string) returns (a: string)
    ensures s == a + TrimStart(s) && AllSpace(a)
    ensures TrimStart(s) != "" ==> !IsSpace(TrimStart(s)[0])
  {
    if s != "" && IsSpace(s[0]) {
      var rest := TrimStartCuts(s[1..]);
      a := [s[0]] + rest;
      assert s == [s[0]] + s[1..];
      assert [s[0]] + (rest + TrimStart(s)) == ([s[0]] + rest) + TrimStart(s);
    } else {
      a := "";
    }
  }

  lemma {:induction false} TrimEndCuts(s: string) returns (c: string)
    ensures s == TrimEnd(s) + c && AllSpace(c)
  {
    if s != "" && IsSpace(s[|s| - 1]) {
      var n := |s| - 1;
      var rest := TrimEndCuts(s[..n]);
      c := rest + [s[n]];
      assert s == s[..n] + [s[n]];
      assert (TrimEnd(s) + rest) + [s[n]] == TrimEnd(s) + (rest + [s[n]]);
    } else {
      c := "";
    }
  }

  lemma TrimCuts(s: string) returns (a: string, c: string)
    ensures s == a + Trim(s) + c && AllSpace(a) && AllSpace(c)
  {
    a := TrimStartCuts(s);
    c := TrimEndCuts(TrimStart(s));
    assert a + (Trim(s) + c) == a + Trim(s) + c;
  }

  /** A text put together of spaces, digits, spaces, a suffix worth so many bytes, and spaces. */
  ghost predicate Spelled(raw: string, digits: string, bytes: nat) {
    && digits != "" && AllDigits(digits)
    && exists a, b, unit, c ::
         AllSpace(a) && AllSpace(b) && AllSpace(c) && Means(unit, bytes) && raw == a + digits + b + unit + c
  }

  lemma SpelledSplits(raw: string, digits: string, bytes: nat)
    requires Spelled(raw, digits, bytes)
    ensures Split(raw) == Ok((digits, bytes))
  {
    var a, b, unit, c :|
      AllSpace(a) && AllSpace(b) && AllSpace(c) && Means(unit, bytes) && raw == a + digits + b + unit + c;
    MultiplierMeans(unit, bytes);
    SplitsForgivingly(a, digits, b, unit, c);
  }

  lemma SplitIsSpelled(raw: string)
    requires Split(raw).Ok?
    ensures Spelled(raw, Split(raw).value.0, Split(raw).value.1)
  {
    var text := Trim(raw);
    var n := DigitsEnd(text);
    var digits, rest, bytes := text[..n], text[n..], Split(raw).value.1;
    var a, c := TrimCuts(raw);
    var b, d := TrimCuts(rest);
    MultiplierMeans(Trim(rest), bytes);
    assert text == digits + rest;
    Regrouped(raw, a, digits, b, Trim(rest), d, c);
    assert AllSpace(d + c);
  }

  lemma Regrouped(raw: string, a: string, digits: string, b: string, unit: string, d: string, c: string)
    requires raw == a + (digits + (b + unit + d)) + c
    ensures raw == a + digits + b + unit + (d + c)
  {
  }

  /**
   Exactly the sizes written as a whole number and a suffix are read, spaces
   around and between and any casing allowed, and only if the bytes fit 64 bits.
   */
  lemma ParseReads(raw: string, size: nat)
    ensures Parse(raw) == Ok(size) <==>
              exists digits, bytes :: Spelled(raw, digits, bytes)
                  && size == Value(digits) * bytes < 0x1_0000_0000_0000_0000
  {
    if Parse(raw) == Ok(size) {
      SplitIsSpelled(raw);
    }
    if digits, bytes :| Spelled(raw, digits, bytes) && size == Value(digits) * bytes < 0x1_0000_0000_0000_0000 {
      SpelledSplits(raw, digits, bytes);
    }
  }

  /** The same of a printed number straight before its suffix. */
  lemma ParseOfPrinted(n: nat, unit: string, bytes: nat)
    requires Means(unit, bytes)
    ensures var read := Parse(Digits(n) + unit);
            if n * bytes < 0x1_0000_0000_0000_0000 then read == Ok(n * bytes) else read.Err?
  {
    DigitsReadBack(n);
    PrintedSplits(n, unit, bytes);
  }

  lemma PrintedSplits(n: nat, unit: string, bytes: nat)
    requires Means(unit, bytes)
    ensures Split(Digits(n) + unit) == Ok((Digits(n), bytes))
  {
    MultiplierMeans(unit, bytes);
    assert Digits(n) + unit == "" + Digits(n) + "" + unit + "";
    SplitsForgivingly("", Digits(n), "", unit, "");
  }

  /** A size is printed as so many of the largest unit it is a multiple of; zero is in bytes. */
  lemma DisplayedUnit(size: ByteSize) returns (n: nat, unit: string, bytes: nat)
    ensures Display(size) == Digits(n) + unit && n * bytes == size
    ensures (unit, bytes) in {("B", 1), ("KB", 1024), ("MB", 1048576), ("GB", 1073741824)}
    ensures forall larger | larger in {1024, 1048576, 1073741824} && larger > bytes :: size == 0 || size % larger != 0
    ensures size == 0 ==> bytes == 1
  {
    if size >= GB && size % GB == 0 {
      n, unit, bytes := size / GB, "GB", GB;
    } else if size >= MB && size % MB == 0 {
      n, unit, bytes := size / MB, "MB", MB;
    } else if size >= KB && size % KB == 0 {
      n, unit, bytes := size / KB, "KB", KB;
    } else {
      n, unit, bytes := size, "B", 1;
    }
  }
}
