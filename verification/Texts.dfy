/** Text as the settings and scheme parsers see it: UTF-8 bytes, with the
    `split_once`, `split`, `lines` and number-parsing rules of the Rust standard library. */
module Texts {
  import opened Bytes
  import opened Options

  type Text = seq<Byte>

  const LF: Byte := 10
  const CR: Byte := 13
  const PLUS: Byte := 43
  const COMMA: Byte := 44
  const MINUS: Byte := 45
  const EQUALS: Byte := 61

  /** ASCII text; characters outside ASCII are not used by any constant of the program. */
  function Ascii(s: string): (t: Text)
    requires forall i :: 0 <= i < |s| ==> s[i] < 128 as char
    ensures |t| == |s| && forall i :: 0 <= i < |s| ==> t[i] == s[i] as int
  {
    seq(|s|, i requires 0 <= i < |s| => s[i] as int)
  }

  function IndexOf(t: Text, c: Byte): (r: Option<nat>)
    ensures r.Some? ==> r.value < |t| && t[r.value] == c && c !in t[..r.value]
    ensures r.None? <==> c !in t
  {
    if t == [] then None
    else if t[0] == c then Some(0)
    else
      match IndexOf(t[1..], c)
      case None => None
      case Some(i) => assert t[..i + 1] == [t[0]] + t[1..][..i]; Some(i + 1)
  }

  function SplitOnce(t: Text, c: Byte): (r: Option<(Text, Text)>)
    ensures r.None? <==> c !in t
    ensures r.Some? ==> t == r.value.0 + [c] + r.value.1 && c !in r.value.0
  {
    match IndexOf(t, c)
    case None => None
    case Some(i) => Some((t[..i], t[i + 1..]))
  }

  /** `str::split`: always at least one piece. */
  function Split(t: Text, c: Byte): (pieces: seq<Text>)
    ensures |pieces| >= 1
    decreases |t|
  {
    match IndexOf(t, c)
    case None => [t]
    case Some(i) => [t[..i]] + Split(t[i + 1..], c)
  }

  function StripCr(t: Text): Text
  {
    if t != [] && t[|t| - 1] == CR then t[..|t| - 1] else t
  }

  /** `str::lines`: a final line end opens no further line, and a carriage return is
      only stripped in front of a line feed. */
  function Lines(t: Text): seq<Text>
    decreases |t|
  {
    if t == [] then []
    else
      match IndexOf(t, LF)
      case None => [t]
      case Some(i) => [StripCr(t[..i])] + Lines(t[i + 1..])
  }

  lemma {:induction false} IndexOfFirst(front: Text, c: Byte, rest: Text)
    requires c !in front
    ensures IndexOf(front + [c] + rest, c) == Some(|front|)
  {
    var t := front + [c] + rest;
    if front != [] {
      assert t[1..] == front[1..] + [c] + rest;
      IndexOfFirst(front[1..], c, rest);
    }
  }

  lemma SplitOnceFirst(front: Text, c: Byte, rest: Text)
    requires c !in front
    ensures SplitOnce(front + [c] + rest, c) == Some((front, rest))
  {
    IndexOfFirst(front, c, rest);
    var t := front + [c] + rest;
    assert t[..|front|] == front && t[|front| + 1..] == rest;
  }

  lemma LinesCons(line: Text, rest: Text)
    requires LF !in line && StripCr(line) == line
    ensures Lines(line + [LF] + rest) == [line] + Lines(rest)
  {
    var t := line + [LF] + rest;
    IndexOfFirst(line, LF, rest);
    assert t[..|line|] == line && t[|line| + 1..] == rest;
  }

  lemma LinesCrLf(line: Text, rest: Text)
    requires LF !in line
    ensures Lines(line + [CR] + [LF] + rest) == [line] + Lines(rest)
  {
    var front := line + [CR];
    var t := front + [LF] + rest;
    IndexOfFirst(front, LF, rest);
    assert t[..|front|] == front && t[|front| + 1..] == rest;
    assert StripCr(front) == line;
  }

  // ---- Numbers ----

  predicate IsDigit(b: Byte) { 48 <= b <= 57 }

  /** The value of a non-empty string of digits. */
  function DigitsValue(t: Text): Option<nat>
  {
    if t == [] || !IsDigit(t[|t| - 1]) then None
    else if |t| == 1 then Some(t[0] - 48)
    else
      match DigitsValue(t[..|t| - 1])
      case None => None
      case Some(high) => Some(high * 10 + t[|t| - 1] - 48)
  }

  /** `parse` for the unsigned types, whose largest value is `max`. */
  function ParseUnsigned(t: Text, max: nat): (r: Option<nat>)
    ensures r.Some? ==> r.value <= max
  {
    var digits := if t != [] && t[0] == PLUS then t[1..] else t;
    match DigitsValue(digits)
    case None => None
    case Some(n) => if n <= max then Some(n) else None
  }

  const I64_MAX: nat := 0x7fff_ffff_ffff_ffff

  /** `parse::<i64>`. */
  function ParseI64(t: Text): (r: Option<int>)
    ensures r.Some? ==> -(I64_MAX as int) - 1 <= r.value <= I64_MAX
  {
    if t != [] && t[0] == MINUS then
      match DigitsValue(t[1..])
      case None => None
      case Some(n) => if n <= I64_MAX + 1 then Some(-(n as int)) else None
    else
      match ParseUnsigned(t, I64_MAX)
      case None => None
      case Some(n) => Some(n)
  }

  /** `to_string` of a number. */
  function Decimal(n: nat): (t: Text)
    ensures t != [] && forall i :: 0 <= i < |t| ==> IsDigit(t[i])
  {
    if n < 10 then [48 + n] else Decimal(n / 10) + [48 + n % 10]
  }

  lemma {:induction false} DigitsOfDecimal(n: nat)
    ensures DigitsValue(Decimal(n)) == Some(n)
  {
    if n >= 10 {
      var t := Decimal(n);
      assert t[..|t| - 1] == Decimal(n / 10);
      DigitsOfDecimal(n / 10);
    }
  }

  /** Printing a number and parsing it back gives the number, as long as it is in range. */
  lemma ParseDecimal(n: nat, max: nat)
    ensures ParseUnsigned(Decimal(n), max) == if n <= max then Some(n) else None
  {
    DigitsOfDecimal(n);
    assert IsDigit(Decimal(n)[0]);
  }

  // ---- Decimal notation ----

  function Power10(k: nat): nat { if k == 0 then 1 else 10 * Power10(k - 1) }

  /** The value of digits by their places, the first being the highest. */
  function PlaceValue(t: Text): int
  {
    if t == [] then 0 else (t[0] - 48) * Power10(|t| - 1) + PlaceValue(t[1..])
  }

  lemma {:induction false} PlaceValueSnoc(t: Text, digit: Byte)
    ensures PlaceValue(t + [digit]) == 10 * PlaceValue(t) + (digit - 48)
  {
    if t == [] {
      assert [digit][1..] == [];
      assert PlaceValue([digit]) == (digit - 48) * Power10(0) + PlaceValue([]);
    } else {
      assert (t + [digit])[1..] == t[1..] + [digit];
      PlaceValueSnoc(t[1..], digit);
      assert Power10(|t|) == 10 * Power10(|t| - 1);
    }
  }

  /** `to_string` writes decimal notation: digits with the value of the number, no leading zero. */
  lemma {:induction false} DecimalNotation(n: nat)
    ensures PlaceValue(Decimal(n)) == n
    ensures n > 0 ==> Decimal(n)[0] != 48
  {
    if n >= 10 {
      DecimalNotation(n / 10);
      PlaceValueSnoc(Decimal(n / 10), 48 + n % 10);
    } else {
      assert [48 + n][1..] == [];
      assert PlaceValue([48 + n]) == n * Power10(0) + PlaceValue([]);
    }
  }

  /** `k` digits 0. */
  function ZeroDigits(k: nat): (t: Text)
    ensures |t| == k && forall i :: 0 <= i < k ==> t[i] == 48
  {
    seq(k, _ => 48)
  }

  /** The text is the number, perhaps with zeros and a plus sign in front. */
  ghost predicate Spells(t: Text, n: nat)
  {
    exists k: nat :: t == ZeroDigits(k) + Decimal(n) || t == [PLUS] + ZeroDigits(k) + Decimal(n)
  }

  lemma {:induction false} DigitsOfZeros(k: nat, n: nat)
    ensures DigitsValue(ZeroDigits(k) + Decimal(n)) == Some(n)
    decreases n
  {
    if n >= 10 {
      var t := ZeroDigits(k) + Decimal(n);
      assert t[..|t| - 1] == ZeroDigits(k) + Decimal(n / 10);
      DigitsOfZeros(k, n / 10);
    } else {
      DigitsAfterZeros(k, n);
    }
  }

  lemma {:induction false} DigitsAfterZeros(k: nat, d: nat)
    requires d < 10
    ensures DigitsValue(ZeroDigits(k) + [48 + d]) == Some(d)
  {
    var t := ZeroDigits(k) + [48 + d];
    if k > 0 {
      assert t[..|t| - 1] == ZeroDigits(k - 1) + [48];
      DigitsAfterZeros(k - 1, 0);
    }
  }

  /** One more digit behind a spelled number. */
  lemma OneMoreDigit(k: nat, high: nat, d: nat)
    requires d < 10
    ensures ZeroDigits(k) + Decimal(high) + [48 + d]
         == if high == 0 then ZeroDigits(k + 1) + Decimal(d) else ZeroDigits(k) + Decimal(high * 10 + d)
  {
    var n := high * 10 + d;
    assert n / 10 == high && n % 10 == d;
    if high == 0 {
      assert ZeroDigits(k) + [48] == ZeroDigits(k + 1);
    }
  }

  lemma {:induction false} DigitsAreZeros(t: Text) returns (k: nat)
    requires DigitsValue(t).Some?
    ensures t == ZeroDigits(k) + Decimal(DigitsValue(t).value)
  {
    hide Decimal, ZeroDigits;
    if |t| == 1 {
      k := 0;
      assert t == ZeroDigits(0) + Decimal(DigitsValue(t).value) by {
        OneDigit(t[0]);
      }
    } else {
      var front, last := t[..|t| - 1], t[|t| - 1];
      assert t == front + [last];
      k := DigitsAreZeros(front);
      OneMoreDigit(k, DigitsValue(front).value, last - 48);
      if DigitsValue(front).value == 0 {
        k := k + 1;
      }
    }
  }

  lemma OneDigit(digit: Byte)
    requires IsDigit(digit)
    ensures [digit] == ZeroDigits(0) + Decimal(digit - 48)
  {
  }

  lemma SpelledIsParsed(t: Text, k: nat, n: nat)
    requires t == ZeroDigits(k) + Decimal(n) || t == [PLUS] + ZeroDigits(k) + Decimal(n)
    ensures DigitsValue(if t != [] && t[0] == PLUS then t[1..] else t) == Some(n)
  {
    hide DigitsValue;
    var digits := ZeroDigits(k) + Decimal(n);
    DigitsOfZeros(k, n);
    assert IsDigit(digits[0]);
    if t != digits {
      assert t[1..] == digits;
    }
  }

  lemma ParsedIsSpelled(t: Text, max: nat)
    requires ParseUnsigned(t, max).Some?
    ensures Spells(t, ParseUnsigned(t, max).value)
  {
    hide DigitsValue, Decimal, ZeroDigits;
    var digits := if t != [] && t[0] == PLUS then t[1..] else t;
    var k := DigitsAreZeros(digits);
    if digits != t {
      assert t == [PLUS] + digits;
      Assoc([PLUS], ZeroDigits(k), Decimal(ParseUnsigned(t, max).value));
    }
  }

  /** `parse` accepts exactly the spellings of numbers in range. */
  lemma ParseExactly(t: Text, max: nat, n: nat)
    ensures ParseUnsigned(t, max) == Some(n) <==> Spells(t, n) && n <= max
  {
    hide DigitsValue, Decimal, ZeroDigits;
    if Spells(t, n) {
      var k: nat :| t == ZeroDigits(k) + Decimal(n) || t == [PLUS] + ZeroDigits(k) + Decimal(n);
      SpelledIsParsed(t, k, n);
    }
    if ParseUnsigned(t, max).Some? {
      ParsedIsSpelled(t, max);
    }
  }

  // ---- Lists ----

  /** The pieces with `c` between them. */
  function Join(pieces: seq<Text>, c: Byte): Text
  {
    if pieces == [] then [] else if |pieces| == 1 then pieces[0] else pieces[0] + [c] + Join(pieces[1..], c)
  }

  /** Splitting undoes joining. */
  lemma {:induction false} SplitJoin(pieces: seq<Text>, c: Byte)
    requires pieces != [] && forall i :: 0 <= i < |pieces| ==> c !in pieces[i]
    ensures Split(Join(pieces, c), c) == pieces
  {
    if |pieces| > 1 {
      var t, rest := Join(pieces, c), Join(pieces[1..], c);
      SplitJoin(pieces[1..], c);
      IndexOfFirst(pieces[0], c, rest);
      assert t[..|pieces[0]|] == pieces[0] && t[|pieces[0]| + 1..] == rest;
    }
  }
}
