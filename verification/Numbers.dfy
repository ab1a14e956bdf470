/** Digit generation and padding, ngx_sprintf_num of app/ngx_printf.cpp. */
module Numbers {
  const SCRATCH := 20                           // NGX_INT64_LEN
  const MAX_UINT32 := 0xFFFF_FFFF
  const TWO_TO_64 := 0x1_0000_0000_0000_0000

  datatype Radix = Decimal | LowerHex | UpperHex

  function Base(radix: Radix): nat {
    if radix == Decimal then 10 else 16
  }

  /** The character for one digit. */
  function Glyph(d: nat, radix: Radix): char
    requires d < Base(radix)
  {
    if d < 10 then '0' + d as char
    else if radix == LowerHex then 'a' + (d - 10) as char
    else 'A' + (d - 10) as char
  }

  /** The digit written by a character; what a reader of the output does. */
  function DigitOf(c: char): nat {
    if '0' <= c <= '9' then (c - '0') as nat
    else if 'a' <= c <= 'f' then (c - 'a') as nat + 10
    else if 'A' <= c <= 'F' then (c - 'A') as nat + 10
    else 0
  }

  /** Quotient and remainder by the base. */
  function Rest(n: nat, radix: Radix): (q: nat)
    ensures n > 0 ==> q < n
    ensures q == 0 <==> n < Base(radix)
  {
    if radix == Decimal then n / 10 else n / 16
  }

  function Last(n: nat, radix: Radix): (d: nat)
    ensures d < Base(radix) && Rest(n, radix) * Base(radix) + d == n
  {
    if radix == Decimal then n % 10 else n % 16
  }

  /** The digits of a number, highest first. */
  function Digits(n: nat, radix: Radix): (s: string)
    ensures s != ""
    decreases n
  {
    var rest := Rest(n, radix);
    (if rest == 0 then "" else Digits(rest, radix)) + [Glyph(Last(n, radix), radix)]
  }

  /** The digits in front when `rest` is left after cutting off the last ones. */
  function Ahead(rest: nat, radix: Radix): string {
    if rest == 0 then "" else Digits(rest, radix)
  }

  /** Reads a digit string back. */
  function Parse(s: string, radix: Radix): nat {
    if s == "" then 0 else Parse(s[..|s| - 1], radix) * Base(radix) + DigitOf(s[|s| - 1])
  }

  lemma GlyphRoundTrip(d: nat, radix: Radix)
    requires d < Base(radix)
    ensures DigitOf(Glyph(d, radix)) == d
    ensures Glyph(d, radix) == '0' <==> d == 0
  {
  }

  /** The digits of a radix are the characters of its table. */
  lemma GlyphTable(d: nat)
    ensures d < 10 ==> Glyph(d, Decimal) == "0123456789"[d]
    ensures d < 16 ==> Glyph(d, LowerHex) == "0123456789abcdef"[d] && Glyph(d, UpperHex) == "0123456789ABCDEF"[d]
  {
  }

  lemma ParseLast(front: string, d: nat, radix: Radix)
    requires d < Base(radix)
    ensures Parse(front + [Glyph(d, radix)], radix) == Parse(front, radix) * Base(radix) + d
  {
    GlyphRoundTrip(d, radix);
    assert (front + [Glyph(d, radix)])[..|front|] == front;
  }

  /** The digits of a number read back as the number. */
  lemma {:induction false} DigitsRoundTrip(n: nat, radix: Radix)
    ensures Parse(Digits(n, radix), radix) == n
    decreases n
  {
    var q := Rest(n, radix);
    if q > 0 {
      DigitsRoundTrip(q, radix);
    }
    ParseLast(Ahead(q, radix), Last(n, radix), radix);
  }

  /** Only zero itself starts with a zero. */
  lemma {:induction false} NoLeadingZero(n: nat, radix: Radix)
    ensures Digits(n, radix)[0] == '0' <==> n == 0
    decreases n
  {
    var q := Rest(n, radix);
    GlyphRoundTrip(Last(n, radix), radix);
    if q > 0 {
      NoLeadingZero(q, radix);
      assert Digits(n, radix)[0] == Digits(q, radix)[0];
    }
  }

  function Power(b: nat, e: nat): (p: nat)
    requires b > 0
    ensures p > 0
  {
    if e == 0 then 1 else b * Power(b, e - 1)
  }

  lemma {:induction false} DigitsFit(n: nat, radix: Radix, k: nat)
    requires k > 0
    ensures |Digits(n, radix)| <= k <==> n < Power(Base(radix), k)
    decreases k
  {
    var b, q := Base(radix), Rest(n, radix);
    if k == 1 {
      assert Power(b, 1) == b * Power(b, 0) == b;
    } else {
      var p := Power(b, k - 1);
      if q > 0 {
        DigitsFit(q, radix, k - 1);
      }
      RestBound(n, radix, p);
    }
  }

  lemma RestBound(n: nat, radix: Radix, p: nat)
    ensures Rest(n, radix) < p <==> n < Base(radix) * p
  {
    var _ := Last(n, radix);
  }

  /** Every 64-bit number fits the scratch area. */
  lemma DigitsFitScratch(n: nat, radix: Radix)
    requires n < TWO_TO_64
    ensures |Digits(n, radix)| <= SCRATCH
    ensures radix != Decimal ==> |Digits(n, radix)| <= 16
  {
    if radix == Decimal {
      assert Power(10, 20) == 1_0000_0000_0000_0000_0000 by { PowerValues(); }
      DigitsFit(n, radix, 20);
    } else {
      assert Power(16, 16) == TWO_TO_64 by { PowerValues(); }
      DigitsFit(n, radix, 16);
    }
  }

  lemma PowerValues()
    ensures Power(10, 20) == 1_0000_0000_0000_0000_0000
    ensures Power(16, 16) == TWO_TO_64
  {
    assert Power(10, 5) == 10_0000;
    assert Power(10, 10) == 100_0000_0000;
    assert Power(10, 15) == 1000_0000_0000_0000;
    assert Power(16, 4) == 0x1_0000;
    assert Power(16, 8) == 0x1_0000_0000;
    assert Power(16, 12) == 0x1_0000_0000_0000;
  }

  // ---- Fields of a given width ----

  function Repeat(c: char, n: nat): (s: string)
    ensures |s| == n && forall i :: 0 <= i < n ==> s[i] == c
  {
    seq(n, _ => c)
  }

  /** A number padded on the left to a minimum width. */
  function Field(n: nat, zero: char, radix: Radix, width: nat): string {
    var d := Digits(n, radix);
    Repeat(zero, if |d| < width then width - |d| else 0) + d
  }

  lemma {:induction false} ParsePadded(zero: char, k: nat, s: string, radix: Radix)
    requires DigitOf(zero) == 0
    ensures Parse(Repeat(zero, k) + s, radix) == Parse(s, radix)
    decreases |s| + k
  {
    var padded := Repeat(zero, k) + s;
    if s != "" {
      ParsePadded(zero, k, s[..|s| - 1], radix);
      assert padded[..|padded| - 1] == Repeat(zero, k) + s[..|s| - 1];
    } else if k > 0 {
      ParsePadded(zero, k - 1, "", radix);
      assert padded[..k - 1] == Repeat(zero, k - 1) + "";
    }
  }

  /** A field is at least as wide as asked, no wider than needed, and reads back as its number. */
  lemma {:induction false} FieldRoundTrip(n: nat, zero: char, radix: Radix, width: nat)
    requires zero == ' ' || zero == '0'
    ensures Parse(Field(n, zero, radix, width), radix) == n
    ensures width > 0 && n < Power(Base(radix), width) ==> |Field(n, zero, radix, width)| == width
  {
    var d := Digits(n, radix);
    DigitsRoundTrip(n, radix);
    ParsePadded(zero, if |d| < width then width - |d| else 0, d, radix);
    if width > 0 {
      DigitsFit(n, radix, width);
    }
  }

  // ---- What a rendered number looks like ----

  /** The digits of a radix: the letters of %x are small, those of %X and %p are capital. */
  predicate IsDigitOf(c: char, radix: Radix) {
    '0' <= c <= '9' || (radix == LowerHex && 'a' <= c <= 'f') || (radix == UpperHex && 'A' <= c <= 'F')
  }

  predicate AllDigits(s: string, radix: Radix) {
    forall i :: 0 <= i < |s| ==> IsDigitOf(s[i], radix)
  }

  lemma {:induction false} DigitsAreDigits(n: nat, radix: Radix)
    ensures AllDigits(Digits(n, radix), radix)
    decreases n
  {
    if Rest(n, radix) > 0 {
      DigitsAreDigits(Rest(n, radix), radix);
    }
  }

  /** A numeral: digits of the radix without a leading zero that stand for n. */
  predicate Numeral(s: string, n: nat, radix: Radix) {
    s != "" && AllDigits(s, radix) && (s[0] == '0' ==> s == "0") && Parse(s, radix) == n
  }

  lemma DigitsAreNumeral(n: nat, radix: Radix)
    ensures Numeral(Digits(n, radix), n, radix)
  {
    DigitsAreDigits(n, radix);
    DigitsRoundTrip(n, radix);
    NoLeadingZero(n, radix);
  }

  lemma GlyphOfDigit(c: char, radix: Radix)
    requires IsDigitOf(c, radix)
    ensures DigitOf(c) < Base(radix) && Glyph(DigitOf(c), radix) == c
  {
  }

  lemma RestOfLast(q: nat, d: nat, radix: Radix)
    requires d < Base(radix)
    ensures Rest(q * Base(radix) + d, radix) == q && Last(q * Base(radix) + d, radix) == d
  {
  }

  lemma {:induction false} PositiveNumeral(s: string, radix: Radix)
    requires s != "" && AllDigits(s, radix) && s[0] != '0'
    ensures Parse(s, radix) > 0
  {
    GlyphOfDigit(s[|s| - 1], radix);
    if |s| > 1 {
      PositiveNumeral(s[..|s| - 1], radix);
    } else {
      assert s[..0] == "";
    }
  }

  lemma DigitsStep(q: nat, d: nat, radix: Radix)
    requires d < Base(radix)
    ensures Digits(q * Base(radix) + d, radix) == Ahead(q, radix) + [Glyph(d, radix)]
  {
    RestOfLast(q, d, radix);
  }

  lemma ParseSplit(s: string, radix: Radix)
    requires s != "" && AllDigits(s, radix)
    ensures Digits(Parse(s, radix), radix) == Ahead(Parse(s[..|s| - 1], radix), radix) + [s[|s| - 1]]
  {
    hide Digits, Base, Glyph, DigitOf;
    GlyphOfDigit(s[|s| - 1], radix);
    DigitsStep(Parse(s[..|s| - 1], radix), DigitOf(s[|s| - 1]), radix);
  }

  /** A number has one numeral. */
  lemma {:induction false} NumeralIsUnique(s: string, n: nat, radix: Radix)
    requires Numeral(s, n, radix)
    ensures s == Digits(n, radix)
    decreases |s|
  {
    hide Digits, Parse, Base;
    var front := s[..|s| - 1];
    ParseSplit(s, radix);
    if front != "" {
      assert front[0] == s[0];
      PositiveNumeral(front, radix);
      NumeralIsUnique(front, Parse(front, radix), radix);
    } else {
      ParseNothing(radix);
    }
    assert s == front + [s[|s| - 1]];
  }

  lemma ParseNothing(radix: Radix)
    ensures Parse("", radix) == 0
  {
  }

  function Magnitude(n: int): nat {
    if n < 0 then -n else n
  }

  /** A sign exactly for a negative number, padding up to the width, and the numeral of the magnitude. */
  predicate Shows(text: string, n: int, zero: char, radix: Radix, width: nat, pad: string, digits: string) {
    text == (if n < 0 then "-" else "") + pad + digits && Numeral(digits, Magnitude(n), radix) &&
    (forall i :: 0 <= i < |pad| ==> pad[i] == zero) && |pad| == if |digits| < width then width - |digits| else 0
  }

  ghost predicate IsNumber(text: string, n: int, zero: char, radix: Radix, width: nat) {
    exists pad, digits :: Shows(text, n, zero, radix, width, pad, digits)
  }

  lemma FieldIsNumber(n: nat, zero: char, radix: Radix, width: nat)
    ensures IsNumber(Field(n, zero, radix, width), n, zero, radix, width)
    ensures IsNumber("-" + Field(n, zero, radix, width), 0 - n, zero, radix, width) || n == 0
  {
    hide Digits, Numeral;
    var digits := Digits(n, radix);
    var pad := Repeat(zero, if |digits| < width then width - |digits| else 0);
    DigitsAreNumeral(n, radix);
    assert Shows(Field(n, zero, radix, width), n, zero, radix, width, pad, digits);
    if n > 0 {
      assert "-" + (pad + digits) == "-" + pad + digits;
      assert Shows("-" + Field(n, zero, radix, width), 0 - n, zero, radix, width, pad, digits);
    }
  }

  /** What a text becomes in the room left. */
  function Clip(s: string, room: nat): (c: string)
    ensures |c| <= room && c <= s
  {
    if |s| <= room then s else s[..room]
  }

  lemma ClipAppend(a: string, b: string, room: nat)
    ensures Clip(a + b, room) == Clip(a, room) + Clip(b, room - |Clip(a, room)|)
  {
  }

  /** Writing `text` at `pos` into a buffer bounded by `last`: `next` is the new position. */
  ghost predicate Wrote(before: seq<char>, after: seq<char>, pos: nat, last: nat, text: string, next: nat) {
    |before| == |after| && pos <= last <= |before| &&
    next == pos + |Clip(text, last - pos)| &&
    after == before[..pos] + Clip(text, last - pos) + before[next..]
  }

  lemma WroteTwice(s0: seq<char>, s1: seq<char>, s2: seq<char>, p0: nat, p1: nat, p2: nat, last: nat, a: string, b: string)
    requires Wrote(s0, s1, p0, last, a, p1) && Wrote(s1, s2, p1, last, b, p2)
    ensures Wrote(s0, s2, p0, last, a + b, p2)
  {
    ClipAppend(a, b, last - p0);
    var ca, cb := Clip(a, last - p0), Clip(b, last - p1);
    assert s1[..p1] == s0[..p0] + ca;
    assert s1[p2..] == s0[p2..];
    assert s2 == s0[..p0] + (ca + cb) + s0[p2..];
  }

  lemma WroteNothing(s: seq<char>, pos: nat, last: nat)
    requires pos <= last <= |s|
    ensures Wrote(s, s, pos, last, "", pos)
  {
  }

  lemma WroteFull(s: seq<char>, pos: nat, text: string)
    requires pos <= |s|
    ensures Wrote(s, s, pos, pos, text, pos)
  {
  }

  /** ngx_sprintf_num: digits are generated backwards into a scratch area, then padded and copied. */
  method SprintfNum(buf: array<char>, pos: nat, last: nat, n: nat, zero: char, radix: Radix, width: nat) returns (next: nat)
    requires pos <= last <= buf.Length && n < TWO_TO_64
    modifies buf
    ensures Wrote(old(buf[..]), buf[..], pos, last, Field(n, zero, radix, width), next)
  {
    var temp := new char[SCRATCH + 1](_ => ' ');
    var p := GenerateDigits(temp, n, radix);
    var digits := temp[p..SCRATCH];
    var len := SCRATCH - p;
    ghost var padding := Repeat(zero, if len < width then width - len else 0);
    ghost var s0 := buf[..];
    var middle := Pad(buf, pos, last, zero, len, width);
    ghost var s1 := buf[..];
    next := CopyClipped(digits, buf, middle, last);
    WroteTwice(s0, s1, buf[..], pos, middle, next, last, padding, digits);
  }

  /** while (len++ < width && buf < last) *buf++ = zero; */
  method Pad(buf: array<char>, pos: nat, last: nat, zero: char, length: nat, width: nat) returns (next: nat)
    requires pos <= last <= buf.Length
    modifies buf
    ensures Wrote(old(buf[..]), buf[..], pos, last, Repeat(zero, if length < width then width - length else 0), next)
  {
    var len := length;
    next := pos;
    while len < width && next < last
      invariant length <= len && (len <= width || len == length) && pos <= next <= last
      invariant next - pos == len - length
      invariant buf[..] == old(buf[..pos]) + Repeat(zero, len - length) + old(buf[next..])
    {
      ghost var written := Repeat(zero, len - length);
      buf[next] := zero;
      assert Repeat(zero, len + 1 - length) == written + [zero];
      next := next + 1;
      len := len + 1;
    }
    assert Repeat(zero, len - length) == Clip(Repeat(zero, if length < width then width - length else 0), last - pos);
  }

  /** The final copy of at most the digits that fit. */
  method CopyClipped(digits: string, buf: array<char>, pos: nat, last: nat) returns (next: nat)
    requires pos <= last <= buf.Length
    modifies buf
    ensures Wrote(old(buf[..]), buf[..], pos, last, digits, next)
  {
    var len := |digits|;
    if pos + len >= last {
      len := last - pos;
    }
    assert digits[..len] == Clip(digits, last - pos);
    CopyText(digits[..len], buf, pos);
    next := pos + len;
  }

  /** The three digit loops; decimal numbers of at most 32 bits take the first one. */
  method GenerateDigits(temp: array<char>, n: nat, radix: Radix) returns (p: nat)
    requires temp.Length == SCRATCH + 1 && n < TWO_TO_64
    modifies temp
    ensures p <= SCRATCH && temp[p..SCRATCH] == Digits(n, radix)
  {
    DigitsFitScratch(n, radix);
    p := SCRATCH;
    if radix == Decimal {
      if n <= MAX_UINT32 {
        var ui32 := n;
        p := DigitLoop(temp, ui32, Decimal);
      } else {
        p := DigitLoop(temp, n, Decimal);
      }
    } else if radix == LowerHex {
      p := DigitLoop(temp, n, LowerHex);
    } else {
      p := DigitLoop(temp, n, UpperHex);
    }
  }

  lemma AheadStep(rest: nat, radix: Radix, written: string)
    requires rest > 0
    ensures Ahead(rest, radix) + written
         == Ahead(Rest(rest, radix), radix) + ([Glyph(Last(rest, radix), radix)] + written)
    ensures |Ahead(rest, radix)| > 0
  {
  }

  /** do { *--p = digit; } while (n /= base) */
  method DigitLoop(temp: array<char>, n: nat, radix: Radix) returns (p: nat)
    requires temp.Length == SCRATCH + 1 && |Digits(n, radix)| <= SCRATCH
    modifies temp
    ensures p <= SCRATCH && temp[p..SCRATCH] == Digits(n, radix)
  {
    var rest := n;
    p := SCRATCH - 1;
    temp[p] := Glyph(Last(rest, radix), radix);
    rest := Rest(rest, radix);
    assert Digits(n, radix) == Ahead(rest, radix) + temp[p..SCRATCH];
    while rest != 0
      invariant p < SCRATCH
      invariant Digits(n, radix) == Ahead(rest, radix) + temp[p..SCRATCH]
      decreases rest
    {
      ghost var written := temp[p..SCRATCH];
      AheadStep(rest, radix, written);
      p := p - 1;
      temp[p] := Glyph(Last(rest, radix), radix);
      assert temp[p..SCRATCH] == [Glyph(Last(rest, radix), radix)] + written;
      rest := Rest(rest, radix);
    }
  }

  method CopyText(s: string, buf: array<char>, at: nat)
    requires at + |s| <= buf.Length
    modifies buf
    ensures buf[..] == old(buf[..at]) + s + old(buf[at + |s|..])
  {
    for i := 0 to |s|
      invariant buf[..at + i] == old(buf[..at]) + s[..i]
      invariant buf[at + i..] == old(buf[at + i..])
    {
      buf[at + i] := s[i];
    }
  }
}
