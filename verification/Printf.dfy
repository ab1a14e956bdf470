/** The bounded formatter ngx_vslprintf of app/ngx_printf.cpp. */
module Printf {
  import opened Common
  import opened Numbers

  datatype Arg = Num(n: int) | Str(s: string) | Float(f: real)

  /** A parsed % directive and the format behind it. */
  datatype Spec = Spec(zero: char, width: nat, signed: bool, radix: Radix, precision: nat, conv: char, rest: string)

  predicate IsDigit(c: char) { '0' <= c <= '9' }

  /** Reads decimal digits into an accumulator. */
  function ReadNumber(fmt: string, acc: nat): (nat, string) {
    if fmt != "" && IsDigit(fmt[0]) then ReadNumber(fmt[1..], acc * 10 + (fmt[0] - '0') as nat)
    else (acc, fmt)
  }

  datatype Flags = Flags(signed: bool, radix: Radix, precision: nat, rest: string)

  /** The flag loop: u, X and x repeat; a precision ends it. */
  function ReadFlags(fmt: string, signed: bool, radix: Radix): Flags {
    if fmt == "" then Flags(signed, radix, 0, fmt)
    else match fmt[0]
      case 'u' => ReadFlags(fmt[1..], false, radix)
      case 'X' => ReadFlags(fmt[1..], false, UpperHex)
      case 'x' => ReadFlags(fmt[1..], false, LowerHex)
      case '.' => var (precision, rest) := ReadNumber(fmt[1..], 0); Flags(signed, radix, precision, rest)
      case _ => Flags(signed, radix, 0, fmt)
  }

  /** The directive whose text starts behind the % sign. */
  function ReadSpec(fmt: string): Spec {
    var zero := if fmt != "" && fmt[0] == '0' then '0' else ' ';
    var (width, behind) := ReadNumber(fmt, 0);
    var flags := ReadFlags(behind, true, Decimal);
    if flags.rest == "" then Spec(zero, width, flags.signed, flags.radix, flags.precision, '\0', "")
    else Spec(zero, width, flags.signed, flags.radix, flags.precision, flags.rest[0], flags.rest[1..])
  }

  lemma {:induction false} ReadNumberShrinks(fmt: string, acc: nat)
    ensures |ReadNumber(fmt, acc).1| <= |fmt|
  {
    if fmt != "" && IsDigit(fmt[0]) {
      ReadNumberShrinks(fmt[1..], acc * 10 + (fmt[0] - '0') as nat);
    }
  }

  lemma {:induction false} ReadFlagsShrinks(fmt: string, signed: bool, radix: Radix)
    ensures |ReadFlags(fmt, signed, radix).rest| <= |fmt|
  {
    if fmt != "" {
      match fmt[0]
      case 'u' => ReadFlagsShrinks(fmt[1..], false, radix);
      case 'X' => ReadFlagsShrinks(fmt[1..], false, UpperHex);
      case 'x' => ReadFlagsShrinks(fmt[1..], false, LowerHex);
      case '.' => ReadNumberShrinks(fmt[1..], 0);
      case _ =>
    }
  }

  lemma ReadSpecShrinks(fmt: string)
    ensures |ReadSpec(fmt).rest| <= |fmt|
  {
    ReadNumberShrinks(fmt, 0);
    ReadFlagsShrinks(ReadNumber(fmt, 0).1, true, Decimal);
  }

  // ---- Unlimited rendering ----

  function Signed(n: int, spec: Spec): string {
    if n < 0 then "-" + Field(-n, spec.zero, spec.radix, spec.width) else Field(n, spec.zero, spec.radix, spec.width)
  }

  function Scale(precision: nat): (s: nat)
    ensures s > 0
  {
    Power(10, precision)
  }

  /** Integer and fraction part of a non-negative real, rounded to `precision` digits. */
  function Rounded(f: real, precision: nat): (nat, nat)
    requires f >= 0.0
  {
    var whole, scale := f.Floor, Scale(precision);
    if precision == 0 then (whole, 0)
    else
      RoundedFraction(f, precision);
      var frac := ((f - whole as real) * scale as real + 0.5).Floor;
      if frac == scale then (whole + 1, 0) else (whole, frac)
  }

  lemma RoundedFraction(f: real, precision: nat)
    requires f >= 0.0
    ensures var scale := Scale(precision); var x := (f - f.Floor as real) * scale as real;
            0.0 <= x < scale as real && 0 <= (x + 0.5).Floor <= scale
  {
    var part, scale := f - f.Floor as real, Scale(precision) as real;
    assert 0.0 <= part < 1.0;
    assert (1.0 - part) * scale > 0.0;
    assert part * scale == scale - (1.0 - part) * scale;
    assert ((part * scale + 0.5).Floor) as real <= part * scale + 0.5 < scale + 1.0;
  }

  /** f * 10^precision, rounded half up. */
  function RoundHalfUp(f: real, precision: nat): int {
    (f * Scale(precision) as real + 0.5).Floor
  }

  /** Both parts together are the value scaled and rounded half up; the carry is absorbed. */
  lemma {:induction false} RoundedValue(f: real, precision: nat)
    requires f >= 0.0 && precision > 0
    ensures var (whole, frac) := Rounded(f, precision); var scale := Scale(precision);
            frac < scale && whole * scale + frac == RoundHalfUp(f, precision)
  {
    var whole, scale := f.Floor, Scale(precision);
    RoundedFraction(f, precision);
    var x := (f - whole as real) * scale as real + 0.5;
    assert f * scale as real + 0.5 == (whole * scale) as real + x;
    assert (f * scale as real + 0.5).Floor == whole * scale + x.Floor;
    assert (whole + 1) * scale == whole * scale + scale;
  }

  function Fixed(f: real, spec: Spec): string {
    if f < 0.0 then "-" + FixedMagnitude(-f, spec) else FixedMagnitude(f, spec)
  }

  function FixedMagnitude(f: real, spec: Spec): string
    requires f >= 0.0
  {
    var (whole, frac) := Rounded(f, spec.precision);
    FixedText(whole, frac, spec)
  }

  function FixedText(whole: nat, frac: nat, spec: Spec): string {
    Field(whole, spec.zero, Decimal, spec.width) +
    (if spec.precision > 0 then "." + Field(frac, '0', Decimal, spec.precision) else "")
  }

  /** Padding up to the width, an integer part and a fraction of `places` digits that together stand for
      value / 10^places. */
  predicate Parts(text: string, pad: string, whole: string, frac: string, zero: char, width: nat, places: nat, value: int) {
    text == pad + whole + "." + frac && (forall i :: 0 <= i < |pad| ==> pad[i] == zero) &&
    |pad| == (if |whole| < width then width - |whole| else 0) &&
    whole != "" && AllDigits(whole, Decimal) && (whole[0] == '0' ==> whole == "0") &&
    |frac| == places && AllDigits(frac, Decimal) &&
    Parse(whole, Decimal) * Scale(places) + Parse(frac, Decimal) == value
  }

  ghost predicate ReadsAs(text: string, zero: char, width: nat, places: nat, value: int) {
    exists pad, whole, frac :: Parts(text, pad, whole, frac, zero, width, places, value)
  }

  lemma {:induction false} PartsReadBack(w: nat, r: nat, spec: Spec)
    requires spec.precision > 0 && r < Scale(spec.precision)
    ensures ReadsAs(FixedText(w, r, spec), spec.zero, spec.width, spec.precision, w * Scale(spec.precision) + r)
  {
    var whole, frac := Digits(w, Decimal), Field(r, '0', Decimal, spec.precision);
    var pad := Repeat(spec.zero, if |whole| < spec.width then spec.width - |whole| else 0);
    DigitsAreNumeral(w, Decimal);
    FieldRoundTrip(r, '0', Decimal, spec.precision);
    DigitsAreDigits(r, Decimal);
    assert pad + whole + ("." + frac) == pad + whole + "." + frac;
    assert Parts(FixedText(w, r, spec), pad, whole, frac, spec.zero, spec.width, spec.precision,
                 w * Scale(spec.precision) + r);
  }

  /** What %f writes for a precision is the sign, padding, digits, a point and exactly as many digits,
      and reads back as the magnitude rounded half up to that many places; without a precision it is the
      magnitude cut off behind the point. */
  lemma {:induction false} FixedReadsBack(f: real, spec: Spec)
    ensures var magnitude := if f < 0.0 then -f else f;
            Fixed(f, spec) == (if f < 0.0 then "-" else "") + FixedMagnitude(magnitude, spec) &&
            if spec.precision > 0 then
              ReadsAs(FixedMagnitude(magnitude, spec), spec.zero, spec.width, spec.precision,
                      RoundHalfUp(magnitude, spec.precision))
            else
              IsNumber(FixedMagnitude(magnitude, spec), magnitude.Floor, spec.zero, Decimal, spec.width)
  {
    var magnitude := if f < 0.0 then -f else f;
    var text := FixedMagnitude(magnitude, spec);
    var (whole, frac) := Rounded(magnitude, spec.precision);
    assert "" + text == text;
    if spec.precision > 0 {
      RoundedValue(magnitude, spec.precision);
      PartsReadBack(whole, frac, spec);
    } else {
      FieldIsNumber(whole, spec.zero, Decimal, spec.width);
      assert text == Field(whole, spec.zero, Decimal, spec.width);
    }
  }

  /** A signed number is its sign, padding and the numeral of its magnitude. */
  lemma SignedReadsBack(n: int, spec: Spec)
    ensures IsNumber(Signed(n, spec), n, spec.zero, spec.radix, spec.width)
    ensures spec.zero != '-' ==> (Signed(n, spec)[0] == '-' <==> n < 0)
  {
    FieldIsNumber(Magnitude(n), spec.zero, spec.radix, spec.width);
    SignFirst(Signed(n, spec), n, spec.zero, spec.radix, spec.width);
  }

  lemma SignFirst(text: string, n: int, zero: char, radix: Radix, width: nat)
    requires IsNumber(text, n, zero, radix, width)
    ensures text != "" && (zero != '-' ==> (text[0] == '-' <==> n < 0))
  {
    var pad, digits :| Shows(text, n, zero, radix, width, pad, digits);
    assert IsDigitOf(digits[0], radix);
  }

  predicate TakesArg(spec: Spec) {
    spec.conv in "diLpsPf"
  }

  /** The argument has the type and range the directive reads with va_arg. */
  predicate Suits(spec: Spec, arg: Arg) {
    match spec.conv
    case 's' => arg.Str? && '\0' !in arg.s
    case 'f' => arg.Float? && -0x8000_0000_0000_0000 as real < arg.f < 0x8000_0000_0000_0000 as real && spec.precision <= 19
    case 'P' => arg.Num? && -0x8000_0000_0000_0000 < arg.n < 0x8000_0000_0000_0000
    case 'p' => arg.Num? && 0 <= arg.n < TWO_TO_64
    case _ => arg.Num? && (if spec.signed then -0x8000_0000_0000_0000 < arg.n < 0x8000_0000_0000_0000 else 0 <= arg.n < TWO_TO_64)
  }

  function Expand(spec: Spec, arg: Arg): string
    requires TakesArg(spec) && Suits(spec, arg)
  {
    match spec.conv
    case 's' => arg.s
    case 'f' => Fixed(arg.f, spec)
    case 'P' => Signed(arg.n, spec)
    case 'p' => Field(arg.n, '0', UpperHex, 16)
    case _ => if spec.signed then Signed(arg.n, spec) else Field(arg.n, spec.zero, spec.radix, spec.width)
  }

  /** How a directive shows a number: %p as an address of sixteen capital hexadecimal digits, the others
      as their flags say; a sign appears exactly for a negative number. A text is shown as it is. */
  lemma ExpandReadsBack(spec: Spec, arg: Arg)
    requires TakesArg(spec) && Suits(spec, arg) && (spec.zero == ' ' || spec.zero == '0')
    ensures var text := Expand(spec, arg);
            match arg
            case Num(n) =>
              (if spec.conv == 'p' then IsNumber(text, n, '0', UpperHex, 16) && |text| == 16
               else IsNumber(text, n, spec.zero, spec.radix, spec.width)) &&
              text != "" && (text[0] == '-' <==> n < 0)
            case Str(s) => spec.conv == 's' && text == s
            case Float(f) => spec.conv == 'f' && text == Fixed(f, spec)
  {
    if arg.Num? {
      if spec.conv == 'p' {
        FieldIsNumber(arg.n, '0', UpperHex, 16);
        DigitsFitScratch(arg.n, UpperHex);
        SignFirst(Expand(spec, arg), arg.n, '0', UpperHex, 16);
      } else {
        SignedReadsBack(arg.n, spec);
      }
    }
  }

  /** The format is a C string, no directive is cut off by its end, and the arguments suit the directives.
      A C string holds no NUL: the loops end there. */
  predicate WellFormed(fmt: string, args: seq<Arg>)
    decreases |fmt|
  {
    fmt == "" ||
    if fmt[0] != '%' then fmt[0] != '\0' && WellFormed(fmt[1..], args)
    else
      var spec := ReadSpec(fmt[1..]);
      ReadSpecShrinks(fmt[1..]);
      spec.conv != '\0' &&
      if TakesArg(spec) then args != [] && Suits(spec, args[0]) && WellFormed(spec.rest, args[1..])
      else WellFormed(spec.rest, args)
  }

  /** What the format would produce in an unlimited buffer. */
  function Render(fmt: string, args: seq<Arg>): string
    requires WellFormed(fmt, args)
    decreases |fmt|
  {
    if fmt == "" then ""
    else if fmt[0] != '%' then [fmt[0]] + Render(fmt[1..], args)
    else
      var spec := ReadSpec(fmt[1..]);
      ReadSpecShrinks(fmt[1..]);
      if TakesArg(spec) then Expand(spec, args[0]) + Render(spec.rest, args[1..])
      else [spec.conv] + Render(spec.rest, args)
  }

  // ---- The loop over a bounded buffer ----

  method ReadNumberAt(fmt: string, from: nat) returns (n: nat, i: nat)
    requires from <= |fmt|
    ensures from <= i <= |fmt| && (n, fmt[i..]) == ReadNumber(fmt[from..], 0)
  {
    n, i := 0, from;
    while i < |fmt| && IsDigit(fmt[i])
      invariant from <= i <= |fmt|
      invariant ReadNumber(fmt[i..], n) == ReadNumber(fmt[from..], 0)
    {
      n := n * 10 + (fmt[i] - '0') as nat;
      i := i + 1;
    }
  }

  method ReadFlagsAt(fmt: string, from: nat) returns (signed: bool, radix: Radix, precision: nat, i: nat)
    requires from <= |fmt|
    ensures from <= i <= |fmt| && Flags(signed, radix, precision, fmt[i..]) == ReadFlags(fmt[from..], true, Decimal)
  {
    signed, radix, precision, i := true, Decimal, 0, from;
    while i < |fmt|
      invariant from <= i <= |fmt| && precision == 0
      invariant ReadFlags(fmt[i..], signed, radix) == ReadFlags(fmt[from..], true, Decimal)
    {
      if fmt[i] == 'u' {
        signed, i := false, i + 1;
      } else if fmt[i] == 'X' {
        signed, radix, i := false, UpperHex, i + 1;
      } else if fmt[i] == 'x' {
        signed, radix, i := false, LowerHex, i + 1;
      } else if fmt[i] == '.' {
        precision, i := ReadNumberAt(fmt, i + 1);
        return;
      } else {
        return;
      }
    }
  }

  method ReadSpecAt(fmt: string, from: nat) returns (spec: Spec, i: nat)
    requires from <= |fmt| && ReadSpec(fmt[from..]).conv != '\0'
    ensures from <= i <= |fmt| && spec == ReadSpec(fmt[from..]) && spec.rest == fmt[i..]
  {
    var zero := if from < |fmt| && fmt[from] == '0' then '0' else ' ';
    var width, behind := ReadNumberAt(fmt, from);
    var signed, radix, precision, at := ReadFlagsAt(fmt, behind);
    i := at + 1;
    spec := Spec(zero, width, signed, radix, precision, fmt[at], fmt[at + 1..]);
  }

  method Put(c: char, buf: array<char>, pos: nat, last: nat) returns (next: nat)
    requires pos < last <= buf.Length
    modifies buf
    ensures Wrote(old(buf[..]), buf[..], pos, last, [c], next) && next == pos + 1
  {
    buf[pos] := c;
    next := pos + 1;
  }

  /** while (*p && buf < last) *buf++ = *p++; */
  method PutString(s: string, buf: array<char>, pos: nat, last: nat) returns (next: nat)
    requires pos <= last <= buf.Length
    modifies buf
    ensures Wrote(old(buf[..]), buf[..], pos, last, s, next)
  {
    var k := 0;
    next := pos;
    while k < |s| && next < last
      invariant k <= |s| && next == pos + k <= last
      invariant buf[..next] == old(buf[..pos]) + s[..k] && buf[next..] == old(buf[next..])
    {
      buf[next] := s[k];
      next, k := next + 1, k + 1;
    }
    assert s[..k] == Clip(s, last - pos);
  }

  method PutSigned(n: int, spec: Spec, buf: array<char>, pos: nat, last: nat) returns (next: nat)
    requires pos < last <= buf.Length && -TWO_TO_64 < n < TWO_TO_64
    modifies buf
    ensures Wrote(old(buf[..]), buf[..], pos, last, Signed(n, spec), next)
  {
    if n < 0 {
      ghost var s0 := buf[..];
      var middle := Put('-', buf, pos, last);
      ghost var s1 := buf[..];
      next := SprintfNum(buf, middle, last, -n, spec.zero, spec.radix, spec.width);
      WroteTwice(s0, s1, buf[..], pos, middle, next, last, "-", Field(-n, spec.zero, spec.radix, spec.width));
    } else {
      next := SprintfNum(buf, pos, last, n, spec.zero, spec.radix, spec.width);
    }
  }

  method PutFixed(f: real, spec: Spec, buf: array<char>, pos: nat, last: nat) returns (next: nat)
    requires pos < last <= buf.Length && spec.precision <= 19
    requires -0x8000_0000_0000_0000 as real < f < 0x8000_0000_0000_0000 as real
    modifies buf
    ensures Wrote(old(buf[..]), buf[..], pos, last, Fixed(f, spec), next)
  {
    if f < 0.0 {
      ghost var s0 := buf[..];
      var middle := Put('-', buf, pos, last);
      ghost var s1 := buf[..];
      next := PutMagnitude(-f, spec, buf, middle, last);
      WroteTwice(s0, s1, buf[..], pos, middle, next, last, "-", FixedMagnitude(-f, spec));
    } else {
      next := PutMagnitude(f, spec, buf, pos, last);
    }
  }

  lemma RoundedFits(f: real, precision: nat)
    requires 0.0 <= f < 0x8000_0000_0000_0000 as real && precision <= 19
    ensures Rounded(f, precision).0 < TWO_TO_64 && Rounded(f, precision).1 < TWO_TO_64
  {
    if precision > 0 {
      RoundedValue(f, precision);
      PowerMonotone(10, precision, 20);
      PowerValues();
      ScaleFits(precision);
    }
  }

  lemma {:induction false} PowerMonotone(b: nat, i: nat, j: nat)
    requires b > 0 && i <= j
    ensures Power(b, i) <= Power(b, j)
    decreases j
  {
    if i < j {
      PowerMonotone(b, i, j - 1);
      assert b * Power(b, j - 1) >= Power(b, j - 1);
    }
  }

  lemma ScaleFits(precision: nat)
    requires precision <= 19
    ensures Scale(precision) < TWO_TO_64
  {
    PowerMonotone(10, precision, 19);
    PowerValues();
    assert Power(10, 20) == 10 * Power(10, 19);
  }

  /** for (n = frac_width; n; n--) scale *= 10; */
  method ScaleLoop(precision: nat) returns (scale: nat)
    ensures scale == Scale(precision)
  {
    scale := 1;
    for n := 0 to precision
      invariant scale == Power(10, n)
    {
      scale := scale * 10;
    }
  }

  /** The integer part and the scaled fraction, with the carry. */
  method Round(f: real, precision: nat) returns (ui64: nat, frac: nat)
    requires f >= 0.0
    ensures (ui64, frac) == Rounded(f, precision)
  {
    ui64, frac := f.Floor, 0;
    if precision > 0 {
      var scale := ScaleLoop(precision);
      RoundedFraction(f, precision);
      ghost var x := (f - f.Floor as real) * Scale(precision) as real;
      frac := ((f - ui64 as real) * scale as real + 0.5).Floor;
      assert frac == (x + 0.5).Floor;
      if frac == scale {
        ui64 := ui64 + 1;
        frac := 0;
      }
    }
  }

  method PutMagnitude(f: real, spec: Spec, buf: array<char>, pos: nat, last: nat) returns (next: nat)
    requires pos <= last <= buf.Length && spec.precision <= 19
    requires 0.0 <= f < 0x8000_0000_0000_0000 as real
    modifies buf
    ensures Wrote(old(buf[..]), buf[..], pos, last, FixedMagnitude(f, spec), next)
  {
    var ui64, frac := Round(f, spec.precision);
    RoundedFits(f, spec.precision);
    ghost var s0, whole := buf[..], Field(ui64, spec.zero, Decimal, spec.width);
    next := SprintfNum(buf, pos, last, ui64, spec.zero, Decimal, spec.width);
    if spec.precision > 0 {
      ghost var s1, p1 := buf[..], next;
      next := PutFraction(frac, spec.precision, buf, next, last);
      WroteTwice(s0, s1, buf[..], pos, p1, next, last, whole, "." + Field(frac, '0', Decimal, spec.precision));
    } else {
      assert whole + "" == whole;
    }
  }

  method PutFraction(frac: nat, precision: nat, buf: array<char>, pos: nat, last: nat) returns (next: nat)
    requires pos <= last <= buf.Length && frac < TWO_TO_64
    modifies buf
    ensures Wrote(old(buf[..]), buf[..], pos, last, "." + Field(frac, '0', Decimal, precision), next)
  {
    ghost var s0 := buf[..];
    next := pos;
    if next < last {
      next := Put('.', buf, next, last);
    } else {
      WroteFull(s0, pos, ".");
    }
    ghost var s1, p1 := buf[..], next;
    next := SprintfNum(buf, next, last, frac, '0', Decimal, precision);
    WroteTwice(s0, s1, buf[..], pos, p1, next, last, ".", Field(frac, '0', Decimal, precision));
  }

  method Directive(spec: Spec, arg: Arg, buf: array<char>, pos: nat, last: nat) returns (next: nat)
    requires TakesArg(spec) && Suits(spec, arg) && pos < last <= buf.Length
    modifies buf
    ensures Wrote(old(buf[..]), buf[..], pos, last, Expand(spec, arg), next)
  {
    match spec.conv
    case 's' => next := PutString(arg.s, buf, pos, last);
    case 'f' => next := PutFixed(arg.f, spec, buf, pos, last);
    case 'P' => next := PutSigned(arg.n, spec, buf, pos, last);
    case 'p' => next := SprintfNum(buf, pos, last, arg.n, '0', UpperHex, 16);
    case _ =>
      if spec.signed {
        next := PutSigned(arg.n, spec, buf, pos, last);
      } else {
        next := SprintfNum(buf, pos, last, arg.n, spec.zero, spec.radix, spec.width);
      }
  }

  /** ngx_vslprintf: the buffer receives exactly the part of the unlimited rendering that fits
      before `last`, and nothing outside that part changes. */
  method VsLprintf(buf: array<char>, start: nat, last: nat, fmt: string, args: seq<Arg>) returns (pos: nat)
    requires start <= last <= buf.Length && WellFormed(fmt, args)
    modifies buf
    ensures pos == start + (if |Render(fmt, args)| <= last - start then |Render(fmt, args)| else last - start)
    ensures buf[start..pos] == Render(fmt, args)[..pos - start]
    ensures buf[..start] == old(buf[..start]) && buf[pos..] == old(buf[pos..])
  {
    var i, k := 0, 0;
    ghost var total, done, s0 := Render(fmt, args), "", buf[..];
    pos := start;
    WroteNothing(s0, start, last);
    while i < |fmt| && pos < last
      invariant i <= |fmt| && k <= |args| && WellFormed(fmt[i..], args[k..])
      invariant total == done + Render(fmt[i..], args[k..])
      invariant Wrote(s0, buf[..], start, last, done, pos)
    {
      ghost var s1, p1, text := buf[..], pos, "";
      pos, i, k, text := Piece(fmt, i, args, k, buf, pos, last);
      WroteTwice(s0, s1, buf[..], start, p1, pos, last, done, text);
      Associate(done, text, Render(fmt[i..], args[k..]));
      done := done + text;
    }
    WroteMeans(s0, buf[..], start, last, done, Render(fmt[i..], args[k..]), pos);
  }

  /** What `Wrote` says about the buffer when writing stopped at the end of the text or of the room. */
  lemma WroteMeans(before: seq<char>, after: seq<char>, start: nat, last: nat, done: string, rest: string, pos: nat)
    requires Wrote(before, after, start, last, done, pos) && (rest == "" || pos == last)
    ensures pos == start + (if |done + rest| <= last - start then |done + rest| else last - start)
    ensures after[start..pos] == (done + rest)[..pos - start]
    ensures after[..start] == before[..start] && after[pos..] == before[pos..]
  {
  }

  /** One turn of the main loop: a character or a directive. */
  method Piece(fmt: string, i: nat, args: seq<Arg>, k: nat, buf: array<char>, pos: nat, last: nat)
    returns (next: nat, i': nat, k': nat, ghost text: string)
    requires i < |fmt| && k <= |args| && WellFormed(fmt[i..], args[k..]) && pos < last <= buf.Length
    modifies buf
    ensures i < i' <= |fmt| && k' <= |args| && WellFormed(fmt[i'..], args[k'..])
    ensures Render(fmt[i..], args[k..]) == text + Render(fmt[i'..], args[k'..])
    ensures Wrote(old(buf[..]), buf[..], pos, last, text, next)
  {
    i', k' := i, k;
    assert fmt[i..][1..] == fmt[i + 1..];
    if fmt[i] == '%' {
      var spec;
      spec, i' := ReadSpecAt(fmt, i + 1);
      if TakesArg(spec) {
        text := Expand(spec, args[k]);
        next := Directive(spec, args[k], buf, pos, last);
        k' := k + 1;
        assert args[k..][1..] == args[k + 1..];
      } else {
        text := [spec.conv];
        next := Put(spec.conv, buf, pos, last);
      }
    } else {
      text := [fmt[i]];
      next := Put(fmt[i], buf, pos, last);
      i' := i + 1;
    }
  }
}
