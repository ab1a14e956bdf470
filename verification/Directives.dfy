/** The grammar of a % directive: what it looks like in a format, and that it is read as that. */
module Directives {
  import opened Common
  import opened Numbers
  import opened Printf

  /** A directive as it is written behind the % sign. */
  datatype Written = Written(zero: bool, width: string, flags: string, precision: Option<string>, conv: char)

  predicate AllFlags(s: string) {
    forall i :: 0 <= i < |s| ==> s[i] in "uxX"
  }

  predicate Grammatical(d: Written) {
    AllDigits(d.width, Decimal) && (!d.zero && d.width != "" ==> d.width[0] != '0') && AllFlags(d.flags) &&
    d.conv != '\0' && !IsDigit(d.conv) &&
    match d.precision
    case None => d.conv !in "uxX."
    case Some(digits) => AllDigits(digits, Decimal)
  }

  function Tail(d: Written, rest: string): string {
    (match d.precision case None => "" case Some(digits) => "." + digits) + ([d.conv] + rest)
  }

  function Text(d: Written, rest: string): string {
    ((if d.zero then "0" else "") + d.width) + (d.flags + Tail(d, rest))
  }

  /** The radix the flags ask for: the last x or X decides. */
  function RadixOf(flags: string, radix: Radix): Radix {
    if flags == "" then radix
    else match flags[|flags| - 1]
      case 'x' => LowerHex
      case 'X' => UpperHex
      case _ => RadixOf(flags[..|flags| - 1], radix)
  }

  /** What a directive means. */
  function Meaning(d: Written, rest: string): Spec {
    Spec(if d.zero then '0' else ' ', Parse(d.width, Decimal), d.flags == "", RadixOf(d.flags, Decimal),
         match d.precision case None => 0 case Some(digits) => Parse(digits, Decimal), d.conv, rest)
  }

  // ---- Numbers ----

  lemma {:induction false} ReadNumberReads(done: string, digits: string, rest: string)
    requires AllDigits(digits, Decimal) && (rest != "" ==> !IsDigit(rest[0]))
    ensures ReadNumber(digits + rest, Parse(done, Decimal)) == (Parse(done + digits, Decimal), rest)
    decreases |digits|
  {
    if digits == "" {
      assert digits + rest == rest && done + digits == done;
    } else {
      var more := done + [digits[0]];
      assert more[..|done|] == done;
      assert digits[0] == (digits + rest)[0] && (digits + rest)[1..] == digits[1..] + rest;
      ReadNumberReads(more, digits[1..], rest);
      assert more + digits[1..] == done + digits;
    }
  }

  lemma ReadsNumber(digits: string, rest: string)
    requires AllDigits(digits, Decimal) && (rest != "" ==> !IsDigit(rest[0]))
    ensures ReadNumber(digits + rest, 0) == (Parse(digits, Decimal), rest)
  {
    ReadNumberReads("", digits, rest);
    assert "" + digits == digits;
  }

  // ---- Flags ----

  lemma {:induction false} RadixOfFirst(flags: string, radix: Radix)
    requires flags != ""
    ensures RadixOf(flags, radix) ==
            RadixOf(flags[1..], if flags[0] == 'x' then LowerHex else if flags[0] == 'X' then UpperHex else radix)
    decreases |flags|
  {
    var front := flags[..|flags| - 1];
    if |flags| > 1 {
      assert front[1..] == flags[1..][..|flags| - 2] && flags[1..][|flags| - 2] == flags[|flags| - 1];
      if flags[|flags| - 1] != 'x' && flags[|flags| - 1] != 'X' {
        RadixOfFirst(front, radix);
      }
    } else {
      assert front == "";
    }
  }

  lemma {:induction false} ReadsFlags(flags: string, tail: string, signed: bool, radix: Radix)
    requires AllFlags(flags)
    ensures ReadFlags(flags + tail, signed, radix) == ReadFlags(tail, signed && flags == "", RadixOf(flags, radix))
    decreases |flags|
  {
    if flags == "" {
      assert flags + tail == tail;
    } else {
      RadixOfFirst(flags, radix);
      assert (flags + tail)[0] == flags[0] && flags[0] in "uxX" && (flags + tail)[1..] == flags[1..] + tail;
      ReadsFlags(flags[1..], tail, false,
                 if flags[0] == 'x' then LowerHex else if flags[0] == 'X' then UpperHex else radix);
    }
  }

  lemma ReadsTail(d: Written, rest: string, signed: bool, radix: Radix)
    requires Grammatical(d)
    ensures ReadFlags(Tail(d, rest), signed, radix) == Flags(signed, radix, Meaning(d, rest).precision, [d.conv] + rest)
  {
    match d.precision
    case None =>
      assert Tail(d, rest)[0] == d.conv && Tail(d, rest) == [d.conv] + rest;
    case Some(digits) =>
      assert Tail(d, rest)[0] == '.' && Tail(d, rest)[1..] == digits + ([d.conv] + rest);
      ReadsNumber(digits, [d.conv] + rest);
  }

  // ---- Directives ----

  /** Zero flag and width are taken apart: a leading zero is the flag, and counts nothing in the width. */
  lemma ReadsWidth(d: Written, rest: string)
    requires Grammatical(d)
    ensures ReadNumber(Text(d, rest), 0) == (Parse(d.width, Decimal), d.flags + Tail(d, rest))
    ensures Text(d, rest) != "" && (Text(d, rest)[0] == '0' <==> d.zero)
  {
    var digits := (if d.zero then "0" else "") + d.width;
    var behind := d.flags + Tail(d, rest);
    assert behind[0] == (if d.flags != "" then d.flags[0] else Tail(d, rest)[0]);
    assert d.flags != "" ==> d.flags[0] in "uxX";
    assert Tail(d, rest)[0] == if d.precision.Some? then '.' else d.conv;
    ReadsNumber(digits, behind);
    if d.zero {
      ParsePadded('0', 1, d.width, Decimal);
      assert Repeat('0', 1) == "0";
    } else {
      assert digits == d.width;
    }
  }

  /** A directive is read as what it means. */
  lemma SpecRoundTrip(d: Written, rest: string)
    requires Grammatical(d)
    ensures ReadSpec(Text(d, rest)) == Meaning(d, rest)
  {
    ReadsWidth(d, rest);
    ReadsFlags(d.flags, Tail(d, rest), true, Decimal);
    ReadsTail(d, rest, d.flags == "", RadixOf(d.flags, Decimal));
    assert ([d.conv] + rest)[1..] == rest;
  }

  // ---- Formats ----

  lemma RenderCharacter(c: char, fmt: string, args: seq<Arg>)
    requires c != '%' && WellFormed([c] + fmt, args)
    ensures WellFormed(fmt, args) && Render([c] + fmt, args) == [c] + Render(fmt, args)
  {
    assert ([c] + fmt)[1..] == fmt;
  }

  /** Text without a % sign stands for itself. */
  lemma {:induction false} RenderPlain(plain: string, fmt: string, args: seq<Arg>)
    requires '%' !in plain && WellFormed(plain + fmt, args)
    ensures WellFormed(fmt, args) && Render(plain + fmt, args) == plain + Render(fmt, args)
    decreases |plain|
  {
    hide WellFormed, Render;
    if plain == "" {
      assert plain + fmt == fmt;
    } else {
      assert plain + fmt == [plain[0]] + (plain[1..] + fmt);
      RenderCharacter(plain[0], plain[1..] + fmt, args);
      RenderPlain(plain[1..], fmt, args);
    }
  }

  /** A directive stands for the expansion of its argument, or for its own character when it takes none. */
  lemma RenderDirective(d: Written, fmt: string, args: seq<Arg>)
    requires Grammatical(d) && WellFormed("%" + Text(d, fmt), args)
    ensures var spec := Meaning(d, fmt);
            if d.conv in "diLpsPf" then
              TakesArg(spec) && args != [] && Suits(spec, args[0]) && WellFormed(fmt, args[1..]) &&
              Render("%" + Text(d, fmt), args) == Expand(spec, args[0]) + Render(fmt, args[1..])
            else
              WellFormed(fmt, args) && Render("%" + Text(d, fmt), args) == [d.conv] + Render(fmt, args)
  {
    SpecRoundTrip(d, fmt);
    assert ("%" + Text(d, fmt))[1..] == Text(d, fmt);
  }

  /** %% is one % sign. */
  lemma RenderPercent(fmt: string, args: seq<Arg>)
    requires WellFormed("%%" + fmt, args)
    ensures WellFormed(fmt, args) && Render("%%" + fmt, args) == "%" + Render(fmt, args)
  {
    var d := Written(false, "", "", None, '%');
    assert "%" + Text(d, fmt) == "%%" + fmt;
    RenderDirective(d, fmt, args);
  }
}
