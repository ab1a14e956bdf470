/** CRC-32 as computed by misc/ngx_c_crc32.cpp: a table of 256 words is built by
    reflection and left-shift division, and a buffer is folded through it.
    The reference is division of polynomials over GF(2), section 8 of RFC 1952. */
module Crc32 {
  import opened Bits

  type Word = w: BitString | |w| == 32 witness Zeros(32)

  // ---- Polynomials over GF(2), highest coefficient first ----

  /** The polynomial x^32 + p(x), times f * x^(n-1), among polynomials with n + 32 coefficients. */
  function Scaled(p: Word, f: bool, n: nat): (t: BitString)
    requires n > 0
    ensures |t| == n + 32
  {
    if f then [true] + p + Zeros(n - 1) else Zeros(n + 32)
  }

  /** Schoolbook product of `q` with x^32 + p(x). */
  function Product(p: Word, q: BitString): (r: BitString)
    ensures |r| == |q| + 32
  {
    if q == [] then Zeros(32) else Xor(Scaled(p, q[0], |q|), [false] + Product(p, q[1..]))
  }

  /** `r` is what is left of `d` after subtracting a multiple of x^32 + p(x). */
  ghost predicate IsRemainder(p: Word, d: BitString, r: Word)
    requires |d| >= 32
  {
    exists q: BitString :: |q| == |d| - 32 && Xor(d, Product(p, q)) == Zeros(|q|) + r
  }

  /** start(x) * x^|m| + m(x) * x^32 */
  function Dividend(start: Word, m: BitString): (d: BitString)
    ensures |d| == |m| + 32
  {
    Xor(start + Zeros(|m|), m + Zeros(32))
  }

  /** The bits of a buffer in transmission order: bytes in order, low bit first. */
  function MessageBits(buffer: seq<Byte>): (m: BitString)
    ensures |m| == 8 * |buffer|
  {
    if buffer == [] then [] else ToBits(buffer[0], 8) + MessageBits(buffer[1..])
  }

  // ---- Bit-at-a-time register ----

  function BitStep(p: Word, c: Word): Word {
    if c[0] then Xor(Shr(c), p) else Shr(c)
  }

  function FeedBit(p: Word, c: Word, bit: bool): Word {
    BitStep(p, c[0 := c[0] != bit])
  }

  function FeedBits(p: Word, c: Word, m: BitString): Word
    decreases m
  {
    if m == [] then c else FeedBits(p, FeedBit(p, c, m[0]), m[1..])
  }

  // ---- The register is the remainder ----

  lemma {:induction false} ProductLinear(p: Word, a: BitString, b: BitString)
    requires |a| == |b|
    ensures Product(p, Xor(a, b)) == Xor(Product(p, a), Product(p, b))
  {
    if a != [] {
      ProductLinear(p, a[1..], b[1..]);
      assert Xor(a, b)[1..] == Xor(a[1..], b[1..]);
      var sa, sb, n := Scaled(p, a[0], |a|), Scaled(p, b[0], |a|), |a|;
      var pa, pb := [false] + Product(p, a[1..]), [false] + Product(p, b[1..]);
      assert Scaled(p, a[0] != b[0], n) == Xor(sa, sb);
      XorExchange(sa, pa, sb, pb);
      XorCons(false, Product(p, a[1..]), Product(p, b[1..]));
    }
  }

  /** The top coefficients of a product are zero only for the zero quotient. */
  lemma {:induction false} ProductZero(p: Word, q: BitString)
    requires Product(p, q)[..|q|] == Zeros(|q|)
    ensures q == Zeros(|q|)
  {
    if q != [] {
      var rest, n := Product(p, q[1..]), |q|;
      assert Product(p, q)[0] == q[0];
      assert !Product(p, q)[..n][0];
      forall i | 0 <= i < n - 1
        ensures !rest[i]
      {
        assert Product(p, q)[..n][i + 1] == rest[i];
      }
      assert rest[..n - 1] == Zeros(n - 1);
      ProductZero(p, q[1..]);
      assert q == [q[0]] + q[1..];
    }
  }

  lemma {:induction false} RemainderUnique(p: Word, d: BitString, r1: Word, r2: Word)
    requires |d| >= 32 && IsRemainder(p, d, r1) && IsRemainder(p, d, r2)
    ensures r1 == r2
  {
    var n := |d| - 32;
    var q1: BitString :| |q1| == n && Xor(d, Product(p, q1)) == Zeros(n) + r1;
    var q2: BitString :| |q2| == n && Xor(d, Product(p, q2)) == Zeros(n) + r2;
    ProductLinear(p, q1, q2);
    SameTop(d, Product(p, q1), Product(p, q2), r1, r2, n);
    ProductZero(p, Xor(q1, q2));
    XorZero(q1, q2);
    assert r1 == (Zeros(n) + r1)[n..] == (Zeros(n) + r2)[n..] == r2;
  }

  lemma SameTop(d: BitString, a: BitString, b: BitString, r1: BitString, r2: BitString, n: nat)
    requires |a| == |b| == |d| == n + |r1| && |r1| == |r2|
    requires Xor(d, a) == Zeros(n) + r1 && Xor(d, b) == Zeros(n) + r2
    ensures Xor(a, b)[..n] == Zeros(n)
  {
    forall i | 0 <= i < n
      ensures !Xor(a, b)[i]
    {
      assert !Xor(d, a)[i] && !Xor(d, b)[i];
    }
  }

  /** The feedback bits of the register, which are the coefficients of the quotient. */
  function Quotient(p: Word, c: Word, m: BitString): (q: BitString)
    ensures |q| == |m|
    decreases m
  {
    if m == [] then [] else [c[0] != m[0]] + Quotient(p, FeedBit(p, c, m[0]), m[1..])
  }

  lemma {:induction false} FeedBitAt(p: Word, c: Word, bit: bool, i: nat)
    requires i < 32
    ensures FeedBit(p, c, bit)[i] == ((i < 31 && c[i + 1]) != ((c[0] != bit) && p[i]))
  {
  }

  /** One line of the long division cancels the leading coefficient. */
  lemma {:induction false} DivisionLine(p: Word, c: Word, m: BitString)
    requires m != []
    ensures Xor(Dividend(c, m), Scaled(p, c[0] != m[0], |m|)) == [false] + Dividend(FeedBit(p, c, m[0]), m[1..])
  {
    var n, f, c' := |m|, c[0] != m[0], FeedBit(p, c, m[0]);
    var lhs, rhs := Xor(Dividend(c, m), Scaled(p, f, n)), [false] + Dividend(c', m[1..]);
    forall i | 0 <= i < n + 32
      ensures lhs[i] == rhs[i]
    {
      if 0 < i <= 32 {
        FeedBitAt(p, c, m[0], i - 1);
      }
    }
  }

  lemma {:induction false} RegisterDivides(p: Word, c: Word, m: BitString)
    ensures Xor(Dividend(c, m), Product(p, Quotient(p, c, m))) == Zeros(|m|) + FeedBits(p, c, m)
    decreases m
  {
    if m == [] {
      assert Xor(Dividend(c, m), Zeros(32)) == c;
    } else {
      var c', m' := FeedBit(p, c, m[0]), m[1..];
      var line, product := Scaled(p, c[0] != m[0], |m|), Product(p, Quotient(p, c', m'));
      assert Product(p, Quotient(p, c, m)) == Xor(line, [false] + product);
      RegisterDivides(p, c', m');
      DivisionLine(p, c, m);
      XorAssociative(Dividend(c, m), line, [false] + product);
      XorCons(false, Dividend(c', m'), product);
      ZerosCons(|m'|, FeedBits(p, c', m'));
    }
  }

  /** Feeding a message bit by bit computes the one remainder of the division. */
  lemma {:induction false} FeedBitsIsRemainder(p: Word, c: Word, m: BitString, r: Word)
    ensures IsRemainder(p, Dividend(c, m), r) <==> r == FeedBits(p, c, m)
  {
    RegisterDivides(p, c, m);
    assert |Quotient(p, c, m)| == |Dividend(c, m)| - 32;
    assert IsRemainder(p, Dividend(c, m), FeedBits(p, c, m));
    if IsRemainder(p, Dividend(c, m), r) {
      RemainderUnique(p, Dividend(c, m), r, FeedBits(p, c, m));
    }
  }

  // ---- Runs of the register without input ----

  function Steps(p: Word, c: Word, n: nat): Word
    decreases n
  {
    if n == 0 then c else Steps(p, BitStep(p, c), n - 1)
  }

  lemma {:induction false} BitStepLinear(p: Word, a: Word, b: Word)
    ensures BitStep(p, Xor(a, b)) == Xor(BitStep(p, a), BitStep(p, b))
  {
    forall i | 0 <= i < 32
      ensures BitStep(p, Xor(a, b))[i] == Xor(BitStep(p, a), BitStep(p, b))[i]
    {
    }
  }

  lemma {:induction false} StepsLinear(p: Word, a: Word, b: Word, n: nat)
    ensures Steps(p, Xor(a, b), n) == Xor(Steps(p, a, n), Steps(p, b, n))
    decreases n
  {
    if n > 0 {
      BitStepLinear(p, a, b);
      StepsLinear(p, BitStep(p, a), BitStep(p, b), n - 1);
    }
  }

  /** The register loses nothing when the generator has constant coefficient 1. */
  lemma {:induction false} StepsInjective(p: Word, a: Word, b: Word, n: nat)
    requires p[31] && Steps(p, a, n) == Steps(p, b, n)
    ensures a == b
    decreases n
  {
    if n > 0 {
      var a', b' := BitStep(p, a), BitStep(p, b);
      StepsInjective(p, a', b', n - 1);
      assert a'[31] == a[0] && b'[31] == b[0];
      forall i | 0 < i < 32
        ensures a[i] == b[i]
      {
        assert a'[i - 1] == (a[i] != (a[0] && p[i - 1]));
        assert b'[i - 1] == (b[i] != (b[0] && p[i - 1]));
      }
      assert a == b;
    }
  }

  function Pad(m: BitString): Word
    requires |m| <= 32
  {
    m + Zeros(32 - |m|)
  }

  /** Up to 32 message bits act as one word, added to the register before it runs. */
  lemma {:induction false} FeedBitsIsSteps(p: Word, c: Word, m: BitString)
    requires |m| <= 32
    ensures FeedBits(p, c, m) == Steps(p, Xor(c, Pad(m)), |m|)
    decreases m
  {
    if m == [] {
      assert Xor(c, Pad(m)) == c;
    } else {
      var c', m' := FeedBit(p, c, m[0]), m[1..];
      FeedBitsIsSteps(p, c', m');
      var low, rest := c[0 := c[0] != m[0]], [false] + m' + Zeros(32 - |m|);
      assert Xor(c, Pad(m)) == Xor(low, rest);
      BitStepLinear(p, low, rest);
      assert BitStep(p, rest) == Pad(m');
    }
  }

  lemma {:induction false} FeedBitsAppend(p: Word, c: Word, a: BitString, b: BitString)
    ensures FeedBits(p, c, a + b) == FeedBits(p, FeedBits(p, c, a), b)
    decreases a
  {
    if a == [] {
      assert a + b == b;
    } else {
      FeedBitsAppend(p, FeedBit(p, c, a[0]), a[1..], b);
      assert (a + b)[1..] == a[1..] + b;
    }
  }

  /** Two registers stay different under the same input. */
  lemma {:induction false} FeedBitsInjective(p: Word, c: Word, d: Word, m: BitString)
    requires p[31] && FeedBits(p, c, m) == FeedBits(p, d, m)
    ensures c == d
    decreases m
  {
    if m != [] {
      FeedBitsInjective(p, FeedBit(p, c, m[0]), FeedBit(p, d, m[0]), m[1..]);
      var a, b := c[0 := c[0] != m[0]], d[0 := d[0] != m[0]];
      assert Steps(p, a, 1) == BitStep(p, a) && Steps(p, b, 1) == BitStep(p, b);
      StepsInjective(p, a, b, 1);
      assert c == a[0 := a[0] != m[0]] && d == b[0 := b[0] != m[0]];
    }
  }

  /** Messages that differ only inside a window of 32 bits leave different registers. */
  lemma {:induction false} BurstChangesRegister(p: Word, c: Word, before: BitString, a: BitString, b: BitString, after: BitString)
    requires p[31] && |a| == |b| <= 32 && a != b
    ensures FeedBits(p, c, before + a + after) != FeedBits(p, c, before + b + after)
  {
    var d := FeedBits(p, c, before);
    FeedBitsAppend(p, c, before + a, after);
    FeedBitsAppend(p, c, before + b, after);
    FeedBitsAppend(p, c, before, a);
    FeedBitsAppend(p, c, before, b);
    if FeedBits(p, c, before + a + after) == FeedBits(p, c, before + b + after) {
      FeedBitsInjective(p, FeedBits(p, d, a), FeedBits(p, d, b), after);
      FeedBitsIsSteps(p, d, a);
      FeedBitsIsSteps(p, d, b);
      StepsInjective(p, Xor(d, Pad(a)), Xor(d, Pad(b)), |a|);
      forall i | 0 <= i < |a|
        ensures a[i] == b[i]
      {
        assert Xor(d, Pad(a))[i] == Xor(d, Pad(b))[i];
      }
      assert false;
    }
  }

  // ---- Left-shift division and the lookup table ----

  function LeftStep(q: Word, t: Word): Word {
    if t[31] then Xor(Shl(t), q) else Shl(t)
  }

  /** Reflection turns left-shift division into right-shift division. */
  lemma {:induction false} ReflectLeftStep(q: Word, t: Word)
    ensures Reverse(LeftStep(q, t)) == BitStep(Reverse(q), Reverse(t))
  {
    ReverseShl(t);
    ReverseXor(Shl(t), q);
  }

  lemma {:induction false} StepsLast(p: Word, c: Word, n: nat)
    ensures Steps(p, c, n + 1) == BitStep(p, Steps(p, c, n))
    decreases n
  {
    if n > 0 {
      StepsLast(p, BitStep(p, c), n - 1);
    }
  }

  /** Zeros at the low end are shifted out unchanged. */
  lemma {:induction false} StepsShift(p: Word, high: BitString, n: nat)
    requires |high| + n <= 32
    ensures Steps(p, Zeros(n) + high + Zeros(32 - n - |high|), n) == Pad(high)
    decreases n
  {
    if n > 0 {
      var c := Zeros(n) + high + Zeros(32 - n - |high|);
      assert BitStep(p, c) == Zeros(n - 1) + high + Zeros(32 - (n - 1) - |high|);
      StepsShift(p, high, n - 1);
    } else {
      assert Zeros(0) + high + Zeros(32 - |high|) == Pad(high);
    }
  }

  /** The table entry for a byte: the register after running eight steps from it. */
  function Entry(p: Word, low: BitString): Word
    requires |low| == 8
  {
    Steps(p, Pad(low), 8)
  }

  /** One lookup does the work of eight bit steps. */
  lemma {:induction false} LookupIsEightSteps(p: Word, c: Word, m: BitString)
    requires |m| == 8
    ensures FeedBits(p, c, m) == Xor(ShrBy(c, 8), Entry(p, Xor(c[..8], m)))
  {
    var low, high := Xor(c[..8], m), c[8..];
    FeedBitsIsSteps(p, c, m);
    assert Xor(c, Pad(m)) == Xor(Zeros(8) + high + Zeros(0), Pad(low));
    StepsLinear(p, Zeros(8) + high + Zeros(0), Pad(low), 8);
    StepsShift(p, high, 8);
    assert Pad(high) == ShrBy(c, 8);
  }

  lemma {:induction false} MessageBitsAppend(a: seq<Byte>, b: seq<Byte>)
    ensures MessageBits(a + b) == MessageBits(a) + MessageBits(b)
  {
    if a == [] {
      assert a + b == b;
    } else {
      MessageBitsAppend(a[1..], b);
      assert (a + b)[1..] == a[1..] + b;
      var first := ToBits(a[0], 8);
      assert first + (MessageBits(a[1..]) + MessageBits(b)) == (first + MessageBits(a[1..])) + MessageBits(b);
    }
  }

  // ---- CRC-32 ----

  type HexDigit = d: nat | d < 16

  function Digit(d: HexDigit): (b: BitString)
    ensures |b| == 4
  {
    [d % 2 == 1, d % 4 >= 2, d % 8 >= 4, d >= 8]
  }

  function Mirror(d: HexDigit): HexDigit {
    (if d >= 8 then 1 else 0) + (if d % 8 >= 4 then 2 else 0) + (if d % 4 >= 2 then 4 else 0) + (if d % 2 == 1 then 8 else 0)
  }

  /** The word with the given hexadecimal digits, written as usual with the highest first. */
  function Hex(d: seq<HexDigit>): (b: BitString)
    ensures |b| == 4 * |d|
  {
    if d == [] then [] else Hex(d[1..]) + Digit(d[0])
  }

  function Mirrored(d: seq<HexDigit>): (m: seq<HexDigit>)
    ensures |m| == |d| && forall i :: 0 <= i < |d| ==> m[i] == Mirror(d[|d| - 1 - i])
  {
    seq(|d|, i requires 0 <= i < |d| => Mirror(d[|d| - 1 - i]))
  }

  function PolynomialDigits(): (d: seq<HexDigit>)
    ensures |d| == 8
  {
    [0, 4, 0xc, 1, 1, 0xd, 0xb, 7]
  }

  function ReflectedDigits(): (d: seq<HexDigit>)
    ensures |d| == 8
  {
    [0xe, 0xd, 0xb, 8, 8, 3, 2, 0]
  }

  /** The polynomial of the source, 0x04c11db7, bit k being the coefficient of x^k. */
  function Polynomial(): Word {
    Hex(PolynomialDigits())
  }

  /** The CRC of a buffer for any reflected polynomial. */
  function CrcWith(p: Word, buffer: seq<Byte>): Word {
    Xor(FeedBits(p, Ones(32), MessageBits(buffer)), Ones(32))
  }

  function Crc(buffer: seq<Byte>): Word {
    CrcWith(Reverse(Polynomial()), buffer)
  }

  /** Reflecting a word mirrors each hexadecimal digit and reverses their order. */
  lemma {:induction false} ReverseHex(d: seq<HexDigit>)
    ensures Reverse(Hex(d)) == Hex(Mirrored(d))
  {
    if d != [] {
      ReverseHex(d[1..]);
      HexAppend(Mirrored(d[1..]), Mirror(d[0]));
      MirrorDigit(d[0]);
      assert Mirrored(d) == Mirrored(d[1..]) + [Mirror(d[0])];
      ReverseAppend(Hex(d[1..]), Digit(d[0]));
    }
  }

  lemma MirrorDigit(d: HexDigit)
    ensures Reverse(Digit(d)) == Digit(Mirror(d))
  {
  }

  lemma {:induction false} HexAppend(d: seq<HexDigit>, last: HexDigit)
    ensures Hex(d + [last]) == Digit(last) + Hex(d)
  {
    if d == [] {
      assert [] + [last] == [last];
      assert Hex([last]) == Digit(last) + Hex([]);
    } else {
      HexAppend(d[1..], last);
      assert (d + [last])[1..] == d[1..] + [last];
    }
  }

  lemma MirroredDigits()
    ensures Mirrored(PolynomialDigits()) == ReflectedDigits()
  {
  }

  lemma {:induction false} HexTop(d: seq<HexDigit>)
    requires d != []
    ensures Hex(d)[4 * |d| - 1] == Digit(d[0])[3]
  {
  }

  /** The reflected polynomial is the 0xedb88320 of RFC 1952. */
  lemma {:induction false} ReflectedPolynomial()
    ensures Reverse(Polynomial()) == Hex(ReflectedDigits())
    ensures Reverse(Polynomial())[31]
  {
    ReverseHex(PolynomialDigits());
    MirroredDigits();
    HexTop(ReflectedDigits());
  }

  /** The complement of a checksum is the remainder of the message polynomial, and nothing else is. */
  lemma {:induction false} CrcIsRemainder(p: Word, buffer: seq<Byte>, c: Word)
    ensures IsRemainder(p, Dividend(Ones(32), MessageBits(buffer)), Xor(c, Ones(32)))
       <==> c == CrcWith(p, buffer)
  {
    var r := FeedBits(p, Ones(32), MessageBits(buffer));
    FeedBitsIsRemainder(p, Ones(32), MessageBits(buffer), Xor(c, Ones(32)));
    XorTwice(c, Ones(32));
    XorTwice(r, Ones(32));
  }

  /** Two buffers of one length that differ only inside a window of 32 consecutive bits,
      aligned to bytes or not, have different checksums. */
  lemma {:induction false} BurstDetected(p: Word, x: seq<Byte>, y: seq<Byte>, start: nat)
    requires p[31] && |x| == |y| && x != y
    requires forall i :: 0 <= i < 8 * |x| && MessageBits(x)[i] != MessageBits(y)[i] ==> start <= i < start + 32
    ensures CrcWith(p, x) != CrcWith(p, y)
  {
    var mx, my := MessageBits(x), MessageBits(y);
    if mx == my {
      MessageBitsInjective(x, y);
    }
    var lo := if start <= |mx| then start else |mx|;
    var hi := if start + 32 <= |mx| then start + 32 else |mx|;
    assert mx[..lo] == my[..lo] && mx[hi..] == my[hi..];
    assert mx == mx[..lo] + mx[lo..hi] + mx[hi..];
    assert my == mx[..lo] + my[lo..hi] + mx[hi..];
    BurstChangesRegister(p, Ones(32), mx[..lo], mx[lo..hi], my[lo..hi], mx[hi..]);
    XorTwice(FeedBits(p, Ones(32), mx), Ones(32));
    XorTwice(FeedBits(p, Ones(32), my), Ones(32));
  }

  /** In particular every error confined to four consecutive bytes is detected. */
  lemma {:induction false} FourByteBurst(p: Word, before: seq<Byte>, a: seq<Byte>, b: seq<Byte>, after: seq<Byte>)
    requires p[31] && |a| == |b| <= 4 && a != b
    ensures CrcWith(p, before + a + after) != CrcWith(p, before + b + after)
  {
    MessageBitsAppend(before + a, after);
    MessageBitsAppend(before + b, after);
    MessageBitsAppend(before, a);
    MessageBitsAppend(before, b);
    if MessageBits(a) == MessageBits(b) {
      MessageBitsInjective(a, b);
    }
    BurstChangesRegister(p, Ones(32), MessageBits(before), MessageBits(a), MessageBits(b), MessageBits(after));
    XorTwice(FeedBits(p, Ones(32), MessageBits(before + a + after)), Ones(32));
    XorTwice(FeedBits(p, Ones(32), MessageBits(before + b + after)), Ones(32));
  }

  lemma {:induction false} FourByteBurstDetected(before: seq<Byte>, a: seq<Byte>, b: seq<Byte>, after: seq<Byte>)
    requires |a| == |b| <= 4 && a != b
    ensures Crc(before + a + after) != Crc(before + b + after)
  {
    ReflectedPolynomial();
    FourByteBurst(Reverse(Polynomial()), before, a, b, after);
  }

  lemma {:induction false} MessageBitsInjective(x: seq<Byte>, y: seq<Byte>)
    requires |x| == |y| && MessageBits(x) == MessageBits(y)
    ensures x == y
  {
    if x != [] {
      assert MessageBits(x)[..8] == ToBits(x[0], 8) && MessageBits(x)[8..] == MessageBits(x[1..]);
      assert MessageBits(y)[..8] == ToBits(y[0], 8) && MessageBits(y)[8..] == MessageBits(y[1..]);
      assert Pow2(8) == 256;
      ToBitsInjective(x[0], y[0], 8);
      MessageBitsInjective(x[1..], y[1..]);
      assert x == [x[0]] + x[1..] && y == [y[0]] + y[1..];
    }
  }

  /** Reflecting a byte into the top of a word and reflecting the word back leaves the byte in front. */
  lemma {:induction false} EntryStart(i: nat, reflected: Word)
    requires reflected == Reverse(ToBits(i, 32)[..8]) + Zeros(24)
    ensures Reverse(ShlBy(reflected, 24)) == Pad(ToBits(i, 8))
  {
    ToBitsPrefix(i, 8, 32);
  }

  /** The singleton that owns the lookup table. */
  class CrcTable {
    const polynomial: Word
    const table: array<Word>

    ghost predicate Valid()
      reads table
    {
      table.Length == 256 &&
      forall i :: 0 <= i < 256 ==> table[i] == Entry(Reverse(polynomial), ToBits(i, 8))
    }

    constructor ()
      ensures Valid() && fresh(table) && polynomial == Polynomial()
    {
      polynomial := Polynomial();
      table := new Word[256](_ => Zeros(32));
      new;
      InitTable();
    }

    /** Swaps bit 0 with bit ch-1, bit 1 with bit ch-2, and so on. */
    method Reflect(ref: Word, ch: nat) returns (value: Word)
      requires ch <= 32
      ensures value == Reverse(ref[..ch]) + Zeros(32 - ch)
    {
      value := Zeros(32);
      var rest: Word := ref;
      for i := 1 to ch + 1
        invariant rest == ShrBy(ref, i - 1)
        invariant forall k :: 0 <= k < 32 ==> value[k] == (ch - i < k < ch && ref[ch - 1 - k])
      {
        if rest[0] {
          value := value[ch - i := true];
        }
        rest := Shr(rest);
      }
    }

    method InitTable()
      requires table.Length == 256
      modifies table
      ensures Valid()
    {
      for i := 0 to 256
        invariant forall k :: 0 <= k < i ==> table[k] == Entry(Reverse(polynomial), ToBits(k, 8))
      {
        InitEntry(i);
      }
    }

    method InitEntry(i: nat)
      requires i < table.Length == 256
      modifies table
      ensures table[i] == Entry(Reverse(polynomial), ToBits(i, 8))
      ensures forall k :: 0 <= k < 256 && k != i ==> table[k] == old(table[k])
    {
      ghost var p, start := Reverse(polynomial), Pad(ToBits(i, 8));
      var reflected := Reflect(ToBits(i, 32), 8);
      EntryStart(i, reflected);
      var entry: Word := ShlBy(reflected, 24);
      for j := 0 to 8
        invariant Reverse(entry) == Steps(p, start, j)
        modifies {}
      {
        ReflectLeftStep(polynomial, entry);
        StepsLast(p, start, j);
        entry := if entry[31] then Xor(Shl(entry), polynomial) else Shl(entry);
      }
      assert Reverse(entry[..32]) + Zeros(0) == Reverse(entry);
      entry := Reflect(entry, 32);
      table[i] := entry;
    }

    method GetCrc(buffer: array<Byte>, size: nat) returns (crc: Word)
      requires Valid() && size <= buffer.Length
      ensures crc == CrcWith(Reverse(polynomial), buffer[..size])
    {
      ghost var p := Reverse(polynomial);
      crc := Ones(32);
      for k := 0 to size
        invariant crc == FeedBits(p, Ones(32), MessageBits(buffer[..k]))
      {
        var index := Xor(crc[..8], ToBits(buffer[k], 8));
        IndexInTable(index);
        NextByte(p, Ones(32), buffer[..k], buffer[k]);
        assert buffer[..k + 1] == buffer[..k] + [buffer[k]];
        crc := Xor(ShrBy(crc, 8), table[Value(index)]);
      }
      crc := Xor(crc, Ones(32));
    }
  }

  lemma IndexInTable(index: BitString)
    requires |index| == 8
    ensures Value(index) < 256 && ToBits(Value(index), 8) == index
  {
    ToBitsValue(index);
    assert Pow2(8) == 256;
  }

  /** One turn of the lookup loop appends one byte to the message. */
  lemma {:induction false} NextByte(p: Word, c: Word, sofar: seq<Byte>, b: Byte)
    ensures var r := FeedBits(p, c, MessageBits(sofar));
            FeedBits(p, c, MessageBits(sofar + [b])) == Xor(ShrBy(r, 8), Entry(p, Xor(r[..8], ToBits(b, 8))))
  {
    var r := FeedBits(p, c, MessageBits(sofar));
    MessageBitsAppend(sofar, [b]);
    assert MessageBits([b]) == ToBits(b, 8);
    FeedBitsAppend(p, c, MessageBits(sofar), ToBits(b, 8));
    LookupIsEightSteps(p, r, ToBits(b, 8));
  }
}
