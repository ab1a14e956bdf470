/** Machine words as lists of bits, lowest bit first.
    Shifting right drops the head of the list, and reflecting a word reverses it. */
module Bits {
  type Byte = x: int | 0 <= x < 256
  type BitString = seq<bool>

  function Zeros(n: nat): (z: BitString)
    ensures |z| == n && forall i :: 0 <= i < n ==> !z[i]
  {
    seq(n, _ => false)
  }

  function Ones(n: nat): (z: BitString)
    ensures |z| == n && forall i :: 0 <= i < n ==> z[i]
  {
    seq(n, _ => true)
  }

  function Xor(a: BitString, b: BitString): (r: BitString)
    requires |a| == |b|
    ensures |r| == |a| && forall i :: 0 <= i < |a| ==> r[i] == (a[i] != b[i])
  {
    seq(|a|, i requires 0 <= i < |a| => a[i] != b[i])
  }

  lemma XorAssociative(a: BitString, b: BitString, c: BitString)
    requires |a| == |b| == |c|
    ensures Xor(a, Xor(b, c)) == Xor(Xor(a, b), c)
  {
  }

  lemma XorExchange(a: BitString, b: BitString, c: BitString, d: BitString)
    requires |a| == |b| == |c| == |d|
    ensures Xor(Xor(a, b), Xor(c, d)) == Xor(Xor(a, c), Xor(b, d))
  {
  }

  lemma XorTwice(a: BitString, b: BitString)
    requires |a| == |b|
    ensures Xor(Xor(a, b), b) == a
  {
  }

  lemma XorZero(a: BitString, b: BitString)
    requires |a| == |b| && Xor(a, b) == Zeros(|a|)
    ensures a == b
  {
    forall i | 0 <= i < |a|
      ensures a[i] == b[i]
    {
      assert !Xor(a, b)[i];
    }
  }

  lemma ZerosCons(n: nat, a: BitString)
    ensures [false] + (Zeros(n) + a) == Zeros(n + 1) + a
  {
  }

  lemma XorCons(x: bool, a: BitString, b: BitString)
    requires |a| == |b|
    ensures Xor([x] + a, [x] + b) == [false] + Xor(a, b)
  {
  }

  /** `a >> 1` and `a << 1` within the width of the word. */
  function Shr(a: BitString): (r: BitString)
    requires a != []
    ensures |r| == |a|
  {
    a[1..] + [false]
  }

  function Shl(a: BitString): (r: BitString)
    requires a != []
    ensures |r| == |a|
  {
    [false] + a[..|a| - 1]
  }

  function ShrBy(a: BitString, n: nat): (r: BitString)
    requires n <= |a|
    ensures |r| == |a|
  {
    a[n..] + Zeros(n)
  }

  function ShlBy(a: BitString, n: nat): (r: BitString)
    requires n <= |a|
    ensures |r| == |a|
  {
    Zeros(n) + a[..|a| - n]
  }

  function Reverse(a: BitString): (r: BitString)
    ensures |r| == |a| && forall i :: 0 <= i < |a| ==> r[i] == a[|a| - 1 - i]
  {
    seq(|a|, i requires 0 <= i < |a| => a[|a| - 1 - i])
  }

  lemma ReverseXor(a: BitString, b: BitString)
    requires |a| == |b|
    ensures Reverse(Xor(a, b)) == Xor(Reverse(a), Reverse(b))
  {
  }

  lemma ReverseShl(a: BitString)
    requires a != []
    ensures Reverse(Shl(a)) == Shr(Reverse(a))
  {
  }

  lemma ReverseAppend(a: BitString, b: BitString)
    ensures Reverse(a + b) == Reverse(b) + Reverse(a)
  {
  }

  /** The low `width` bits of a number. */
  function ToBits(n: nat, width: nat): (r: BitString)
    ensures |r| == width
  {
    if width == 0 then [] else [n % 2 == 1] + ToBits(n / 2, width - 1)
  }

  function Value(a: BitString): nat {
    if a == [] then 0 else (if a[0] then 1 else 0) + 2 * Value(a[1..])
  }

  function Pow2(n: nat): (r: nat)
    ensures r > 0
  {
    if n == 0 then 1 else 2 * Pow2(n - 1)
  }

  /** Low bits followed by high bits. */
  lemma {:induction false} ValueAppend(a: BitString, b: BitString)
    ensures Value(a + b) == Value(a) + Pow2(|a|) * Value(b)
  {
    if a == [] {
      assert a + b == b;
    } else {
      ValueAppend(a[1..], b);
      assert (a + b)[1..] == a[1..] + b;
      assert Pow2(|a|) * Value(b) == 2 * (Pow2(|a| - 1) * Value(b));
    }
  }

  lemma {:induction false} ValueToBits(n: nat, width: nat)
    requires n < Pow2(width)
    ensures Value(ToBits(n, width)) == n
  {
    if width > 0 {
      ValueToBits(n / 2, width - 1);
      assert ToBits(n, width)[1..] == ToBits(n / 2, width - 1);
    }
  }

  lemma {:induction false} ToBitsValue(a: BitString)
    ensures Value(a) < Pow2(|a|)
    ensures ToBits(Value(a), |a|) == a
  {
    if a != [] {
      ToBitsValue(a[1..]);
      assert a == [a[0]] + a[1..];
    }
  }

  lemma {:induction false} ToBitsInjective(m: nat, n: nat, width: nat)
    requires m < Pow2(width) && n < Pow2(width)
    requires ToBits(m, width) == ToBits(n, width)
    ensures m == n
  {
    ValueToBits(m, width);
    ValueToBits(n, width);
  }

  lemma {:induction false} ToBitsPrefix(n: nat, k: nat, width: nat)
    requires k <= width
    ensures ToBits(n, width)[..k] == ToBits(n, k)
  {
    if k > 0 {
      ToBitsPrefix(n / 2, k - 1, width - 1);
      assert ToBits(n, width)[..k] == [n % 2 == 1] + ToBits(n / 2, width - 1)[..k - 1];
    }
  }
}
