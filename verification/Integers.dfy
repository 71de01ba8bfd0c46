/** Machine integers: what the folder computes with and what C says of it. */
module Integers {
  const TWO_TO_THE_63: int := 0x8000_0000_0000_0000
  const TWO_TO_THE_64: int := 0x1_0000_0000_0000_0000

  predicate IsI64(x: int) {
    -TWO_TO_THE_63 <= x < TWO_TO_THE_63
  }

  predicate IsU64(x: int) {
    0 <= x < TWO_TO_THE_64
  }

  function WrapU64(x: int): (r: int)
    ensures IsU64(r)
  {
    x % TWO_TO_THE_64
  }

  function WrapI64(x: int): (r: int)
    ensures IsI64(r)
  {
    (x + TWO_TO_THE_63) % TWO_TO_THE_64 - TWO_TO_THE_63
  }

  /** Two's complement in `bytes` bytes. */
  function Wrapped(x: int, bytes: nat): int
    requires bytes in {1, 2, 4, 8}
  {
    match bytes
    case 1 => (x + 0x80) % 0x100 - 0x80
    case 2 => (x + 0x8000) % 0x1_0000 - 0x8000
    case 4 => (x + 0x8000_0000) % 0x1_0000_0000 - 0x8000_0000
    case _ => WrapI64(x)
  }

  lemma {:induction false} WrapI64Small(x: int)
    requires IsI64(x)
    ensures WrapI64(x) == x
  {}

  /** Division as the machine does it: the fraction is dropped. */
  function Quotient(a: int, b: int): int
    requires b != 0
  {
    if (a >= 0) == (b > 0) then Abs(a) / Abs(b) else -(Abs(a) / Abs(b))
  }

  function Remainder(a: int, b: int): int
    requires b != 0
  {
    a - b * Quotient(a, b)
  }

  function Abs(a: int): nat {
    if a >= 0 then a else -a
  }

  function Pow2(n: nat): (p: int)
    ensures p >= 1
  {
    if n == 0 then 1 else 2 * Pow2(n - 1)
  }

  datatype BitOp = AndBits | OrBits | XorBits

  function OneBit(op: BitOp, a: bool, b: bool): bool {
    match op
    case AndBits => a && b
    case OrBits => a || b
    case XorBits => a != b
  }

  function Truth(b: bool): int {
    if b then 1 else 0
  }

  function Height(a: int): nat {
    if a >= 0 then a else -1 - a
  }

  /** Bit by bit in two's complement, however many bits there are. */
  function Bitwise(op: BitOp, a: int, b: int): int
    decreases Height(a) + Height(b)
  {
    if (a == 0 || a == -1) && (b == 0 || b == -1) then if OneBit(op, a == -1, b == -1) then -1 else 0
    else 2 * Bitwise(op, a / 2, b / 2) + if OneBit(op, a % 2 == 1, b % 2 == 1) then 1 else 0
  }

  /** The operators stay within any number of bits their operands fit in. */
  lemma {:induction false} BitwiseFits(op: BitOp, a: int, b: int, n: nat)
    requires -Pow2(n) <= a < Pow2(n) && -Pow2(n) <= b < Pow2(n)
    ensures -Pow2(n) <= Bitwise(op, a, b) < Pow2(n)
    ensures a >= 0 && b >= 0 ==> Bitwise(op, a, b) >= 0
    decreases n
  {
    if !((a == 0 || a == -1) && (b == 0 || b == -1)) {
      assert n > 0;
      BitwiseFits(op, a / 2, b / 2, n - 1);
    }
  }

  lemma {:induction false} MulAtLeast(p: int, q: int)
    requires p >= 1 && q >= 0
    ensures p * q >= q
    decreases q
  {
    if q > 0 {
      MulAtLeast(p, q - 1);
      assert p * q == p * (q - 1) + p;
    }
  }

  lemma {:induction false} DivideFits(i: int, p: int)
    requires p >= 1
    ensures i >= 0 ==> 0 <= i / p <= i
    ensures i < 0 ==> i <= i / p < 0
  {
    var q := i / p;
    DivideBounds(i, p, q, i % p);
  }

  lemma {:induction false} DivideBounds(i: int, p: int, q: int, m: int)
    requires p >= 1 && i == p * q + m && 0 <= m < p
    ensures i >= 0 ==> 0 <= q <= i
    ensures i < 0 ==> i <= q < 0
  {
    if q >= 0 {
      MulAtLeast(p, q);
    } else {
      MulAtLeast(-q, p);
      assert (-q) * p == -(p * q);
      MulAtLeast(p, -(q + 1));
      assert p * -(q + 1) == -(p * q) - p;
    }
  }

  /** Quotient and remainder are the only ones there are. */
  lemma {:induction false} DivideIs(x: int, p: int, q: int, m: int)
    requires p > 0 && x == p * q + m && 0 <= m < p
    ensures x / p == q && x % p == m
  {
    var d := x / p - q;
    assert x == p * (x / p) + x % p;
    assert p * d == m - x % p && (-d) * p == -(p * d);
    if d >= 1 {
      MulAtLeast(d, p);
    } else if d <= -1 {
      MulAtLeast(-d, p);
    }
  }

  lemma {:induction false} MultipleIs(x: int, p: int, q: int)
    requires p > 0
    ensures x == p * q ==> x % p == 0 && x / p == q
    ensures x % p == 0 ==> x == p * (x / p)
  {
    if x == p * q {
      DivideIs(x, p, q, 0);
    }
  }
}
