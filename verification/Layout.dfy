/** Sizes, alignments and member offsets. */
module Layout {
  import opened Wrappers
  import opened Integers

  /** `Prim` is any scalar by its size; `Enum` counts its enumerators; `Other` has no
      size (functions, `void` and the like). */
  datatype LType =
    | Prim(bytes: nat)
    | Enum(count: nat)
    | Array(of: LType, length: Option<nat>)
    | Struct(members: seq<LType>)
    | Union(members: seq<LType>)
    | Other

  const U64: int := TWO_TO_THE_64

  function Max(a: nat, b: nat): nat {
    if a >= b then a else b
  }

  function EnumSize(count: nat): Option<nat> {
    var n := (count + 7) / 8;
    if n <= 8 then Some(8)
    else if n <= 16 then Some(16)
    else if n <= 32 then Some(32)
    else if n <= 64 then Some(64)
    else None
  }

  function SizeOf(t: LType): Option<nat>
    decreases t, 1
  {
    match t
    case Prim(n) => Some(n)
    case Enum(count) => EnumSize(count)
    case Array(of, length) =>
      if SizeOf(of).None? || length.None? || SizeOf(of).value * length.value >= U64 then None
      else Some(SizeOf(of).value * length.value)
    case Struct(ms) => StructSize(ms)
    case Union(ms) => UnionSize(ms)
    case Other => None
  }

  function AlignOf(t: LType): Option<nat>
    decreases t, 1
  {
    match t
    case Prim(n) => Some(n)
    case Enum(count) => EnumSize(count)
    case Array(of, _) => AlignOf(of)
    case Struct(ms) => MembersAlign(ms)
    case Union(ms) => MembersAlign(ms)
    case Other => None
  }

  function MembersAlign(ms: seq<LType>): Option<nat>
    decreases ms, 0
  {
    if ms == [] then Some(0)
    else if AlignOf(ms[0]).None? || MembersAlign(ms[1..]).None? then None
    else Some(Max(AlignOf(ms[0]).value, MembersAlign(ms[1..]).value))
  }

  function UnionSize(ms: seq<LType>): Option<nat>
    decreases ms, 0
  {
    if ms == [] then Some(1)
    else if SizeOf(ms[0]).None? || UnionSize(ms[1..]).None? then None
    else Some(Max(SizeOf(ms[0]).value, UnionSize(ms[1..]).value))
  }

  /** Where `t` starts when what is before it ends at `current`. */
  function RoundUp(current: nat, align: nat): nat
    requires align > 0
  {
    if current % align != 0 then current + (align - current % align) else current
  }

  /** Where the member after `t` can start. */
  function NextOffset(current: nat, t: LType): Option<nat>
    decreases t, 2
  {
    if AlignOf(t).None? || AlignOf(t).value == 0 || SizeOf(t).None? then None
    else Some(RoundUp(current, AlignOf(t).value) + SizeOf(t).value)
  }

  /** The end of the members, laid out from `current`. */
  function MembersEnd(ms: seq<LType>, current: nat): Option<nat>
    decreases ms, 0
  {
    if ms == [] then Some(current)
    else if NextOffset(current, ms[0]).None? then None
    else MembersEnd(ms[1..], NextOffset(current, ms[0]).value)
  }

  /** Rounded up with a mask, as machines do. An empty struct has alignment 0, for which
      there is no mask. */
  function StructSize(ms: seq<LType>): Option<nat>
    decreases ms, 1
  {
    if MembersEnd(ms, 0).None? || MembersAlign(ms).None? || MembersAlign(ms).value == 0 then None
    else
      var mask := MembersAlign(ms).value - 1;
      var size := Bitwise(AndBits, MembersEnd(ms, 0).value + mask, -1 - mask);
      if size >= 0 then Some(size) else None
  }

  /** The offset of the `k`th member: the end of the members before it. */
  function Offset(ms: seq<LType>, k: nat): Option<nat>
    requires k < |ms|
  {
    MembersEnd(ms[..k], 0)
  }

  // ---------- which types ----------

  /** Scalars of 1, 2, 4 or 8 bytes, and no struct or union without members. */
  predicate Ordinary(t: LType)
    decreases t
  {
    match t
    case Prim(n) => n in {1, 2, 4, 8}
    case Array(of, _) => Ordinary(of)
    case Struct(ms) => ms != [] && forall i :: 0 <= i < |ms| ==> Ordinary(ms[i])
    case Union(ms) => ms != [] && forall i :: 0 <= i < |ms| ==> Ordinary(ms[i])
    case _ => true
  }

  predicate Divides(p: nat, x: nat) {
    p > 0 && x % p == 0
  }

  /** Some member is at least as large as every other, and `n` times its size, 1 if it is
      empty, is a multiple of every member's alignment. */
  predicate Rounded(ms: seq<LType>, n: nat) {
    && (forall k :: 0 <= k < |ms| ==> SizeOf(ms[k]).Some? && AlignOf(ms[k]).Some?)
    && exists i :: 0 <= i < |ms| && AtLeastAll(ms, SizeOf(ms[i]).value, n)
  }

  /** `size` is enough for every member, and `n` times as much fits every member's alignment. */
  predicate AtLeastAll(ms: seq<LType>, size: nat, n: nat)
    requires forall k :: 0 <= k < |ms| ==> SizeOf(ms[k]).Some? && AlignOf(ms[k]).Some?
  {
    forall k :: 0 <= k < |ms| ==> SizeOf(ms[k]).value <= size && Divides(AlignOf(ms[k]).value, Max(size, 1) * n)
  }

  /** If `n` times `t` comes down to copies of a union, that many need no rounding. What is
      inside a struct does not matter, since structs are rounded. */
  predicate Even(t: LType, n: nat)
    decreases t
  {
    match t
    case Array(of, length) => length.Some? && Even(of, length.value * n)
    case Union(ms) => Rounded(ms, n)
    case _ => true
  }

  // ---------- powers of two ----------

  ghost predicate IsPowerOfTwo(n: int) {
    exists k: nat :: n == Pow2(k)
  }

  lemma {:induction false} SmallPowers()
    ensures IsPowerOfTwo(1) && IsPowerOfTwo(2) && IsPowerOfTwo(4) && IsPowerOfTwo(8)
    ensures IsPowerOfTwo(16) && IsPowerOfTwo(32) && IsPowerOfTwo(64)
  {
    assert Pow2(0) == 1 && Pow2(1) == 2 && Pow2(2) == 4 && Pow2(3) == 8;
    assert Pow2(4) == 16 && Pow2(5) == 32 && Pow2(6) == 64;
  }

  lemma {:induction false} PowerDivides(a: nat, b: nat)
    requires a <= b
    ensures Pow2(b) % Pow2(a) == 0 && Pow2(a) <= Pow2(b)
    decreases b
  {
    if a < b {
      PowerDivides(a, b - 1);
      TwiceDivides(Pow2(b - 1), Pow2(a));
    }
  }

  lemma {:induction false} TwiceDivides(x: int, p: int)
    requires p > 0 && x % p == 0
    ensures (2 * x) % p == 0
  {
    MultipleIs(x, p, x / p);
    MultipleIs(2 * x, p, 2 * (x / p));
  }

  /** Every alignment is a power of two. */
  lemma {:induction false} AlignIsPowerOfTwo(t: LType)
    requires Ordinary(t) && AlignOf(t).Some?
    ensures AlignOf(t).value > 0 && IsPowerOfTwo(AlignOf(t).value)
    decreases t, 1
  {
    SmallPowers();
    match t
    case Array(of, _) => AlignIsPowerOfTwo(of);
    case Struct(ms) => MembersAlignIsPower(ms);
    case Union(ms) => MembersAlignIsPower(ms);
    case _ =>
  }

  lemma {:induction false} MembersAlignIsPower(ms: seq<LType>)
    requires ms != [] && (forall i :: 0 <= i < |ms| ==> Ordinary(ms[i])) && MembersAlign(ms).Some?
    ensures MembersAlign(ms).value > 0 && IsPowerOfTwo(MembersAlign(ms).value)
    decreases ms, 0
  {
    AlignIsPowerOfTwo(ms[0]);
    if |ms| > 1 {
      MembersAlignIsPower(ms[1..]);
    }
  }

  // ---------- the mask ----------

  lemma {:induction false} AllOnes(x: int)
    ensures Bitwise(AndBits, x, -1) == x
    decreases Height(x)
  {
    if x != 0 && x != -1 {
      AllOnes(x / 2);
    }
  }

  /** Clearing the low bits rounds down. */
  lemma {:induction false} MaskRoundsDown(x: int, k: nat)
    ensures Bitwise(AndBits, x, -Pow2(k)) == x / Pow2(k) * Pow2(k)
    decreases k
  {
    if k == 0 {
      AllOnes(x);
    } else {
      MaskRoundsDown(x / 2, k - 1);
      var p := Pow2(k - 1);
      HalfThenWhole(x, p);
      assert (-Pow2(k)) / 2 == -p && (-Pow2(k)) % 2 == 0;
      assert x / 2 / p * p * 2 == x / (2 * p) * (2 * p);
      if (x == 0 || x == -1) && -Pow2(k) == -1 {
        assert false;
      }
    }
  }

  lemma {:induction false} HalfThenWhole(x: int, p: int)
    requires p > 0
    ensures x / 2 / p == x / (2 * p)
  {
    var q := x / 2 / p;
    var r := x / 2 % p;
    assert x == 2 * (x / 2) + x % 2;
    assert x / 2 == p * q + r;
    assert x == (2 * p) * q + (2 * r + x % 2);
    DivideIs(x, 2 * p, q, 2 * r + x % 2);
  }

  /** The mask in a struct's size rounds up exactly. */
  lemma {:induction false} MaskRoundsUp(x: nat, align: nat)
    requires align > 0 && IsPowerOfTwo(align)
    ensures Bitwise(AndBits, x + (align - 1), -1 - (align - 1)) == RoundUp(x, align)
  {
    hide Bitwise, RoundUp, Pow2;
    var k: nat :| align == Pow2(k);
    MaskRoundsDown(x + align - 1, k);
    RoundUpDivides(x, align, x / align, x % align);
  }

  lemma {:induction false} RoundUpDivides(x: nat, align: nat, q: int, m: int)
    requires align > 0 && x == align * q + m && 0 <= m < align && m == x % align
    ensures (x + align - 1) / align * align == RoundUp(x, align)
  {
    if m == 0 {
      DivideIs(x + align - 1, align, q, align - 1);
      assert q * align == align * q;
    } else {
      assert align * (q + 1) == align * q + align;
      DivideIs(x + align - 1, align, q + 1, m - 1);
      assert (q + 1) * align == align * (q + 1);
    }
  }

  lemma {:induction false} RoundUpIsMultiple(x: nat, align: nat)
    requires align > 0
    ensures RoundUp(x, align) % align == 0 && x <= RoundUp(x, align) < x + align
    ensures RoundUp(x, align) == x <==> x % align == 0
  {
    var q, m := x / align, x % align;
    assert x == align * q + m;
    if m != 0 {
      assert RoundUp(x, align) == align * (q + 1) by { assert align * (q + 1) == align * q + align; }
      MultipleIs(RoundUp(x, align), align, q + 1);
    }
  }

  // ---------- sizes ----------

  /** A struct's size is its members' end rounded up to a multiple of its alignment. */
  lemma {:induction false} StructSizeRounds(ms: seq<LType>)
    requires ms != [] && (forall i :: 0 <= i < |ms| ==> Ordinary(ms[i]))
    ensures StructSize(ms).Some? <==> MembersEnd(ms, 0).Some? && MembersAlign(ms).Some?
    ensures StructSize(ms).Some? ==>
              var end, align := MembersEnd(ms, 0).value, MembersAlign(ms).value;
              && align > 0 && StructSize(ms).value == RoundUp(end, align)
              && StructSize(ms).value % align == 0 && end <= StructSize(ms).value < end + align
  {
    hide MembersEnd, MembersAlign, Bitwise, RoundUp;
    if MembersEnd(ms, 0).Some? && MembersAlign(ms).Some? {
      MembersAlignIsPower(ms);
      MaskRoundsUp(MembersEnd(ms, 0).value, MembersAlign(ms).value);
      RoundUpIsMultiple(MembersEnd(ms, 0).value, MembersAlign(ms).value);
    }
  }

  /** The size of a type is a multiple of its alignment exactly when no union that needs
      rounding decides it, counted as often as the arrays around it have it. */
  lemma {:induction false} SizeIsMultipleOfAlign(t: LType)
    requires Ordinary(t) && SizeOf(t).Some? && AlignOf(t).Some?
    ensures Divides(AlignOf(t).value, SizeOf(t).value) <==> Even(t, 1)
  {
    CopiesAreMultiple(t, 1);
  }

  lemma {:induction false} CopiesAreMultiple(t: LType, n: nat)
    requires Ordinary(t) && SizeOf(t).Some? && AlignOf(t).Some?
    ensures Divides(AlignOf(t).value, SizeOf(t).value * n) <==> Even(t, n)
    decreases t
  {
    hide MembersAlign, UnionSize, StructSize, Rounded;
    AlignIsPowerOfTwo(t);
    match t
    case Array(of, length) =>
      CopiesAreMultiple(of, length.value * n);
      assert SizeOf(t).value * n == SizeOf(of).value * (length.value * n);
    case Struct(ms) =>
      StructSizeRounds(ms);
      TimesDivides(SizeOf(t).value, AlignOf(t).value, n);
    case Union(ms) => UnionIsMultiple(ms, n);
    case Prim(bytes) => TimesDivides(bytes, bytes, n);
    case Enum(_) => TimesDivides(SizeOf(t).value, SizeOf(t).value, n);
    case Other =>
  }

  /** When the size of a union, or of `n` copies, is a multiple of its alignment: both are
      the largest among its members, and they need not be the same member's. */
  lemma {:induction false} UnionIsMultiple(ms: seq<LType>, n: nat)
    requires ms != [] && (forall i :: 0 <= i < |ms| ==> Ordinary(ms[i])) && UnionSize(ms).Some? && MembersAlign(ms).Some?
    ensures Divides(MembersAlign(ms).value, UnionSize(ms).value * n) <==> Rounded(ms, n)
  {
    hide MembersAlign, UnionSize, SizeOf, AlignOf, Ordinary;
    var i := Largest(ms);
    AllAligned(ms, UnionSize(ms).value * n);
    if Rounded(ms, n) {
      var j :| 0 <= j < |ms| && AtLeastAll(ms, SizeOf(ms[j]).value, n);
      assert SizeOf(ms[j]).value == SizeOf(ms[i]).value;
    } else {
      assert !AtLeastAll(ms, SizeOf(ms[i]).value, n);
    }
  }

  lemma {:induction false} Largest(ms: seq<LType>) returns (i: nat)
    requires ms != [] && UnionSize(ms).Some?
    ensures i < |ms| && forall k :: 0 <= k < |ms| ==> SizeOf(ms[k]).Some?
    ensures UnionSize(ms).value == Max(SizeOf(ms[i]).value, 1)
    ensures forall k :: 0 <= k < |ms| ==> SizeOf(ms[k]).value <= SizeOf(ms[i]).value
    decreases |ms|
  {
    hide SizeOf;
    i := 0;
    if |ms| > 1 {
      var j := Largest(ms[1..]);
      assert forall k :: 0 < k < |ms| ==> ms[k] == ms[1..][k - 1];
      if SizeOf(ms[0]).value < SizeOf(ms[j + 1]).value {
        i := j + 1;
      }
    } else {
      assert UnionSize(ms[1..]) == Some(1);
    }
  }

  /** What the largest alignment divides, every alignment divides. */
  lemma {:induction false} AllAligned(ms: seq<LType>, x: nat)
    requires ms != [] && (forall i :: 0 <= i < |ms| ==> Ordinary(ms[i])) && MembersAlign(ms).Some?
    ensures forall k :: 0 <= k < |ms| ==> AlignOf(ms[k]).Some?
    ensures Divides(MembersAlign(ms).value, x) <==> forall k :: 0 <= k < |ms| ==> Divides(AlignOf(ms[k]).value, x)
    decreases |ms|
  {
    hide AlignOf, Ordinary;
    AlignIsPowerOfTwo(ms[0]);
    if |ms| == 1 {
      assert MembersAlign(ms[1..]) == Some(0);
    } else {
      AllAligned(ms[1..], x);
      MembersAlignIsPower(ms[1..]);
      LargerPower(AlignOf(ms[0]).value, MembersAlign(ms[1..]).value, x);
      assert forall k :: 0 < k < |ms| ==> ms[k] == ms[1..][k - 1];
      var rest := ms[1..];
      assert forall k :: 0 <= k < |rest| ==> rest[k] == ms[k + 1];
    }
  }

  lemma {:induction false} LargerPower(a: nat, b: nat, x: nat)
    requires IsPowerOfTwo(a) && IsPowerOfTwo(b) && a > 0 && b > 0
    ensures Divides(Max(a, b), x) <==> Divides(a, x) && Divides(b, x)
  {
    var i: nat :| a == Pow2(i);
    var j: nat :| b == Pow2(j);
    if i <= j {
      PowerDivides(i, j);
      DividesOn(a, b, x);
    } else {
      PowerDivides(j, i);
      DividesOn(b, a, x);
    }
  }

  lemma {:induction false} DividesOn(a: nat, b: nat, x: nat)
    requires Divides(a, b) && b > 0
    ensures Divides(b, x) ==> Divides(a, x)
  {
    if Divides(b, x) {
      TimesDivides(b, a, x / b);
      assert x == b * (x / b);
    }
  }

  lemma {:induction false} TimesDivides(x: int, p: int, n: int)
    requires p > 0 && x % p == 0
    ensures (x * n) % p == 0
  {
    MultipleIs(x, p, x / p);
    assert x * n == p * (x / p * n);
    MultipleIs(x * n, p, x / p * n);
  }

  /** With a union it need not be: the size is not rounded up. */
  lemma {:induction false} UnionSizeIsNotRounded()
    ensures var u := Union([Prim(4), Array(Prim(1), Some(5))]);
            Ordinary(u) && SizeOf(u) == Some(5) && AlignOf(u) == Some(4)
  {
    var a := Array(Prim(1), Some(5));
    var ms := [Prim(4), a];
    assert ms[1..] == [a] && [a][1..] == [];
    assert SizeOf(a) == Some(5) && AlignOf(a) == Some(1);
    assert UnionSize([a]) == Some(5) && MembersAlign([a]) == Some(1);
  }

  // ---------- offsets ----------

  lemma {:induction false} EndSplits(ms: seq<LType>, k: nat, current: nat)
    requires k <= |ms| && MembersEnd(ms, current).Some?
    ensures MembersEnd(ms[..k], current).Some?
    ensures MembersEnd(ms, current) == MembersEnd(ms[k..], MembersEnd(ms[..k], current).value)
    decreases k
  {
    if k == 0 {
      assert ms[..0] == [] && ms[0..] == ms;
    } else {
      EndSplits(ms[1..], k - 1, NextOffset(current, ms[0]).value);
      assert ms[..k][1..] == ms[1..][..k - 1] && ms[1..][k - 1..] == ms[k..];
    }
  }

  lemma {:induction false} EndGrows(ms: seq<LType>, current: nat)
    requires MembersEnd(ms, current).Some?
    ensures current <= MembersEnd(ms, current).value
    decreases |ms|
  {
    if ms != [] {
      RoundUpIsMultiple(current, AlignOf(ms[0]).value);
      EndGrows(ms[1..], NextOffset(current, ms[0]).value);
    }
  }

  /** The member after the `k`th starts no earlier than the `k`th ends, and the end of
      all of them is inside the struct. */
  lemma {:induction false} MemberEnds(ms: seq<LType>, k: nat, next: nat)
    requires k < next <= |ms| && MembersEnd(ms, 0).Some?
    ensures Offset(ms, k).Some? && SizeOf(ms[k]).Some? && MembersEnd(ms[..next], 0).Some?
    ensures Offset(ms, k).value + SizeOf(ms[k]).value <= MembersEnd(ms[..next], 0).value
  {
    EndSplits(ms, next, 0);
    EndSplits(ms[..next], k, 0);
    assert ms[..next][..k] == ms[..k] && ms[..next][k..][0] == ms[k];
    var here := MembersEnd(ms[..k], 0).value;
    var tail := ms[..next][k..];
    RoundUpIsMultiple(here, AlignOf(ms[k]).value);
    EndGrows(tail[1..], NextOffset(here, ms[k]).value);
  }

  /** Members lie one after the other, without overlapping, inside the struct. */
  lemma {:induction false} OffsetsDoNotOverlap(ms: seq<LType>, i: nat, j: nat)
    requires (forall k :: 0 <= k < |ms| ==> Ordinary(ms[k])) && StructSize(ms).Some? && i < j < |ms|
    ensures Offset(ms, i).Some? && Offset(ms, j).Some? && SizeOf(ms[i]).Some? && SizeOf(ms[j]).Some?
    ensures Offset(ms, i).value + SizeOf(ms[i]).value <= Offset(ms, j).value
    ensures Offset(ms, j).value + SizeOf(ms[j]).value <= StructSize(ms).value
  {
    MemberEnds(ms, i, j);
    MemberEnds(ms, j, |ms|);
    assert ms[..|ms|] == ms;
    StructSizeRounds(ms);
  }

  /** Where the computation of the size puts a member. */
  function Place(ms: seq<LType>, k: nat): Option<nat>
    requires k < |ms|
  {
    if Offset(ms, k).None? || AlignOf(ms[k]).None? || AlignOf(ms[k]).value == 0 then None
    else Some(RoundUp(Offset(ms, k).value, AlignOf(ms[k]).value))
  }

  /** Every place is aligned and has room for the member; the offset is the place exactly
      when no padding is needed in front of it. */
  lemma {:induction false} OffsetIsPlace(ms: seq<LType>, k: nat)
    requires k < |ms| && MembersEnd(ms, 0).Some?
    ensures Place(ms, k).Some? && Offset(ms, k).Some? && SizeOf(ms[k]).Some?
    ensures Place(ms, k).value % AlignOf(ms[k]).value == 0
    ensures MembersEnd(ms[..k + 1], 0) == Some(Place(ms, k).value + SizeOf(ms[k]).value)
    ensures Place(ms, k).value + SizeOf(ms[k]).value <= MembersEnd(ms, 0).value
    ensures Offset(ms, k) == Place(ms, k) <==> Offset(ms, k).value % AlignOf(ms[k]).value == 0
  {
    MemberEnds(ms, k, k + 1);
    EndSplits(ms, k + 1, 0);
    EndGrows(ms[k + 1..], MembersEnd(ms[..k + 1], 0).value);
    EndSplits(ms[..k + 1], k, 0);
    assert ms[..k + 1][..k] == ms[..k] && ms[..k + 1][k..] == [ms[k]];
    assert [ms[k]][1..] == [];
    RoundUpIsMultiple(Offset(ms, k).value, AlignOf(ms[k]).value);
  }

  /** `offset` stops before the padding of the member itself: in a `char` followed by an
      `int` the `int` is said to be at 1, although its place is at 4. */
  lemma {:induction false} OffsetBeforePadding()
    ensures var ms := [Prim(1), Prim(4)];
            SizeOf(Struct(ms)) == Some(8) && Offset(ms, 1) == Some(1) && Place(ms, 1) == Some(4)
  {
    var ms := [Prim(1), Prim(4)];
    assert ms[1..] == [Prim(4)] && [Prim(4)][1..] == [] && ms[..1] == [Prim(1)] && [Prim(1)][1..] == [];
    assert NextOffset(0, Prim(1)) == Some(1) && NextOffset(1, Prim(4)) == Some(8);
    assert MembersEnd([Prim(4)], 1) == Some(8) && MembersAlign([Prim(4)]) == Some(4);
    assert MembersEnd(ms, 0) == Some(8) && MembersAlign(ms) == Some(4);
    StructSizeRounds(ms);
  }
}
