/** The bytes of an initialized object: where each scalar is written. */
module StaticInit {
  import opened Wrappers
  import opened Integers
  import opened Layout
  import Initializers

  type Tree = Initializers.Tree

  /** The initializer has the shape the analyzer gives it for `t`: one scalar where a
      scalar is, in braces or not, and no more elements than there is room for. */
  predicate Matches(tree: Tree, t: LType)
    decreases tree
  {
    match t
    case Array(of, length) =>
      tree.Node? && length.Some? && |tree.elems| <= length.value && !(of.Array? && of.length.None?) &&
      forall i :: 0 <= i < |tree.elems| ==> Matches(tree.elems[i], of)
    case Struct(ms) =>
      tree.Node? && |tree.elems| <= |ms| && forall i :: 0 <= i < |tree.elems| ==> Matches(tree.elems[i], ms[i])
    case Union(_) => false
    case Other => false
    case _ => tree.Leaf? || (|tree.elems| == 1 && Matches(tree.elems[0], t))
  }

  /** A scalar's expression, the first byte it is written to, and how many there are. */
  datatype Slot = Slot(e: nat, at: nat, len: nat)

  /** What each scalar of an initializer at `at` is written to. The members of a struct
      follow one another without padding. */
  function Slots(tree: Tree, t: LType, at: nat): seq<Slot>
    requires Matches(tree, t) && SizeOf(t).Some?
    decreases tree, 1
  {
    if t.Array? then ElementSlots(tree.elems, t.of, at)
    else if t.Struct? then
      MemberSizes(t.members);
      StructSlots(tree.elems, t.members, at)
    else if tree.Leaf? then [Slot(tree.e, at, SizeOf(t).value)]
    else Slots(tree.elems[0], t, at)
  }

  function ElementSlots(elems: seq<Tree>, of: LType, at: nat): seq<Slot>
    requires SizeOf(of).Some? && forall i :: 0 <= i < |elems| ==> Matches(elems[i], of)
    decreases elems, 0
  {
    if elems == [] then [] else Slots(elems[0], of, at) + ElementSlots(elems[1..], of, at + SizeOf(of).value)
  }

  function StructSlots(elems: seq<Tree>, ms: seq<LType>, at: nat): seq<Slot>
    requires |elems| <= |ms| && (forall i :: 0 <= i < |ms| ==> SizeOf(ms[i]).Some?)
    requires forall i :: 0 <= i < |elems| ==> Matches(elems[i], ms[i])
    decreases elems, 0
  {
    if elems == [] then []
    else Slots(elems[0], ms[0], at) + StructSlots(elems[1..], ms[1..], at + SizeOf(ms[0]).value)
  }

  /** The members of a struct that has a size have sizes. */
  lemma {:induction false} MemberSizes(ms: seq<LType>)
    requires StructSize(ms).Some?
    ensures forall i :: 0 <= i < |ms| ==> SizeOf(ms[i]).Some?
  {
    EndSizes(ms, 0);
  }

  lemma {:induction false} EndSizes(ms: seq<LType>, current: nat)
    requires MembersEnd(ms, current).Some?
    ensures forall i :: 0 <= i < |ms| ==> SizeOf(ms[i]).Some?
    decreases |ms|
  {
    if ms != [] {
      EndSizes(ms[1..], NextOffset(current, ms[0]).value);
      assert forall i :: 1 <= i < |ms| ==> ms[i] == ms[1..][i - 1];
    }
  }

  /** The members' sizes added up, without padding. */
  function Sum(ms: seq<LType>): nat
    requires forall i :: 0 <= i < |ms| ==> SizeOf(ms[i]).Some?
  {
    if ms == [] then 0 else SizeOf(ms[0]).value + Sum(ms[1..])
  }

  // ---------- in bounds and in order ----------

  /** The slots lie in `[lo, hi)`, one after the other. */
  predicate InOrder(slots: seq<Slot>, lo: nat, hi: nat) {
    if slots == [] then lo <= hi
    else lo <= slots[0].at && InOrder(slots[1..], slots[0].at + slots[0].len, hi)
  }

  lemma {:induction false} InOrderAppend(a: seq<Slot>, b: seq<Slot>, lo: nat, mid: nat, hi: nat)
    requires InOrder(a, lo, mid) && InOrder(b, mid, hi)
    ensures InOrder(a + b, lo, hi)
    decreases |a|
  {
    if a == [] {
      InOrderLower(b, lo, mid, hi);
      assert a + b == b;
    } else {
      assert (a + b)[1..] == a[1..] + b;
      InOrderAppend(a[1..], b, a[0].at + a[0].len, mid, hi);
    }
  }

  lemma {:induction false} InOrderLower(b: seq<Slot>, lo: nat, mid: nat, hi: nat)
    requires lo <= mid && InOrder(b, mid, hi)
    ensures InOrder(b, lo, hi)
  {}

  lemma {:induction false} InOrderHigher(b: seq<Slot>, lo: nat, mid: nat, hi: nat)
    requires InOrder(b, lo, mid) && mid <= hi
    ensures InOrder(b, lo, hi)
    decreases |b|
  {
    if b != [] {
      InOrderHigher(b[1..], b[0].at + b[0].len, mid, hi);
    }
  }

  lemma {:induction false} NothingInOrder(at: nat)
    ensures InOrder([], at, at)
  {}

  /** Every scalar is written inside the object, and no two overlap. */
  lemma {:induction false} SlotsInOrder(tree: Tree, t: LType, at: nat)
    requires Matches(tree, t) && SizeOf(t).Some? && Ordinary(t)
    ensures InOrder(Slots(tree, t, at), at, at + SizeOf(t).value)
    decreases tree, 1
  {
    hide MembersEnd, MembersAlign, StructSize, ElementSlots, StructSlots, Sum;
    if t.Array? {
      var n := SizeOf(t.of).value;
      ElementsInOrder(tree.elems, t.of, at);
      MoreIsMore(n, |tree.elems|, t.length.value);
      InOrderHigher(Slots(tree, t, at), at, at + n * |tree.elems|, at + SizeOf(t).value);
    } else if t.Struct? {
      MemberSizes(t.members);
      StructInOrder(tree.elems, t.members, at);
      StructSizeRounds(t.members);
      SumFits(t.members, 0);
      InOrderHigher(Slots(tree, t, at), at, at + Sum(t.members), at + SizeOf(t).value);
    } else if tree.Node? {
      SlotsInOrder(tree.elems[0], t, at);
    }
  }

  lemma {:induction false} MoreIsMore(n: nat, a: nat, b: nat)
    requires a <= b
    ensures n * a <= n * b
  {
    assert n * b == n * a + n * (b - a);
  }

  lemma {:induction false} ElementsInOrder(elems: seq<Tree>, of: LType, at: nat)
    requires SizeOf(of).Some? && Ordinary(of) && forall i :: 0 <= i < |elems| ==> Matches(elems[i], of)
    ensures InOrder(ElementSlots(elems, of, at), at, at + SizeOf(of).value * |elems|)
    decreases elems, 0
  {
    hide Slots, InOrder, SizeOf, Ordinary;
    if elems == [] {
      NothingInOrder(at);
    } else {
      var n := SizeOf(of).value;
      var all := n * |elems|;
      SlotsInOrder(elems[0], of, at);
      ElementsInOrder(elems[1..], of, at + n);
      assert all == n + n * |elems[1..]| by { OneMore(n, |elems[1..]|); }
      InOrderAppend(Slots(elems[0], of, at), ElementSlots(elems[1..], of, at + n), at, at + n, at + all);
    }
  }

  lemma {:induction false} OneMore(n: nat, m: nat)
    ensures n * (m + 1) == n + n * m
  {}

  lemma {:induction false} StructInOrder(elems: seq<Tree>, ms: seq<LType>, at: nat)
    requires |elems| <= |ms| && (forall i :: 0 <= i < |ms| ==> SizeOf(ms[i]).Some? && Ordinary(ms[i]))
    requires forall i :: 0 <= i < |elems| ==> Matches(elems[i], ms[i])
    ensures InOrder(StructSlots(elems, ms, at), at, at + Sum(ms))
    decreases elems, 0
  {
    if elems != [] {
      var n := SizeOf(ms[0]).value;
      SlotsInOrder(elems[0], ms[0], at);
      StructInOrder(elems[1..], ms[1..], at + n);
      InOrderAppend(Slots(elems[0], ms[0], at), StructSlots(elems[1..], ms[1..], at + n), at, at + n, at + Sum(ms));
    }
  }

  /** Padding only adds. */
  lemma {:induction false} SumFits(ms: seq<LType>, current: nat)
    requires MembersEnd(ms, current).Some? && forall i :: 0 <= i < |ms| ==> SizeOf(ms[i]).Some?
    ensures current + Sum(ms) <= MembersEnd(ms, current).value
    decreases |ms|
  {
    if ms != [] {
      RoundUpIsMultiple(current, AlignOf(ms[0]).value);
      SumFits(ms[1..], NextOffset(current, ms[0]).value);
    }
  }

  lemma {:induction false} Regroup(a: seq<Slot>, b: seq<Slot>, c: seq<Slot>, d: seq<Slot>)
    ensures a + (b + c + d) == a + b + c + d
  {}

  lemma {:induction false} SumFirst(ms: seq<LType>, k: nat)
    requires k <= |ms| && forall i :: 0 <= i < |ms| ==> SizeOf(ms[i]).Some?
    ensures Sum(ms[..k]) == if k == 0 then 0 else SizeOf(ms[0]).value + Sum(ms[1..][..k - 1])
  {
    if k > 0 {
      assert ms[..k][1..] == ms[1..][..k - 1];
    }
  }

  // ---------- agreement with member offsets ----------

  /** The initializer of member `k` is written from `at` plus the sizes before it on. */
  lemma {:induction false} MemberSlots(elems: seq<Tree>, ms: seq<LType>, at: nat, k: nat)
    requires |elems| <= |ms| && (forall i :: 0 <= i < |ms| ==> SizeOf(ms[i]).Some?) && k < |elems|
    requires forall i :: 0 <= i < |elems| ==> Matches(elems[i], ms[i])
    ensures StructSlots(elems, ms, at) ==
            StructSlots(elems[..k], ms[..k], at) + Slots(elems[k], ms[k], at + Sum(ms[..k])) +
            StructSlots(elems[k + 1..], ms[k + 1..], at + Sum(ms[..k]) + SizeOf(ms[k]).value)
    decreases k
  {
    hide Slots, ElementSlots, Matches, SizeOf, Sum;
    SumFirst(ms, k);
    if k == 0 {
      assert ms[..0] == [] && elems[..0] == [];
    } else {
      var n := SizeOf(ms[0]).value;
      MemberSlots(elems[1..], ms[1..], at + n, k - 1);
      assert elems[..k][1..] == elems[1..][..k - 1] && ms[..k][1..] == ms[1..][..k - 1];
      assert elems[1..][k..] == elems[k + 1..] && ms[1..][k..] == ms[k + 1..];
      Regroup(Slots(elems[0], ms[0], at), StructSlots(elems[..k][1..], ms[..k][1..], at + n),
              Slots(elems[k], ms[k], at + Sum(ms[..k])),
              StructSlots(elems[k + 1..], ms[k + 1..], at + Sum(ms[..k]) + SizeOf(ms[k]).value));
    }
  }

  /** No member before the `k`th needs padding in front of it. */
  predicate Unpadded(ms: seq<LType>, k: nat)
    requires k <= |ms|
  {
    forall j :: 0 <= j < k ==> Offset(ms, j).Some? && AlignOf(ms[j]).Some? && AlignOf(ms[j]).value > 0 &&
                               Offset(ms, j).value % AlignOf(ms[j]).value == 0
  }

  /** The bytes of a member are where its offset says exactly when no member before it
      needs padding. */
  lemma {:induction false} SlotsAtOffset(ms: seq<LType>, k: nat)
    requires k < |ms| && MembersEnd(ms, 0).Some? && forall i :: 0 <= i < |ms| ==> SizeOf(ms[i]).Some?
    ensures Offset(ms, k).Some? && Sum(ms[..k]) <= Offset(ms, k).value
    ensures Offset(ms, k) == Some(Sum(ms[..k])) <==> Unpadded(ms, k)
    decreases k
  {
    EndSplits(ms, k, 0);
    SumFits(ms[..k], 0);
    if k == 0 {
      assert ms[..0] == [];
    } else {
      SlotsAtOffset(ms, k - 1);
      OffsetIsPlace(ms, k - 1);
      SumLast(ms[..k]);
      assert ms[..k][..k - 1] == ms[..k - 1] && ms[..k][k - 1] == ms[k - 1];
      assert MembersEnd(ms[..k], 0) == Some(Place(ms, k - 1).value + SizeOf(ms[k - 1]).value);
      RoundUpIsMultiple(Offset(ms, k - 1).value, AlignOf(ms[k - 1]).value);
      assert Unpadded(ms, k) <==> Unpadded(ms, k - 1) && Offset(ms, k - 1).value % AlignOf(ms[k - 1]).value == 0;
    }
  }

  lemma {:induction false} SumLast(ms: seq<LType>)
    requires ms != [] && forall i :: 0 <= i < |ms| ==> SizeOf(ms[i]).Some?
    ensures Sum(ms) == Sum(ms[..|ms| - 1]) + SizeOf(ms[|ms| - 1]).value
    decreases |ms|
  {
    if |ms| > 1 {
      SumLast(ms[1..]);
      assert ms[1..][..|ms| - 2] == ms[..|ms| - 1][1..];
    } else {
      assert ms[1..] == [] && ms[..0] == [];
    }
  }

  /** In a `char`, an `int` and a `char` the last one is written to byte 5 and read from
      byte 8. */
  lemma {:induction false} WrittenElsewhere(x: nat, y: nat, z: nat)
    ensures var ms := [Prim(1), Prim(4), Prim(1)];
            var tree := Initializers.Node([Initializers.Leaf(x), Initializers.Leaf(y), Initializers.Leaf(z)]);
            && SizeOf(Struct(ms)).Some? && Matches(tree, Struct(ms)) && Offset(ms, 2) == Some(8)
            && Slots(tree, Struct(ms), 0) == [Slot(x, 0, 1), Slot(y, 1, 4), Slot(z, 5, 1)]
  {
    hide StructSize;
    var ms := [Prim(1), Prim(4), Prim(1)];
    ThreeMembers();
    var elems := [Initializers.Leaf(x), Initializers.Leaf(y), Initializers.Leaf(z)];
    assert elems[1..] == [Initializers.Leaf(y), Initializers.Leaf(z)];
    assert elems[1..][1..] == [Initializers.Leaf(z)] && elems[1..][1..][1..] == [];
    assert ms[1..] == [Prim(4), Prim(1)] && ms[1..][1..] == [Prim(1)];
    assert StructSlots(elems[1..][1..], ms[1..][1..], 5) == [Slot(z, 5, 1)];
    assert Slots(elems[1], Prim(4), 1) == [Slot(y, 1, 4)] && Slots(elems[0], Prim(1), 0) == [Slot(x, 0, 1)];
    assert StructSlots(elems[1..], ms[1..], 1) == Slots(elems[1], Prim(4), 1) + StructSlots(elems[1..][1..], ms[1..][1..], 5);
    assert StructSlots(elems[1..], ms[1..], 1) == [Slot(y, 1, 4)] + [Slot(z, 5, 1)];
    MemberSizes(ms);
    assert StructSlots(elems, ms, 0) == [Slot(x, 0, 1)] + StructSlots(elems[1..], ms[1..], 1);
    assert Matches(Initializers.Node(elems), Struct(ms));
    assert Slots(Initializers.Node(elems), Struct(ms), 0) == StructSlots(elems, ms, 0);
  }

  lemma {:induction false} ThreeMembers()
    ensures var ms := [Prim(1), Prim(4), Prim(1)]; SizeOf(Struct(ms)).Some? && Offset(ms, 2) == Some(8)
  {
    var ms := [Prim(1), Prim(4), Prim(1)];
    assert ms[1..] == [Prim(4), Prim(1)] && ms[1..][1..] == [Prim(1)] && ms[1..][1..][1..] == [];
    assert ms[..2] == [Prim(1), Prim(4)] && ms[..2][1..] == [Prim(4)] && [Prim(4)][1..] == [];
    assert NextOffset(0, Prim(1)) == Some(1) && NextOffset(1, Prim(4)) == Some(8) && NextOffset(8, Prim(1)) == Some(9);
    assert MembersEnd([Prim(4)], 1) == Some(8);
    assert MembersEnd([Prim(1)], 8) == Some(9) && MembersEnd(ms[1..], 1) == Some(9);
    assert MembersAlign([Prim(1)]) == Some(1) && MembersAlign(ms[1..]) == Some(4);
    StructSizeRounds(ms);
  }

  // ---------- writing ----------

  /** The buffer after the bytes of every slot have been written. An expression is a
      constant with bytes, or an address, which is left to the linker. */
  function Stamped(content: seq<int>, slots: seq<Slot>, bytes: nat -> Option<seq<int>>): seq<int>
    decreases |slots|
  {
    if slots == [] then content else Stamped(Stamp(content, slots[0], bytes), slots[1..], bytes)
  }

  function Stamp(content: seq<int>, s: Slot, bytes: nat -> Option<seq<int>>): (r: seq<int>)
    ensures |r| == |content|
  {
    match bytes(s.e)
    case None => content
    case Some(bs) =>
      seq(|content|, i requires 0 <= i < |content| =>
        if s.at <= i < s.at + s.len && i - s.at < |bs| then bs[i - s.at] else content[i])
  }

  lemma {:induction false} StampedAppend(content: seq<int>, a: seq<Slot>, b: seq<Slot>, bytes: nat -> Option<seq<int>>)
    ensures Stamped(content, a + b, bytes) == Stamped(Stamped(content, a, bytes), b, bytes)
    decreases |a|
  {
    if a == [] {
      assert a + b == b;
    } else {
      assert (a + b)[1..] == a[1..] + b;
      StampedAppend(Stamp(content, a[0], bytes), a[1..], b, bytes);
    }
  }

  lemma {:induction false} StampedOutside(content: seq<int>, slots: seq<Slot>, bytes: nat -> Option<seq<int>>, lo: nat, hi: nat)
    requires InOrder(slots, lo, hi)
    ensures |Stamped(content, slots, bytes)| == |content|
    ensures forall i :: 0 <= i < |content| && !(lo <= i < hi) ==> Stamped(content, slots, bytes)[i] == content[i]
    decreases |slots|
  {
    if slots != [] {
      var s := slots[0];
      StampedOutside(Stamp(content, s, bytes), slots[1..], bytes, s.at + s.len, hi);
      EndOfOrder(slots[1..], s.at + s.len, hi);
    }
  }

  lemma {:induction false} EndOfOrder(slots: seq<Slot>, lo: nat, hi: nat)
    requires InOrder(slots, lo, hi)
    ensures lo <= hi
    decreases |slots|
  {
    if slots != [] {
      EndOfOrder(slots[1..], slots[0].at + slots[0].len, hi);
    }
  }

  lemma {:induction false} StampReadsBack(content: seq<int>, s: Slot, bytes: nat -> Option<seq<int>>)
    requires s.at + s.len <= |content| && (bytes(s.e).Some? ==> |bytes(s.e).value| == s.len)
    ensures Stamp(content, s, bytes)[s.at..s.at + s.len] ==
            if bytes(s.e).Some? then bytes(s.e).value else content[s.at..s.at + s.len]
  {}

  /** Each constant reads back as it was written, and the bytes of an address are as before. */
  lemma {:induction false} StampedReadsBack(content: seq<int>, slots: seq<Slot>, bytes: nat -> Option<seq<int>>,
                                            lo: nat, hi: nat, k: nat)
    requires InOrder(slots, lo, hi) && hi <= |content| && k < |slots|
    requires bytes(slots[k].e).Some? ==> |bytes(slots[k].e).value| == slots[k].len
    ensures var r := Stamped(content, slots, bytes); var s := slots[k];
            && |r| == |content| && s.at + s.len <= hi
            && r[s.at..s.at + s.len] == if bytes(s.e).Some? then bytes(s.e).value else content[s.at..s.at + s.len]
    decreases |slots|
  {
    hide Stamp;
    var s := slots[0];
    var after := Stamp(content, s, bytes);
    StampedOutside(after, slots[1..], bytes, s.at + s.len, hi);
    EndOfOrder(slots[1..], s.at + s.len, hi);
    if k == 0 {
      StampReadsBack(content, s, bytes);
      assert Stamped(content, slots, bytes)[s.at..s.at + s.len] == after[s.at..s.at + s.len];
    } else {
      StampedReadsBack(after, slots[1..], bytes, s.at + s.len, hi, k - 1);
      var t := slots[k];
      LaterSlot(slots, lo, hi, k);
      StampBefore(content, s, bytes, t.at);
      assert after[t.at..t.at + t.len] == content[t.at..t.at + t.len];
    }
  }

  lemma {:induction false} LaterSlot(slots: seq<Slot>, lo: nat, hi: nat, k: nat)
    requires InOrder(slots, lo, hi) && 0 < k < |slots|
    ensures slots[0].at + slots[0].len <= slots[k].at && slots[k].at + slots[k].len <= hi
    decreases |slots|
  {
    var s := slots[0];
    if k > 1 {
      LaterSlot(slots[1..], s.at + s.len, hi, k - 1);
    } else {
      EndOfOrder(slots[1..][1..], slots[1].at + slots[1].len, hi);
    }
  }

  lemma {:induction false} StampBefore(content: seq<int>, s: Slot, bytes: nat -> Option<seq<int>>, from: nat)
    requires s.at + s.len <= from
    ensures forall i :: from <= i < |content| ==> Stamp(content, s, bytes)[i] == content[i]
  {}

  lemma {:induction false} NoElements(of: LType, at: nat)
    requires SizeOf(of).Some?
    ensures ElementSlots([], of, at) == []
  {}

  lemma {:induction false} NextElement(elems: seq<Tree>, of: LType, at: nat, i: nat)
    requires SizeOf(of).Some? && i < |elems| && forall k :: 0 <= k < |elems| ==> Matches(elems[k], of)
    ensures ElementSlots(elems[i..], of, at) ==
            Slots(elems[i], of, at) + ElementSlots(elems[i + 1..], of, at + SizeOf(of).value)
  {
    assert elems[i..][0] == elems[i] && elems[i..][1..] == elems[i + 1..];
  }

  lemma {:induction false} NoMembers(ms: seq<LType>, at: nat)
    requires forall k :: 0 <= k < |ms| ==> SizeOf(ms[k]).Some?
    ensures StructSlots([], ms, at) == []
  {}

  lemma {:induction false} NextMember(elems: seq<Tree>, ms: seq<LType>, at: nat, i: nat)
    requires i < |elems| <= |ms| && (forall k :: 0 <= k < |ms| ==> SizeOf(ms[k]).Some?)
    requires forall k :: 0 <= k < |elems| ==> Matches(elems[k], ms[k])
    ensures StructSlots(elems[i..], ms[i..], at) ==
            Slots(elems[i], ms[i], at) + StructSlots(elems[i + 1..], ms[i + 1..], at + SizeOf(ms[i]).value)
    ensures Sum(ms[i..]) == SizeOf(ms[i]).value + Sum(ms[i + 1..])
  {
    assert elems[i..][0] == elems[i] && elems[i..][1..] == elems[i + 1..];
    assert ms[i..][0] == ms[i] && ms[i..][1..] == ms[i + 1..];
  }

  // ---------- the back end ----------

  /** Writes initializers into a buffer in place. `relocs` is where the linker is told to
      put addresses: the offset handed down beside each slice. */
  class DataWriter {
    const bytes: nat -> Option<seq<int>>
    var relocs: seq<(nat, nat)>

    constructor (bytes: nat -> Option<seq<int>>)
      ensures this.bytes == bytes && relocs == []
    {
      this.bytes, relocs := bytes, [];
    }

    /** The addresses among the slots, each with the offset its slice starts at. */
    function Starts(slots: seq<Slot>): seq<(nat, nat)> {
      if slots == [] then []
      else (if bytes(slots[0].e).None? then [(slots[0].e, slots[0].at)] else []) + Starts(slots[1..])
    }

    ghost predicate Fitting(slots: seq<Slot>) {
      forall i :: 0 <= i < |slots| ==> bytes(slots[i].e).Some? ==> |bytes(slots[i].e).value| == slots[i].len
    }

    method InitExpr(buf: array<int>, lo: nat, hi: nat, offset: nat, e: nat)
      requires lo <= hi <= buf.Length && (bytes(e).Some? ==> |bytes(e).value| == hi - lo) && offset == lo
      modifies this`relocs, buf
      ensures buf[..] == Stamped(old(buf[..]), [Slot(e, lo, hi - lo)], bytes)
      ensures relocs == old(relocs) + Starts([Slot(e, lo, hi - lo)])
    {
      ghost var s := Slot(e, lo, hi - lo);
      OneStamp(old(buf[..]), s);
      if bytes(e).None? {
        relocs := relocs + [(e, offset)];
        return;
      }
      var bs := bytes(e).value;
      var i := 0;
      while i < hi - lo
        invariant i <= hi - lo && relocs == old(relocs)
        invariant forall k :: 0 <= k < buf.Length ==> buf[k] == if lo <= k < lo + i then bs[k - lo] else old(buf[k])
      {
        buf[lo + i] := bs[i];
        i := i + 1;
      }
      assert buf[..] == Stamp(old(buf[..]), s, bytes);
    }

    lemma {:induction false} OneStamp(content: seq<int>, s: Slot)
      ensures Stamped(content, [s], bytes) == Stamp(content, s, bytes)
      ensures Starts([s]) == if bytes(s.e).None? then [(s.e, s.at)] else []
    {
      assert [s][1..] == [];
    }

    /** The slice of the buffer is `[lo, hi)`; `offset` is handed down beside it. */
    method InitSymbol(buf: array<int>, lo: nat, hi: nat, offset: nat, tree: Tree, t: LType)
      requires SizeOf(t).Some? && Matches(tree, t) && Ordinary(t)
      requires lo <= hi <= buf.Length && hi - lo == SizeOf(t).value && offset == lo && Fitting(Slots(tree, t, lo))
      modifies this`relocs, buf
      ensures buf[..] == Stamped(old(buf[..]), Slots(tree, t, lo), bytes)
      ensures relocs == old(relocs) + Starts(Slots(tree, t, lo))
      decreases tree, 1
    {
      if t.Array? {
        MoreIsMore(SizeOf(t.of).value, |tree.elems|, t.length.value);
        InitArray(buf, lo, offset, tree.elems, t.of);
      } else if t.Struct? {
        MemberSizes(t.members);
        SumFits(t.members, 0);
        StructSizeRounds(t.members);
        InitMembers(buf, lo, offset, tree.elems, t.members);
      } else if tree.Leaf? {
        assert Slots(tree, t, lo)[0] == Slot(tree.e, lo, hi - lo);
        InitExpr(buf, lo, hi, offset, tree.e);
      } else {
        InitSymbol(buf, lo, hi, offset, tree.elems[0], t);
      }
    }

    method InitArray(buf: array<int>, lo: nat, start: nat, elems: seq<Tree>, of: LType)
      requires SizeOf(of).Some? && Ordinary(of) && forall i :: 0 <= i < |elems| ==> Matches(elems[i], of)
      requires lo + SizeOf(of).value * |elems| <= buf.Length && start == lo && Fitting(ElementSlots(elems, of, lo))
      modifies this`relocs, buf
      ensures buf[..] == Stamped(old(buf[..]), ElementSlots(elems, of, lo), bytes)
      ensures relocs == old(relocs) + Starts(ElementSlots(elems, of, lo))
      decreases elems, 0
    {
      hide Slots, ElementSlots, Matches, SizeOf, Ordinary, Stamped;
      var inner := SizeOf(of).value;
      var offset, elementOffset, i := start, 0, 0;
      ghost var all := ElementSlots(elems, of, lo);
      ghost var done: seq<Slot> := [];
      NothingStamped(buf[..], relocs);
      assert elems[0..] == elems && done + all == all;
      while i < |elems|
        invariant i <= |elems| && elementOffset == inner * i && offset == lo + elementOffset
        invariant all == done + ElementSlots(elems[i..], of, offset)
        invariant buf[..] == Stamped(old(buf[..]), done, bytes) && relocs == old(relocs) + Starts(done)
      {
        ghost var slots := Slots(elems[i], of, offset);
        ghost var more := ElementSlots(elems[i + 1..], of, offset + inner);
        NextElement(elems, of, offset, i);
        FittingMiddle(done, slots, more);
        MoreIsMore(inner, i + 1, |elems|);
        assert inner * (i + 1) == inner * i + inner;
        InitSymbol(buf, lo + elementOffset, lo + elementOffset + inner, offset, elems[i], of);
        StampedAppend(old(buf[..]), done, slots, bytes);
        StartsAppend(old(relocs), done, slots, more);
        done := done + slots;
        offset, elementOffset, i := offset + inner, elementOffset + inner, i + 1;
      }
      NoElements(of, offset);
      assert elems[i..] == [] && done + [] == done;
    }

    lemma {:induction false} NothingStamped(content: seq<int>, relocs: seq<(nat, nat)>)
      ensures Stamped(content, [], bytes) == content && relocs + Starts([]) == relocs
    {}

    lemma {:induction false} StartsAppend(relocs: seq<(nat, nat)>, done: seq<Slot>, slots: seq<Slot>, more: seq<Slot>)
      ensures relocs + Starts(done) + Starts(slots) == relocs + Starts(done + slots)
      ensures done + (slots + more) == done + slots + more
    {
      hide Starts;
      StartsApart(done, slots);
    }

    lemma {:induction false} StartsApart(a: seq<Slot>, b: seq<Slot>)
      ensures Starts(a + b) == Starts(a) + Starts(b)
      decreases |a|
    {
      if a == [] {
        assert a + b == b;
      } else {
        assert (a + b)[0] == a[0] && (a + b)[1..] == a[1..] + b;
        StartsApart(a[1..], b);
        var first := if bytes(a[0].e).None? then [(a[0].e, a[0].at)] else [];
        assert Starts(a) == first + Starts(a[1..]) && Starts(a + b) == first + Starts(a[1..] + b);
      }
    }

    lemma {:induction false} FittingMiddle(a: seq<Slot>, b: seq<Slot>, c: seq<Slot>)
      requires Fitting(a + (b + c))
      ensures Fitting(b)
    {
      forall i | 0 <= i < |b| ensures bytes(b[i].e).Some? ==> |bytes(b[i].e).value| == b[i].len {
        assert (a + (b + c))[|a| + i] == b[i];
      }
    }

    method InitMembers(buf: array<int>, lo: nat, start: nat, elems: seq<Tree>, ms: seq<LType>)
      requires |elems| <= |ms| && forall i :: 0 <= i < |ms| ==> SizeOf(ms[i]).Some? && Ordinary(ms[i])
      requires forall i :: 0 <= i < |elems| ==> Matches(elems[i], ms[i])
      requires lo + Sum(ms) <= buf.Length && start == lo && Fitting(StructSlots(elems, ms, lo))
      modifies this`relocs, buf
      ensures buf[..] == Stamped(old(buf[..]), StructSlots(elems, ms, lo), bytes)
      ensures relocs == old(relocs) + Starts(StructSlots(elems, ms, lo))
      decreases elems, 0
    {
      hide Slots, StructSlots, Matches, SizeOf, Ordinary, Stamped, Sum;
      var offset, currentOffset, i := start, 0, 0;
      ghost var all := StructSlots(elems, ms, lo);
      ghost var done: seq<Slot> := [];
      NothingStamped(buf[..], relocs);
      assert elems[0..] == elems && ms[0..] == ms && done + all == all;
      while i < |elems|
        invariant i <= |elems| && offset == lo + currentOffset && currentOffset + Sum(ms[i..]) == Sum(ms)
        invariant all == done + StructSlots(elems[i..], ms[i..], offset)
        invariant buf[..] == Stamped(old(buf[..]), done, bytes) && relocs == old(relocs) + Starts(done)
      {
        var size := SizeOf(ms[i]).value;
        ghost var slots := Slots(elems[i], ms[i], offset);
        ghost var more := StructSlots(elems[i + 1..], ms[i + 1..], offset + size);
        NextMember(elems, ms, offset, i);
        FittingMiddle(done, slots, more);
        InitSymbol(buf, lo + currentOffset, lo + currentOffset + size, offset, elems[i], ms[i]);
        StampedAppend(old(buf[..]), done, slots, bytes);
        StartsAppend(old(relocs), done, slots, more);
        done := done + slots;
        offset, currentOffset, i := offset + size, currentOffset + size, i + 1;
      }
      NoMembers(ms[i..], offset);
      assert elems[i..] == [] && done + [] == done;
    }
  }
}
