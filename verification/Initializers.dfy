/** Initializer lists and the types they fill. */
module Initializers {
  import opened Wrappers

  /** Types as far as initializers see them. `Unknown` stands where the type is already
      an error. */
  datatype CType =
    | Scalar(n: nat)
    | ArrayOf(of: CType, length: Option<nat>)
    | Struct(members: seq<CType>)
    | Union(members: seq<CType>)
    | FunctionType
    | Unknown

  function TypeSize(t: CType): (n: nat)
    ensures n >= 1
    decreases t
  {
    match t
    case ArrayOf(of, _) => 1 + TypeSize(of)
    case Struct(ms) => 1 + MembersSize(ms)
    case Union(ms) => 1 + MembersSize(ms)
    case _ => 1
  }

  function MembersSize(ms: seq<CType>): nat
    decreases ms
  {
    if ms == [] then 0 else TypeSize(ms[0]) + MembersSize(ms[1..])
  }

  lemma {:induction false} MemberSmaller(ms: seq<CType>, i: nat)
    requires i < |ms|
    ensures TypeSize(ms[i]) <= MembersSize(ms)
    decreases |ms|
  {
    if i > 0 {
      MemberSmaller(ms[1..], i - 1);
    }
  }

  /** How many initializers a type takes; 0 means as many as there are. */
  function TypeLen(t: CType): nat {
    match t
    case ArrayOf(_, length) => if length.Some? then length.value else 0
    case Struct(ms) => |ms|
    case Union(ms) => |ms|
    case _ => 1
  }

  /** The type expected at an index; `None` is an error. */
  function TypeAt(t: CType, i: nat): (r: Option<CType>)
    ensures r.Some? && !r.value.Scalar? && r.value != Unknown ==> TypeSize(r.value) < TypeSize(t)
  {
    match t
    case Scalar(_) => if i == 0 then Some(t) else None
    case ArrayOf(of, _) => Some(of)
    case Struct(ms) =>
      if i < |ms| then
        MemberSmaller(ms, i);
        Some(ms[i])
      else None
    case Union(ms) =>
      if i != 0 then None
      else if ms == [] then Some(Unknown)
      else
        MemberSmaller(ms, 0);
        Some(ms[0])
    case _ => Some(Unknown)
  }

  /** An initializer as it is written; `e` says which expression. */
  datatype Init = Single(e: nat) | Braced(list: seq<Init>)

  /** An initializer as the analyzer hands it on. */
  datatype Tree = Leaf(e: nat) | Node(elems: seq<Tree>)

  function Weight(list: seq<Init>): nat
    decreases list
  {
    if list == [] then 0 else ItemWeight(list[0]) + Weight(list[1..])
  }

  function ItemWeight(item: Init): (n: nat)
    ensures n >= 1
    decreases item
  {
    match item
    case Single(_) => 1
    case Braced(l) => 1 + Weight(l)
  }

  // ---------- the algorithm ----------

  datatype Filled = Filled(tree: Tree, rest: seq<Init>, ok: bool)

  /** A list fills `t`; what is left over goes back to the caller. */
  function Aggregate(list: seq<Init>, t: CType): (r: Filled)
    ensures r.tree.Node? && Weight(r.rest) <= Weight(list) && (list != [] ==> Weight(r.rest) < Weight(list))
    decreases Weight(list), TypeSize(t), 2
  {
    if list == [] then Filled(Node([]), [], false)
    else
      var (elems, rest, ok) := Elements(list, t, 0);
      Filled(Node(elems), rest, ok)
  }

  /** The elements from the `k`th on. */
  function Elements(list: seq<Init>, t: CType, k: nat): (r: (seq<Tree>, seq<Init>, bool))
    requires list != []
    ensures Weight(r.1) < Weight(list) && r.0 != []
    decreases Weight(list), TypeSize(t), 1
  {
    var first := Element(list, t, k);
    if first.rest == [] || k + 1 == TypeLen(t) then ([first.tree], first.rest, first.ok)
    else
      var (more, rest, ok) := Elements(first.rest, t, k + 1);
      ([first.tree] + more, rest, first.ok && ok)
  }

  /** One element: a brace starts a list of its own, and a scalar is taken as it is or,
      where an aggregate is expected, as the first of its elements. */
  function Element(list: seq<Init>, t: CType, k: nat): (r: Filled)
    requires list != []
    ensures Weight(r.rest) < Weight(list)
    decreases Weight(list), TypeSize(t), 0
  {
    var known := TypeAt(t, k);
    var inner := if known.Some? then known.value else Unknown;
    match list[0]
    case Braced(l) =>
      assert ItemWeight(list[0]) == 1 + Weight(l);
      var r := Braces(l, inner);
      Filled(r.tree, list[1..], known.Some? && r.ok)
    case Single(e) =>
      if inner != Unknown && !inner.Scalar? then Aggregate(list, inner)
      else Filled(Leaf(e), list[1..], known.Some?)
  }

  /** A braced list fills `t`, and nothing may be left over. */
  function Braces(list: seq<Init>, t: CType): (r: Filled)
    ensures r.tree.Node? && r.rest == []
    decreases Weight(list), TypeSize(t), 3
  {
    var r := Aggregate(list, t);
    Filled(r.tree, [], r.ok && r.rest == [])
  }

  // ---------- nothing is lost ----------

  function Leaves(t: Tree): seq<nat>
    decreases t
  {
    match t
    case Leaf(e) => [e]
    case Node(elems) => AllLeaves(elems)
  }

  function AllLeaves(ts: seq<Tree>): seq<nat>
    decreases ts
  {
    if ts == [] then [] else Leaves(ts[0]) + AllLeaves(ts[1..])
  }

  function Written(list: seq<Init>): seq<nat>
    decreases list
  {
    if list == [] then []
    else (match list[0] case Single(e) => [e] case Braced(l) => Written(l)) + Written(list[1..])
  }

  /** What is filled in and what is left is what was written, in order. */
  lemma {:induction false} AggregateKeeps(list: seq<Init>, t: CType)
    requires Aggregate(list, t).ok
    ensures var r := Aggregate(list, t); Leaves(r.tree) + Written(r.rest) == Written(list)
    decreases Weight(list), TypeSize(t), 2
  {
    ElementsKeep(list, t, 0);
  }

  lemma {:induction false} ElementsKeep(list: seq<Init>, t: CType, k: nat)
    requires list != [] && Elements(list, t, k).2
    ensures var (elems, rest, _) := Elements(list, t, k); AllLeaves(elems) + Written(rest) == Written(list)
    decreases Weight(list), TypeSize(t), 1
  {
    hide Element, Written;
    var first := Element(list, t, k);
    ElementKeeps(list, t, k);
    if first.rest == [] || k + 1 == TypeLen(t) {
      assert AllLeaves([first.tree]) == Leaves(first.tree) + [];
    } else {
      ElementsKeep(first.rest, t, k + 1);
      var (more, rest, _) := Elements(first.rest, t, k + 1);
      assert ([first.tree] + more)[1..] == more;
      assert AllLeaves([first.tree] + more) == Leaves(first.tree) + AllLeaves(more);
      assert Leaves(first.tree) + (AllLeaves(more) + Written(rest)) == Leaves(first.tree) + AllLeaves(more) + Written(rest);
    }
  }

  lemma {:induction false} ElementKeeps(list: seq<Init>, t: CType, k: nat)
    requires list != [] && Element(list, t, k).ok
    ensures var r := Element(list, t, k); Leaves(r.tree) + Written(r.rest) == Written(list)
    decreases Weight(list), TypeSize(t), 0
  {
    var inner := TypeAt(t, k).value;
    match list[0]
    case Braced(l) =>
      assert ItemWeight(list[0]) == 1 + Weight(l);
      AggregateKeeps(l, inner);
      assert Leaves(Aggregate(l, inner).tree) + [] == Written(l);
    case Single(e) =>
      if inner != Unknown && !inner.Scalar? {
        AggregateKeeps(list, inner);
      }
  }

  /** A braced initializer without errors has exactly the scalars that were written. */
  lemma {:induction false} BracesKeepAll(list: seq<Init>, t: CType)
    requires Braces(list, t).ok
    ensures Leaves(Braces(list, t).tree) == Written(list)
  {
    AggregateKeeps(list, t);
    var r := Aggregate(list, t);
    assert Leaves(r.tree) + [] == Leaves(r.tree);
  }

  // ---------- the shape of the result ----------

  /** A list of initializers for `t`: there is one, there are no more than `t` takes, and
      each is a scalar where a scalar is expected, or a list for what is expected. */
  predicate Fits(tree: Tree, t: CType)
    decreases tree, 1
  {
    tree.Node? && tree.elems != [] && (TypeLen(t) > 0 ==> |tree.elems| <= TypeLen(t)) && FitFrom(tree.elems, t, 0)
  }

  predicate FitFrom(elems: seq<Tree>, t: CType, k: nat)
    decreases elems, 0
  {
    elems != [] ==> FitsAt(elems[0], t, k) && FitFrom(elems[1..], t, k + 1)
  }

  predicate FitsAt(tree: Tree, t: CType, k: nat)
    decreases tree, 2
  {
    TypeAt(t, k).Some? &&
    var inner := TypeAt(t, k).value;
    match tree
    case Leaf(_) => inner.Scalar? || inner == Unknown
    case Node(_) => Fits(tree, inner)
  }

  lemma {:induction false} AggregateFits(list: seq<Init>, t: CType)
    requires Aggregate(list, t).ok
    ensures Fits(Aggregate(list, t).tree, t)
    decreases Weight(list), TypeSize(t), 2
  {
    ElementsFit(list, t, 0);
  }

  lemma {:induction false} ElementsFit(list: seq<Init>, t: CType, k: nat)
    requires list != [] && Elements(list, t, k).2 && (TypeLen(t) > 0 ==> k < TypeLen(t))
    ensures var elems := Elements(list, t, k).0;
            FitFrom(elems, t, k) && (TypeLen(t) > 0 ==> k + |elems| <= TypeLen(t))
    decreases Weight(list), TypeSize(t), 1
  {
    var first := Element(list, t, k);
    ElementFits(list, t, k);
    if first.rest == [] || k + 1 == TypeLen(t) {
      assert [first.tree][1..] == [];
    } else {
      ElementsFit(first.rest, t, k + 1);
      var more := Elements(first.rest, t, k + 1).0;
      assert ([first.tree] + more)[1..] == more;
    }
  }

  lemma {:induction false} ElementFits(list: seq<Init>, t: CType, k: nat)
    requires list != [] && Element(list, t, k).ok
    ensures FitsAt(Element(list, t, k).tree, t, k)
    decreases Weight(list), TypeSize(t), 0
  {
    var inner := TypeAt(t, k).value;
    match list[0]
    case Braced(l) =>
      assert ItemWeight(list[0]) == 1 + Weight(l);
      AggregateFits(l, inner);
    case Single(e) =>
      if inner != Unknown && !inner.Scalar? {
        AggregateFits(list, inner);
      }
  }

  // ---------- braces put back ----------

  /** The tree as a list with every brace in place. */
  function AllBraced(elems: seq<Tree>): (list: seq<Init>)
    ensures |list| == |elems|
    decreases elems
  {
    if elems == [] then [] else [Bracing(elems[0])] + AllBraced(elems[1..])
  }

  function Bracing(t: Tree): Init
    decreases t
  {
    match t
    case Leaf(e) => Single(e)
    case Node(elems) => Braced(AllBraced(elems))
  }

  /** A list of the right shape, every brace in place, fills a type as it stands. */
  lemma {:induction false} BracedFills(elems: seq<Tree>, t: CType)
    requires Fits(Node(elems), t)
    ensures Braces(AllBraced(elems), t) == Filled(Node(elems), [], true)
    decreases elems, 1
  {
    BracedElements(elems, t, 0);
  }

  lemma {:induction false} BracedElements(elems: seq<Tree>, t: CType, k: nat)
    requires elems != [] && FitFrom(elems, t, k) && (TypeLen(t) > 0 ==> k + |elems| <= TypeLen(t))
    ensures Elements(AllBraced(elems), t, k) == (elems, [], true)
    decreases elems, 0
  {
    var list := AllBraced(elems);
    assert list == [Bracing(elems[0])] + AllBraced(elems[1..]);
    if elems[0].Node? {
      BracedFills(elems[0].elems, TypeAt(t, k).value);
      assert elems[0] == Node(elems[0].elems) && list[0] == Braced(AllBraced(elems[0].elems));
    } else {
      assert list[0] == Single(elems[0].e);
    }
    assert Element(list, t, k) == Filled(elems[0], list[1..], true);
    if |elems| == 1 {
      assert elems == [elems[0]];
    } else {
      BracedElements(elems[1..], t, k + 1);
      assert elems == [elems[0]] + elems[1..];
    }
  }

  /** Elided braces can be put back: a list without errors means what it means with every
      brace in place. */
  lemma {:induction false} BracesCanBePutBack(list: seq<Init>, t: CType)
    requires Braces(list, t).ok
    ensures Braces(AllBraced(Braces(list, t).tree.elems), t) == Braces(list, t)
  {
    AggregateFits(list, t);
    BracedFills(Aggregate(list, t).tree.elems, t);
  }

  // ---------- braces left out ----------

  /** The type at an index as the code goes on with it, `Unknown` after an error. */
  function Expected(t: CType, k: nat): CType {
    if TypeAt(t, k).Some? then TypeAt(t, k).value else Unknown
  }

  predicate IsAggregate(t: CType) {
    t.ArrayOf? || t.Struct? || t.Union?
  }

  /** Scalars, structs and unions with members, and arrays of a positive length. Of a
      union only the first member matters. */
  predicate Plain(t: CType)
    decreases t
  {
    match t
    case Scalar(_) => true
    case ArrayOf(of, length) => Plain(of) && length.Some? && length.value > 0
    case Struct(ms) => ms != [] && forall i :: 0 <= i < |ms| ==> Plain(ms[i])
    case Union(ms) => ms != [] && Plain(ms[0])
    case _ => false
  }

  /** How many elements a complete value has: a union has its first member's. */
  function Count(t: CType): nat {
    if t.Union? then 1 else TypeLen(t)
  }

  /** Every element of `t` is there, down to the scalars. */
  predicate Full(tree: Tree, t: CType)
    decreases tree
  {
    match tree
    case Leaf(_) => t.Scalar?
    case Node(elems) =>
      && IsAggregate(t) && |elems| == Count(t)
      && forall i :: 0 <= i < |elems| ==> Full(elems[i], Expected(t, i))
  }

  /** A union that has a choice of members, and so takes more than one initializer. */
  predicate HasChoice(t: CType) {
    t.Union? && |t.members| > 1
  }

  /** `list` writes the elements of `t` from the `k`th on, one after the other; `last` says
      that nothing comes after it between the same braces. */
  predicate Writes(list: seq<Init>, elems: seq<Tree>, t: CType, k: nat, last: bool)
    decreases elems
  {
    if elems == [] then list == []
    else
      exists n :: 0 < n <= |list| && WritesOne(list[..n], elems[0], Expected(t, k), last && n == |list|) &&
                  Writes(list[n..], elems[1..], t, k + 1, last)
  }

  /** The braces of an element may be left out if it starts with a scalar; those of a
      union with a choice only if nothing follows. */
  predicate WritesOne(list: seq<Init>, tree: Tree, t: CType, last: bool)
    decreases tree
  {
    match tree
    case Leaf(e) => list == [Single(e)]
    case Node(elems) =>
      (|list| == 1 && list[0].Braced? && Writes(list[0].list, elems, t, 0, true)) ||
      (list != [] && list[0].Single? && Writes(list, elems, t, 0, last) && (HasChoice(t) ==> last))
  }

  /** A complete value fills its type and takes nothing more. */
  lemma {:induction false} FullIsFilled(list: seq<Init>, rest: seq<Init>, elems: seq<Tree>, t: CType)
    requires Plain(t) && Full(Node(elems), t) && Writes(list, elems, t, 0, rest == []) && (HasChoice(t) ==> rest == [])
    ensures Aggregate(list + rest, t) == Filled(Node(elems), rest, true)
    decreases elems, 1
  {
    ElementsFilled(list, rest, elems, t, 0);
  }

  /** An aggregate of plain elements; an array may be of any length. */
  predicate PlainInside(t: CType) {
    (t.ArrayOf? && Plain(t.of)) || ((t.Struct? || t.Union?) && Plain(t))
  }

  /** Where elements of `t` may end before `rest`. */
  predicate EndsAt(t: CType, n: nat, rest: seq<Init>) {
    && (t.Union? ==> n <= 1)
    && (n == TypeLen(t) || (rest == [] && (TypeLen(t) == 0 || n <= TypeLen(t))))
  }

  lemma {:induction false} ElementsFilled(list: seq<Init>, rest: seq<Init>, elems: seq<Tree>, t: CType, k: nat)
    requires elems != [] && Writes(list, elems, t, k, rest == []) && PlainInside(t) && EndsAt(t, k + |elems|, rest)
    requires forall i :: 0 <= i < |elems| ==> Full(elems[i], Expected(t, k + i))
    ensures list != [] && Elements(list + rest, t, k) == (elems, rest, true)
    decreases elems, 0
  {
    var last := rest == [];
    var n :| 0 < n <= |list| && WritesOne(list[..n], elems[0], Expected(t, k), last && n == |list|) &&
             Writes(list[n..], elems[1..], t, k + 1, last);
    var tail := list[n..] + rest;
    assert list + rest == list[..n] + tail;
    assert tail == [] <==> last && n == |list|;
    assert Full(elems[0], Expected(t, k + 0));
    ElementFilled(list[..n], tail, elems[0], t, k);
    if |elems| == 1 {
      assert list[n..] == [] && tail == rest && elems == [elems[0]];
    } else {
      forall i | 0 <= i < |elems[1..]| ensures Full(elems[1..][i], Expected(t, k + 1 + i)) {
        assert Full(elems[i + 1], Expected(t, k + (i + 1)));
      }
      ElementsFilled(list[n..], rest, elems[1..], t, k + 1);
      assert elems == [elems[0]] + elems[1..];
    }
  }

  lemma {:induction false} ElementFilled(list: seq<Init>, rest: seq<Init>, tree: Tree, t: CType, k: nat)
    requires PlainInside(t) && TypeAt(t, k).Some? && list != []
    requires Full(tree, Expected(t, k)) && WritesOne(list, tree, Expected(t, k), rest == [])
    ensures Element(list + rest, t, k) == Filled(tree, rest, true)
    decreases tree, 2
  {
    var inner := Expected(t, k);
    assert Plain(inner);
    assert (list + rest)[0] == list[0];
    if tree.Leaf? {
      assert (list + rest)[1..] == rest;
    } else if list[0].Braced? {
      FullIsFilled(list[0].list, [], tree.elems, inner);
      assert list[0].list + [] == list[0].list;
      assert (list + rest)[1..] == rest && tree == Node(tree.elems);
    } else {
      FullIsFilled(list, rest, tree.elems, inner);
      assert tree == Node(tree.elems);
    }
  }

  /** And whatever fills complete elements writes them in one of those ways. */
  lemma {:induction false} ElementsWritten(list: seq<Init>, t: CType, k: nat) returns (w: seq<Init>)
    requires list != [] && Elements(list, t, k).2
    requires var elems := Elements(list, t, k).0; forall i :: 0 <= i < |elems| ==> Full(elems[i], Expected(t, k + i))
    ensures var (elems, rest, _) := Elements(list, t, k); list == w + rest && Writes(w, elems, t, k, rest == [])
    decreases Weight(list), TypeSize(t), 1
  {
    var first := Element(list, t, k);
    var (elems, rest, _) := Elements(list, t, k);
    assert Full(elems[0], Expected(t, k + 0));
    w := ElementWritten(list, t, k);
    var n := |w|;
    if first.rest == [] || k + 1 == TypeLen(t) {
      assert w[..n] == w && w[n..] == [] && elems[1..] == [];
      assert Writes([], elems[1..], t, k + 1, rest == []);
    } else {
      var more := Elements(first.rest, t, k + 1).0;
      assert elems == [first.tree] + more && elems[1..] == more;
      forall i | 0 <= i < |more| ensures Full(more[i], Expected(t, k + 1 + i)) {
        assert Full(elems[i + 1], Expected(t, k + (i + 1)));
      }
      var v := ElementsWritten(first.rest, t, k + 1);
      assert v != [];
      w := w + v;
      assert w[n..] == v && list == w + rest;
    }
  }

  lemma {:induction false} ElementWritten(list: seq<Init>, t: CType, k: nat) returns (w: seq<Init>)
    requires list != [] && Element(list, t, k).ok && Full(Element(list, t, k).tree, Expected(t, k))
    ensures var r := Element(list, t, k);
            w != [] && list == w + r.rest && WritesOne(w, r.tree, Expected(t, k), r.rest == [])
    decreases Weight(list), TypeSize(t), 0
  {
    var inner := Expected(t, k);
    match list[0]
    case Braced(l) =>
      assert ItemWeight(list[0]) == 1 + Weight(l);
      BracesWritten(l, inner);
      w := [list[0]];
    case Single(e) =>
      if inner != Unknown && !inner.Scalar? {
        assert Element(list, t, k) == Aggregate(list, inner);
        w := ElementsWritten(list, inner, 0);
      } else {
        w := [list[0]];
      }
  }

  lemma {:induction false} BracesWritten(list: seq<Init>, t: CType)
    requires Braces(list, t).ok
    requires var elems := Braces(list, t).tree.elems; forall i :: 0 <= i < |elems| ==> Full(elems[i], Expected(t, i))
    ensures Writes(list, Braces(list, t).tree.elems, t, 0, true)
    decreases Weight(list), TypeSize(t), 2
  {
    assert Aggregate(list, t).ok && list != [];
    assert Aggregate(list, t).tree == Node(Elements(list, t, 0).0);
    var w := ElementsWritten(list, t, 0);
    assert w + [] == w;
  }

  /** A complete value is what a list gives exactly when the list writes it, braces left
      out where they may be. */
  lemma {:induction false} ElisionGivesTheValue(list: seq<Init>, elems: seq<Tree>, t: CType)
    requires Plain(t) && Full(Node(elems), t)
    ensures Braces(list, t) == Filled(Node(elems), [], true) <==> Writes(list, elems, t, 0, true)
  {
    ElisionFillsTheFirst(list, elems, t);
  }

  /** At the end of a list elements may be missing, and an array without a length takes
      as many as there are. */
  lemma {:induction false} ElisionFillsTheFirst(list: seq<Init>, elems: seq<Tree>, t: CType)
    requires PlainInside(t) && elems != [] && EndsAt(t, |elems|, [])
    requires forall i :: 0 <= i < |elems| ==> Full(elems[i], Expected(t, i))
    ensures Braces(list, t) == Filled(Node(elems), [], true) <==> Writes(list, elems, t, 0, true)
  {
    assert list + [] == list;
    if Writes(list, elems, t, 0, true) {
      ElementsFilled(list, [], elems, t, 0);
    }
    if Braces(list, t) == Filled(Node(elems), [], true) {
      BracesWritten(list, t);
    }
  }

  /** No union with a choice anywhere in `t`. */
  predicate NoChoice(t: CType)
    decreases t
  {
    match t
    case ArrayOf(of, _) => NoChoice(of)
    case Struct(ms) => forall i :: 0 <= i < |ms| ==> NoChoice(ms[i])
    case Union(ms) => |ms| == 1 && NoChoice(ms[0])
    case _ => true
  }

  /** Both extremes are among them: every brace, and, without a choice, none at all. */
  lemma {:induction false} FlatWrites(elems: seq<Tree>, t: CType, last: bool)
    requires Plain(t) && Full(Node(elems), t)
    ensures Writes(AllBraced(elems), elems, t, 0, last)
    ensures NoChoice(t) ==> Writes(Flat(AllLeaves(elems)), elems, t, 0, last)
    decreases elems, 1
  {
    FlatElements(elems, t, 0, last);
  }

  function Flat(es: seq<nat>): (list: seq<Init>)
    ensures |list| == |es|
  {
    seq(|es|, i requires 0 <= i < |es| => Single(es[i]))
  }

  lemma {:induction false} FlatElements(elems: seq<Tree>, t: CType, k: nat, last: bool)
    requires Plain(t) && k + |elems| == Count(t)
    requires forall i :: 0 <= i < |elems| ==> Full(elems[i], Expected(t, k + i))
    ensures Writes(AllBraced(elems), elems, t, k, last)
    ensures NoChoice(t) ==> Writes(Flat(AllLeaves(elems)), elems, t, k, last)
    decreases elems, 0
  {
    if elems != [] {
      var inner := Expected(t, k);
      assert Full(elems[0], Expected(t, k + 0)) && Plain(inner);
      forall i | 0 <= i < |elems[1..]| ensures Full(elems[1..][i], Expected(t, k + 1 + i)) {
        assert Full(elems[i + 1], Expected(t, k + (i + 1)));
      }
      FlatElements(elems[1..], t, k + 1, last);
      var braced := AllBraced(elems);
      assert braced[..1] == [Bracing(elems[0])] && braced[1..] == AllBraced(elems[1..]);
      if elems[0].Node? {
        FlatWrites(elems[0].elems, inner, true);
      }
      assert WritesOne([Bracing(elems[0])], elems[0], inner, last && 1 == |braced|);
      if NoChoice(t) {
        var first, more := Leaves(elems[0]), AllLeaves(elems[1..]);
        var flat := Flat(first + more);
        assert flat[..|first|] == Flat(first) && flat[|first|..] == Flat(more);
        HasLeaves(elems[0], inner);
        FlatElement(elems[0], inner, last && |first| == |flat|);
      }
    }
  }

  lemma {:induction false} FlatElement(tree: Tree, t: CType, last: bool)
    requires Plain(t) && Full(tree, t) && NoChoice(t)
    ensures WritesOne(Flat(Leaves(tree)), tree, t, last)
    decreases tree, 2
  {
    if tree.Node? {
      HasLeaves(tree, t);
      FlatWrites(tree.elems, t, last);
    }
  }

  lemma {:induction false} HasLeaves(tree: Tree, t: CType)
    requires Plain(t) && Full(tree, t)
    ensures Leaves(tree) != []
    decreases tree
  {
    if tree.Node? {
      HasLeaves(tree.elems[0], Expected(t, 0));
    }
  }

  /** Without braces a union takes an initializer for each of its members, although only
      the first can be initialized. So it is filled without an error exactly when it has
      one member or nothing is left for a second. */
  lemma {:induction false} UnionTakesTooMuch(list: seq<Init>, ms: seq<CType>)
    requires list != []
    ensures var first := Element(list, Union(ms), 0);
            Aggregate(list, Union(ms)).ok <==> first.ok && (|ms| == 1 || first.rest == [])
  {
    var u := Union(ms);
    var first := Element(list, u, 0);
    if first.rest != [] {
      assert !Element(first.rest, u, 1).ok;
      assert !Elements(first.rest, u, 1).2;
    }
  }

  /** For instance `{x, y}` is no value of a struct that holds such a union and a scalar,
      and `{{x}, y}` is one. */
  lemma {:induction false} UnionNeedsBraces(a: CType, b: CType, x: nat, y: nat)
    requires a.Scalar?
    ensures var t := Struct([Union([a, b]), a]); var value := [Node([Leaf(x)]), Leaf(y)];
            && Braces([Single(x), Single(y)], t) != Filled(Node(value), [], true)
            && Braces([Braced([Single(x)]), Single(y)], t) == Filled(Node(value), [], true)
  {
    var u := Union([a, b]);
    var t := Struct([u, a]);
    var xy := [Single(x), Single(y)];
    assert xy[1..] == [Single(y)];
    assert Element(xy, u, 0) == Filled(Leaf(x), [Single(y)], true);
    UnionTakesTooMuch(xy, [a, b]);
    assert !Element(xy, t, 0).ok;
    assert !Elements(xy, t, 0).2;
    var value := [Node([Leaf(x)]), Leaf(y)];
    assert Full(value[0], u) && Full(value[1], a) && value[0] == Node([Leaf(x)]);
    FlatWrites(value, t, true);
    assert AllBraced([Leaf(x)]) == [Single(x)] && AllBraced([Leaf(y)]) == [Single(y)];
    assert value[1..] == [Leaf(y)];
    assert AllBraced(value) == [Braced([Single(x)])] + [Single(y)] == [Braced([Single(x)]), Single(y)];
    ElisionGivesTheValue(AllBraced(value), value, t);
  }
}

/** The analyzer as the front end has it: one list that mutually recursive methods take
    their initializers from, and a handler that errors go to. */
module InitAnalyzer {
  import opened Wrappers
  import opened Initializers

  /** A list read from the front. */
  class InitList {
    var items: seq<Init>

    constructor (items: seq<Init>)
      ensures this.items == items
    {
      this.items := items;
    }

    method Peek() returns (item: Option<Init>)
      ensures item == if items == [] then None else Some(items[0])
    {
      item := if items == [] then None else Some(items[0]);
    }

    method Next() returns (item: Init)
      requires items != []
      modifies this
      ensures item == old(items)[0] && items == old(items)[1..]
    {
      item := items[0];
      items := items[1..];
    }
  }

  class PureAnalyzer {
    var errors: nat

    constructor ()
      ensures errors == 0
    {
      errors := 0;
    }

    method Err()
      modifies this
      ensures errors == old(errors) + 1
    {
      errors := errors + 1;
    }

    /** A list in braces. */
    method CheckAggregateOverflow(list: seq<Init>, t: CType) returns (tree: Tree)
      modifies this
      ensures tree == Braces(list, t).tree && errors >= old(errors)
      ensures errors == old(errors) <==> Braces(list, t).ok
      decreases Weight(list), TypeSize(t), 3
    {
      var iter := new InitList(list);
      tree := AggregateInitializer(iter, t);
      if iter.items != [] {
        Err();
      }
    }

    method AggregateInitializer(list: InitList, t: CType) returns (tree: Tree)
      modifies this, list
      ensures var r := Aggregate(old(list.items), t);
              && tree == r.tree && list.items == r.rest && errors >= old(errors)
              && (errors == old(errors) <==> r.ok)
      decreases Weight(list.items), TypeSize(t), 2
    {
      hide Element, Elements, TypeLen;
      var elems: seq<Tree> := [];
      if list.items == [] {
        Err();
        return Node(elems);
      }
      ghost var spec := Elements(list.items, t, 0);
      ghost var before := errors;
      while list.items != [] && (elems == [] || |elems| != TypeLen(t))
        invariant errors >= before
        invariant elems != [] ==> Weight(list.items) < Weight(old(list.items))
        invariant elems == [] ==> list.items == old(list.items)
        invariant if list.items == [] || (elems != [] && |elems| == TypeLen(t)) then
                    elems != [] && spec.0 == elems && spec.1 == list.items && (spec.2 <==> errors == before)
                  else
                    var more := Elements(list.items, t, |elems|);
                    spec.0 == elems + more.0 && spec.1 == more.1 && (spec.2 <==> errors == before && more.2)
        decreases Weight(list.items)
      {
        ElementsAfter(elems, list.items, t);
        var next := OneElement(list, t, |elems|);
        elems := elems + [next];
      }
      tree := Node(elems);
    }

    /** One turn of the loop over the elements. */
    static lemma {:induction false} ElementsAfter(done: seq<Tree>, list: seq<Init>, t: CType)
      requires list != []
      ensures var first := Element(list, t, |done|); var all := done + [first.tree]; var r := Elements(list, t, |done|);
              if first.rest == [] || |all| == TypeLen(t) then
                done + r.0 == all && r.1 == first.rest && r.2 == first.ok
              else
                var more := Elements(first.rest, t, |all|);
                done + r.0 == all + more.0 && r.1 == more.1 && r.2 == (first.ok && more.2)
    {}

    method OneElement(list: InitList, t: CType, k: nat) returns (tree: Tree)
      requires list.items != []
      modifies this, list
      ensures var r := Element(old(list.items), t, k);
              && tree == r.tree && list.items == r.rest && errors >= old(errors)
              && (errors == old(errors) <==> r.ok)
      decreases Weight(list.items), TypeSize(t), 1
    {
      var at := TypeAt(t, k);
      if at.None? {
        Err();
      }
      var inner := if at.Some? then at.value else Unknown;
      match list.items[0] {
        case Braced(_) =>
          assert ItemWeight(list.items[0]) == 1 + Weight(list.items[0].list);
          var item := list.Next();
          tree := CheckAggregateOverflow(item.list, inner);
        case Single(_) =>
          if inner != Unknown && !inner.Scalar? {
            tree := AggregateInitializer(list, inner);
          } else {
            var item := list.Next();
            tree := Leaf(item.e);
          }
      }
    }
  }
}
