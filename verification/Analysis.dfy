/** How the analyzer builds typed expressions: lvalues become values, and the usual
    conversions are put in as casts. */
module Analysis {
  import opened Wrappers
  import opened Integers
  import opened Folding
  import Ir

  /** Expressions as written. The analyzer's tables are folded in: `Name` comes with the type
      of the variable, `Indirect` and `Element` with what the pointer points to and its size,
      `Call` with the types of result and parameters. */
  datatype Source =
    | Constant(v: LiteralValue)
    | EnumConstant(i: int)
    | SizeofType(n: nat)
    | Name(op: nat, t: CType)
    | Plus(x: Source)
    | Minus(x: Source)
    | Complement(x: Source)
    | Not(x: Source)
    | CastTo(t: CType, x: Source)
    | IntegerOp(bin: BinaryOp, left: Source, right: Source)
    | Multiply(bin: BinaryOp, left: Source, right: Source)
    | AddOrSub(isAdd: bool, left: Source, right: Source, size: nat)
    | Relation(cmp: CompareOp, left: Source, right: Source)
    | Connect(isOr: bool, left: Source, right: Source)
    | Choose(cond: Source, thn: Source, els: Source)
    | Sequence(left: Source, right: Source)
    | AssignTo(left: Source, right: Source)
    | Indirect(x: Source, t: CType)
    | Element(left: Source, right: Source, t: CType, size: nat)
    | AddressOf(x: Source)
    | PostIncrement(op: nat, x: Source)
    | CallTo(op: nat, args: seq<Source>, params: seq<CType>, t: CType)

  /** An analyzed expression; `place` is the type of the object if it is an lvalue, and then
      `e` is the object's address. */
  datatype Value = Value(e: Expr, place: Option<CType>)

  type Analyzed = Option<Value>

  const LOAD: nat := 1

  predicate IsType(t: CType) {
    t.SignedInt? ==> t.bytes in {1, 2, 4, 8}
  }

  /** The value stored in an lvalue. */
  function Rval(v: Value): Expr {
    if v.place.Some? then Expr(Deref(v.e, LOAD), v.place.value) else v.e
  }

  function Just(e: Expr): Analyzed {
    Some(Value(e, None))
  }

  /** A constant's type goes by its kind. */
  function ConstantType(v: LiteralValue): CType {
    match v
    case Int(_) => SignedInt(8)
    case UnsignedInt(_) => ULongT
    case Char(_) => CharT
    case Str(_) => PointerT
  }

  const ZERO := Lit(Int(0), SignedInt(4))

  // ---------- conversions ----------

  /** All pointers are alike here, so conversions between them leave nothing to do. */
  function ImplicitCast(x: Expr, t: CType): (r: Option<Expr>)
    ensures r.Some? ==> r.value.ctype == t
  {
    if x.ctype == t then Some(x)
    else if !x.ctype.PointerT? && !t.PointerT? then Some(Expr(Cast(x), t))
    else if IsZero(x) && t.PointerT? then Some(Expr(Cast(x), t))
    else if x.ctype.PointerT? && t.BoolT? then Some(Expr(Cast(x), t))
    else None
  }

  /** Section 6.3.1.1 of C11. */
  function Promoted(t: CType): CType {
    if t.ULongT? || t == SignedInt(8) then t else SignedInt(4)
  }

  /** Section 6.3.1.8 of C11. */
  function CommonType(l: CType, r: CType): (t: CType)
    ensures Arithmetic(t)
  {
    if l.ULongT? || r.ULongT? then ULongT
    else if Promoted(l) == SignedInt(8) || Promoted(r) == SignedInt(8) then SignedInt(8)
    else SignedInt(4)
  }

  function Promote(x: Expr): Option<Expr> {
    if x.ctype.PointerT? then None else ImplicitCast(x, Promoted(x.ctype))
  }

  function Promote2(l: Expr, r: Expr): (p: Option<(Expr, Expr)>)
    ensures p.Some? ==> p.value.0.ctype == p.value.1.ctype && Arithmetic(p.value.0.ctype)
  {
    if l.ctype.PointerT? || r.ctype.PointerT? then None
    else
      var t := CommonType(l.ctype, r.ctype);
      Some((ImplicitCast(l, t).value, ImplicitCast(r, t).value))
  }

  /** Both operands at their common type, which is the result's unless `t` is. */
  function Promoting(op: BinaryOp, l: Expr, r: Expr, t: Option<CType>): Option<Expr> {
    match Promote2(l, r)
    case None => None
    case Some((l1, r1)) => Some(Expr(Binary(op, l1, r1), if t.Some? then t.value else l1.ctype))
  }

  /** `x != 0`, at the type of `x`. */
  function Truthy(x: Expr): Expr {
    if x.ctype.BoolT? then x
    else Expr(Binary(Compare(NotEqual), x, ImplicitCast(ZERO, x.ctype).value), BoolT)
  }

  function LogicalNot(x: Expr): Expr {
    Expr(Binary(Compare(EqualEqual), Truthy(x), ImplicitCast(ZERO, BoolT).value), BoolT)
  }

  /** `base + size * index`, all of it as addresses. */
  function PointerPlus(base: Expr, index: Expr, size: nat): Expr {
    var offset := Expr(Cast(index), PointerT);
    var factor := Expr(Cast(Lit(UnsignedInt(size), ULongT)), PointerT);
    Expr(Binary(Add, base, Expr(Binary(Mul, factor, offset), PointerT)), PointerT)
  }

  // ---------- expressions ----------

  function Analyze(s: Source): Analyzed
    decreases s
  {
    match s
    case Constant(v) => if LiteralTyped(v, ConstantType(v)) then Just(Lit(v, ConstantType(v))) else None
    case EnumConstant(i) => if IsI64(i) then Just(Lit(Int(i), SignedInt(4))) else None
    case SizeofType(n) => if IsU64(n) then Just(Lit(UnsignedInt(n), ULongT)) else None
    case Name(op, t) => if IsType(t) then Some(Value(Expr(Opaque(op, []), PointerT), Some(t))) else None
    case Plus(x) => OnValue(Analyze(x), v => Promote(v))
    case Minus(x) => OnValue(Analyze(x), v => Negated(Promote(v)))
    case Complement(x) => OnValue(Analyze(x), v => Complemented(Promote(v)))
    case Not(x) => OnValue(Analyze(x), v => Some(LogicalNot(v)))
    case CastTo(t, x) => OnValue(Analyze(x), v => if IsType(t) then Some(Expr(Cast(v), t)) else None)
    case IntegerOp(op, l, r) =>
      if op.Bits? || op.Shl? || op.Shr? then OnValues(Analyze(l), Analyze(r), (a, b) => Promoting(op, a, b, None)) else None
    case Multiply(op, l, r) =>
      if op.Mul? || op.Div? || op.Mod? then OnValues(Analyze(l), Analyze(r), (a, b) => Promoting(op, a, b, None)) else None
    case AddOrSub(isAdd, l, r, size) =>
      if IsU64(size) then Additive(isAdd, Analyze(l), Analyze(r), size) else None
    case Relation(c, l, r) => OnValues(Analyze(l), Analyze(r), (a, b) => Relational(c, a, b))
    case Connect(isOr, l, r) => OnValues(Analyze(l), Analyze(r), (a, b) => Connected(isOr, a, b))
    case Choose(c, t, f) =>
      if Analyze(c).None? then None
      else OnValues(Analyze(t), Analyze(f), (a, b) => Chosen(Truthy(Rval(Analyze(c).value)), a, b))
    case Sequence(l, r) =>
      if Analyze(l).None? then None
      else OnValue(Analyze(r), v => Some(Expr(Comma(Analyze(l).value.e, v), v.ctype)))
    case AssignTo(l, r) =>
      if Analyze(l).None? || Analyze(l).value.place.None? then None
      else OnValue(Analyze(r), v => Assigned(Analyze(l).value.e, v, Analyze(l).value.place.value))
    case Indirect(x, t) =>
      if Analyze(x).None? || !IsType(t) || !Rval(Analyze(x).value).ctype.PointerT? then None
      else Some(Value(Expr(Noop(Rval(Analyze(x).value)), PointerT), Some(t)))
    case Element(l, r, t, size) =>
      if IsType(t) && IsU64(size) then Placed(OnValues(Analyze(l), Analyze(r), (a, b) => ElementAt(a, b, size)), t) else None
    case AddressOf(x) => if Analyze(x).None? then None else Address(Analyze(x).value)
    case PostIncrement(op, x) =>
      if Analyze(x).None? || Analyze(x).value.place.None? then None
      else Just(Expr(Opaque(op, [Analyze(x).value.e]), Analyze(x).value.place.value))
    case CallTo(op, args, params, t) =>
      if |args| != |params| || !IsType(t) || AnalyzeArgs(args, params).None? then None
      else Just(Expr(Opaque(op, AnalyzeArgs(args, params).value), t))
  }

  function AnalyzeArgs(args: seq<Source>, params: seq<CType>): (r: Option<seq<Expr>>)
    requires |args| == |params|
    ensures r.Some? ==> |r.value| == |args|
    decreases args
  {
    if args == [] then Some([])
    else if Analyze(args[0]).None? || !IsType(params[0]) then None
    else
      match (ImplicitCast(Rval(Analyze(args[0]).value), params[0]), AnalyzeArgs(args[1..], params[1..]))
      case (Some(first), Some(more)) => Some([first] + more)
      case (_, _) => None
  }

  function OnValue(v: Analyzed, f: Expr -> Option<Expr>): Analyzed {
    if v.None? || f(Rval(v.value)).None? then None else Just(f(Rval(v.value)).value)
  }

  function OnValues(l: Analyzed, r: Analyzed, f: (Expr, Expr) -> Option<Expr>): Analyzed {
    if l.None? || r.None? || f(Rval(l.value), Rval(r.value)).None? then None
    else Just(f(Rval(l.value), Rval(r.value)).value)
  }

  function Negated(x: Option<Expr>): Option<Expr> {
    if x.Some? then Some(Expr(Negate(x.value), x.value.ctype)) else None
  }

  function Complemented(x: Option<Expr>): Option<Expr> {
    if x.Some? then Some(Expr(BitwiseNot(x.value), x.value.ctype)) else None
  }

  /** With a pointer on the left both signs add. Two pointers are subtracted without taking
      their values first, and the difference is an lvalue. */
  function Additive(isAdd: bool, left: Analyzed, right: Analyzed, size: nat): Analyzed {
    if left.None? || right.None? then None
    else
      var l, r := Rval(left.value), Rval(right.value);
      if l.ctype.PointerT? && !r.ctype.PointerT? then Just(PointerPlus(l, r, size))
      else if r.ctype.PointerT? && !l.ctype.PointerT? && isAdd then Just(PointerPlus(r, l, size))
      else if !l.ctype.PointerT? && !r.ctype.PointerT? then
        OnValues(left, right, (a, b) => Promoting(if isAdd then Add else Sub, a, b, None))
      else if !isAdd && l.ctype == r.ctype then
        Some(Value(Expr(Binary(Sub, left.value.e, right.value.e), PointerT), Some(PointerT)))
      else None
  }

  /** Pointers are compared with pointers, or for equality with a constant 0. */
  function Relational(c: CompareOp, l: Expr, r: Expr): Option<Expr> {
    if !l.ctype.PointerT? && !r.ctype.PointerT? then Promoting(Compare(c), l, r, Some(BoolT))
    else if l.ctype == r.ctype ||
            ((c.EqualEqual? || c.NotEqual?) &&
             ((IsZero(l) && r.ctype.PointerT?) || (l.ctype.PointerT? && IsZero(r)))) then
      Some(Expr(Binary(Compare(c), l, r), BoolT))
    else None
  }

  function Connected(isOr: bool, l: Expr, r: Expr): Option<Expr> {
    match (ImplicitCast(l, BoolT), ImplicitCast(r, BoolT))
    case (Some(a), Some(b)) => Some(Expr(Binary(if isOr then LogicalOr else LogicalAnd, a, b), BoolT))
    case (_, _) => None
  }

  /** A constant 0 beside a pointer becomes one as it stands, without a cast. */
  function Chosen(c: Expr, t: Expr, f: Expr): Option<Expr> {
    if !t.ctype.PointerT? && !f.ctype.PointerT? then
      var (a, b) := Promote2(t, f).value;
      Some(Expr(Ternary(c, a, b), a.ctype))
    else if (t.ctype.PointerT? || IsZero(t)) && (f.ctype.PointerT? || IsZero(f)) then
      Some(Expr(Ternary(c, t.(ctype := PointerT), f.(ctype := PointerT)), PointerT))
    else None
  }

  function Assigned(target: Expr, x: Expr, t: CType): Option<Expr> {
    match ImplicitCast(x, t)
    case None => None
    case Some(v) => Some(Expr(Binary(Assign, target, v), t))
  }

  function ElementAt(l: Expr, r: Expr, size: nat): Option<Expr> {
    if l.ctype.PointerT? then Some(PointerPlus(l, r, size))
    else if r.ctype.PointerT? then Some(PointerPlus(r, l, size))
    else None
  }

  function Placed(v: Analyzed, t: CType): Analyzed {
    if v.Some? then Some(Value(v.value.e, Some(t))) else None
  }

  /** What is loaded from, if `x` is a load; the address of an lvalue. */
  function Address(x: Value): Analyzed {
    if x.place.Some? then Just(x.e)
    else if x.e.kind.Deref? then Some(Value(x.e.kind.e, Some(x.e.ctype)))
    else None
  }

  // ---------- whatever is analyzed is typed ----------

  predicate TypedValue(v: Value) {
    Typed(v.e) && IsType(v.e.ctype) && (v.place.Some? ==> v.e.ctype.PointerT? && IsType(v.place.value))
  }

  predicate TypedExpr(x: Expr) { Typed(x) && IsType(x.ctype) }

  lemma {:induction false} RvalIsTyped(v: Value)
    requires TypedValue(v)
    ensures TypedExpr(Rval(v))
  {}

  lemma {:induction false} CastIsTyped(x: Expr, t: CType)
    requires TypedExpr(x) && IsType(t) && ImplicitCast(x, t).Some?
    ensures TypedExpr(ImplicitCast(x, t).value)
  {}

  lemma {:induction false} PromotionIsTyped(x: Expr)
    requires TypedExpr(x) && Promote(x).Some?
    ensures TypedExpr(Promote(x).value) && Arithmetic(Promote(x).value.ctype)
  {}

  lemma {:induction false} PromotionsAreTyped(l: Expr, r: Expr)
    requires TypedExpr(l) && TypedExpr(r) && Promote2(l, r).Some?
    ensures TypedExpr(Promote2(l, r).value.0) && TypedExpr(Promote2(l, r).value.1)
  {
    CastIsTyped(l, CommonType(l.ctype, r.ctype));
    CastIsTyped(r, CommonType(l.ctype, r.ctype));
  }

  lemma {:induction false} PromotingIsTyped(op: BinaryOp, l: Expr, r: Expr, t: Option<CType>)
    requires TypedExpr(l) && TypedExpr(r) && Promoting(op, l, r, t).Some?
    requires op.Bits? || op.Shl? || op.Shr? || op.Mul? || op.Div? || op.Mod? || op.Add? || op.Sub? || op.Compare?
    requires t == if op.Compare? then Some(BoolT) else None
    ensures TypedExpr(Promoting(op, l, r, t).value)
  {
    hide ImplicitCast, CommonType;
    PromotionsAreTyped(l, r);
  }

  /** The shape `truthy` builds. */
  lemma {:induction false} TruthyIsTyped(x: Expr)
    requires TypedExpr(x)
    ensures TypedExpr(Truthy(x)) && Truthy(x).ctype == BoolT
  {
    assert Typed(ZERO) && TypedExpr(ZERO);
    if !x.ctype.BoolT? {
      CastIsTyped(ZERO, x.ctype);
    }
  }

  /** The shape `!` builds. */
  lemma {:induction false} LogicalNotIsTyped(x: Expr)
    requires TypedExpr(x)
    ensures TypedExpr(LogicalNot(x))
  {
    hide Truthy;
    TruthyIsTyped(x);
    assert TypedExpr(ZERO);
    CastIsTyped(ZERO, BoolT);
  }

  lemma {:induction false} PointerPlusIsTyped(base: Expr, index: Expr, size: nat)
    requires TypedExpr(base) && TypedExpr(index) && base.ctype.PointerT? && IsU64(size)
    ensures TypedExpr(PointerPlus(base, index, size))
  {
    var offset := Expr(Cast(index), PointerT);
    var literal := Lit(UnsignedInt(size), ULongT);
    var factor := Expr(Cast(literal), PointerT);
    assert Typed(literal);
    assert Typed(offset) && Typed(factor);
    assert Typed(Expr(Binary(Mul, factor, offset), PointerT));
  }

  lemma {:induction false} AdditiveIsTyped(isAdd: bool, left: Value, right: Value, size: nat)
    requires TypedValue(left) && TypedValue(right) && IsU64(size) && Additive(isAdd, Some(left), Some(right), size).Some?
    ensures TypedValue(Additive(isAdd, Some(left), Some(right), size).value)
  {
    hide PointerPlus, Promoting, Typed;
    var l, r := Rval(left), Rval(right);
    RvalIsTyped(left);
    RvalIsTyped(right);
    if l.ctype.PointerT? && !r.ctype.PointerT? {
      PointerPlusIsTyped(l, r, size);
    } else if r.ctype.PointerT? && !l.ctype.PointerT? {
      PointerPlusIsTyped(r, l, size);
    } else if !l.ctype.PointerT? && !r.ctype.PointerT? {
      PromotingIsTyped(if isAdd then Add else Sub, l, r, None);
    } else {
      DifferenceIsTyped(left.e, right.e);
    }
  }

  lemma {:induction false} DifferenceIsTyped(l: Expr, r: Expr)
    requires Typed(l) && Typed(r) && l.ctype.PointerT? && r.ctype.PointerT?
    ensures Typed(Expr(Binary(Sub, l, r), PointerT))
  {}

  lemma {:induction false} RelationIsTyped(c: CompareOp, l: Expr, r: Expr)
    requires TypedExpr(l) && TypedExpr(r) && Relational(c, l, r).Some?
    ensures TypedExpr(Relational(c, l, r).value)
  {
    hide Promoting;
    if !l.ctype.PointerT? && !r.ctype.PointerT? {
      PromotingIsTyped(Compare(c), l, r, Some(BoolT));
    }
  }

  lemma {:induction false} ConnectedIsTyped(isOr: bool, l: Expr, r: Expr)
    requires TypedExpr(l) && TypedExpr(r) && Connected(isOr, l, r).Some?
    ensures TypedExpr(Connected(isOr, l, r).value)
  {
    hide ImplicitCast;
    CastIsTyped(l, BoolT);
    CastIsTyped(r, BoolT);
  }

  lemma {:induction false} ChosenIsTyped(c: Expr, t: Expr, f: Expr)
    requires TypedExpr(c) && c.ctype.BoolT? && TypedExpr(t) && TypedExpr(f) && Chosen(c, t, f).Some?
    ensures TypedExpr(Chosen(c, t, f).value)
  {
    if !t.ctype.PointerT? && !f.ctype.PointerT? {
      PromotionsAreTyped(t, f);
    } else {
      NullIsTyped(t);
      NullIsTyped(f);
    }
  }

  lemma {:induction false} NullIsTyped(x: Expr)
    requires TypedExpr(x) && (x.ctype.PointerT? || IsZero(x))
    ensures TypedExpr(x.(ctype := PointerT))
  {}

  lemma {:induction false} ElementIsTyped(l: Expr, r: Expr, size: nat)
    requires TypedExpr(l) && TypedExpr(r) && IsU64(size) && ElementAt(l, r, size).Some?
    ensures TypedExpr(ElementAt(l, r, size).value) && ElementAt(l, r, size).value.ctype.PointerT?
  {
    hide PointerPlus;
    if l.ctype.PointerT? {
      PointerPlusIsTyped(l, r, size);
    } else {
      PointerPlusIsTyped(r, l, size);
    }
    assert PointerPlus(l, r, size).ctype.PointerT? && PointerPlus(r, l, size).ctype.PointerT? by { SumIsPointer(l, r, size); SumIsPointer(r, l, size); }
  }

  lemma {:induction false} SumIsPointer(l: Expr, r: Expr, size: nat)
    ensures PointerPlus(l, r, size).ctype.PointerT?
  {}

  /** Whatever is analyzed without an error is `Typed`. */
  lemma {:induction false} AnalyzedIsTyped(s: Source)
    requires Analyze(s).Some?
    ensures TypedValue(Analyze(s).value) && TypedExpr(Rval(Analyze(s).value))
    decreases s, 2
  {
    hide Rval, Typed, IsZero;
    match s {
      case Constant(_) => LeafIsTyped(s);
      case EnumConstant(_) => LeafIsTyped(s);
      case SizeofType(_) => LeafIsTyped(s);
      case Name(_, _) => LeafIsTyped(s);
      case CallTo(_, args, params, _) =>
        ArgsAreTyped(args, params);
        CallIsTyped(s);
      case Choose(_, _, _) => ChoiceIsTyped(s);
      case Indirect(_, _) => PlaceIsTyped(s);
      case AddressOf(_) => PlaceIsTyped(s);
      case PostIncrement(_, _) => PlaceIsTyped(s);
      case Plus(_) => UnaryIsTyped(s);
      case Minus(_) => UnaryIsTyped(s);
      case Complement(_) => UnaryIsTyped(s);
      case Not(_) => UnaryIsTyped(s);
      case CastTo(_, _) => UnaryIsTyped(s);
      case AddOrSub(_, _, _, _) => SumIsTyped(s);
      case AssignTo(_, _) => AssignmentIsTyped(s);
      case _ => BinaryIsTyped(s);
    }
    RvalIsTyped(Analyze(s).value);
  }

  lemma {:induction false} LeafIsTyped(s: Source)
    requires s.Constant? || s.EnumConstant? || s.SizeofType? || s.Name?
    requires Analyze(s).Some?
    ensures TypedValue(Analyze(s).value)
  {}

  lemma {:induction false} CallIsTyped(s: Source)
    requires s.CallTo? && Analyze(s).Some?
    requires forall i :: 0 <= i < |s.args| ==> Typed(AnalyzeArgs(s.args, s.params).value[i])
    ensures TypedValue(Analyze(s).value)
  {}

  lemma {:induction false} ChoiceIsTyped(s: Source)
    requires s.Choose? && Analyze(s).Some?
    ensures TypedValue(Analyze(s).value)
    decreases s, 1
  {
    hide Rval, Truthy, Chosen, Typed;
    AnalyzedIsTyped(s.cond);
    AnalyzedIsTyped(s.thn);
    AnalyzedIsTyped(s.els);
    var c := Rval(Analyze(s.cond).value);
    TruthyIsTyped(c);
    ChosenIsTyped(Truthy(c), Rval(Analyze(s.thn).value), Rval(Analyze(s.els).value));
  }

  lemma {:induction false} PlaceIsTyped(s: Source)
    requires s.Indirect? || s.AddressOf? || s.PostIncrement?
    requires Analyze(s).Some?
    ensures TypedValue(Analyze(s).value)
    decreases s, 1
  {
    hide Rval;
    AnalyzedIsTyped(s.x);
  }

  lemma {:induction false} UnaryIsTyped(s: Source)
    requires s.Plus? || s.Minus? || s.Complement? || s.Not? || s.CastTo?
    requires Analyze(s).Some?
    ensures TypedValue(Analyze(s).value)
    decreases s, 1
  {
    hide Rval, LogicalNot, Promote, Truthy, ImplicitCast;
    AnalyzedIsTyped(s.x);
    var x := Rval(Analyze(s.x).value);
    match s
    case Not(_) => LogicalNotIsTyped(x);
    case CastTo(_, _) =>
    case _ => PromotionIsTyped(x);
  }

  lemma {:induction false} SumIsTyped(s: Source)
    requires s.AddOrSub? && Analyze(s).Some?
    ensures TypedValue(Analyze(s).value)
    decreases s, 1
  {
    hide Rval, Promoting, PointerPlus, TypedValue;
    AnalyzedIsTyped(s.left);
    AnalyzedIsTyped(s.right);
    AdditiveIsTyped(s.isAdd, Analyze(s.left).value, Analyze(s.right).value, s.size);
  }

  lemma {:induction false} AssignmentIsTyped(s: Source)
    requires s.AssignTo? && Analyze(s).Some?
    ensures TypedValue(Analyze(s).value)
    decreases s, 1
  {
    hide Rval, ImplicitCast;
    AnalyzedIsTyped(s.left);
    AnalyzedIsTyped(s.right);
    CastIsTyped(Rval(Analyze(s.right).value), Analyze(s.left).value.place.value);
  }

  lemma {:induction false} BinaryIsTyped(s: Source)
    requires s.IntegerOp? || s.Multiply? || s.Relation? || s.Connect? || s.Sequence? || s.Element?
    requires Analyze(s).Some?
    ensures TypedValue(Analyze(s).value)
    decreases s, 1
  {
    hide Rval, Promoting, Relational, Connected, ElementAt, IsZero, Typed;
    AnalyzedIsTyped(s.left);
    AnalyzedIsTyped(s.right);
    var l, r := Rval(Analyze(s.left).value), Rval(Analyze(s.right).value);
    match s
    case IntegerOp(op, _, _) => PromotingIsTyped(op, l, r, None);
    case Multiply(op, _, _) => PromotingIsTyped(op, l, r, None);
    case Relation(c, _, _) => RelationIsTyped(c, l, r);
    case Connect(isOr, _, _) => ConnectedIsTyped(isOr, l, r);
    case Element(_, _, _, size) => ElementIsTyped(l, r, size);
    case Sequence(_, _) => CommaIsTyped(Analyze(s.left).value.e, r);
  }

  lemma {:induction false} CommaIsTyped(l: Expr, r: Expr)
    requires Typed(l) && TypedExpr(r)
    ensures TypedExpr(Expr(Comma(l, r), r.ctype))
  {}

  lemma {:induction false} ArgsAreTyped(args: seq<Source>, params: seq<CType>)
    requires |args| == |params| && AnalyzeArgs(args, params).Some?
    ensures forall i :: 0 <= i < |args| ==> Typed(AnalyzeArgs(args, params).value[i])
    decreases args
  {
    hide Rval, ImplicitCast, Typed;
    if args != [] {
      AnalyzedIsTyped(args[0]);
      CastIsTyped(Rval(Analyze(args[0]).value), params[0]);
      ArgsAreTyped(args[1..], params[1..]);
    }
  }

  // ---------- what it means ----------

  lemma {:induction false} ZeroMeans(t: CType, env: Ir.Environment, h: Ir.History)
    requires IsType(t)
    ensures Eval(ImplicitCast(ZERO, t).value, env, h) == Some((0, h))
  {
    hide Pow2;
    assert Pow2(31) > 0 && Eval(ZERO, env, h) == Some((0, h));
    assert Converted(0, t) == 0 && InType(0, t);
  }

  lemma {:induction false} CompareMeans(c: CompareOp, x: Expr, zero: Expr, env: Ir.Environment, h: Ir.History)
    requires forall h :: Eval(zero, env, h) == Some((0, h))
    ensures Eval(Expr(Binary(Compare(c), x, zero), BoolT), env, h) ==
            match Eval(x, env, h)
            case None => None
            case Some((a, h1)) => Some((CompareInts(c, a, 0).i, h1))
  {}

  /** `truthy` asks what its operand asks, and gives whether that is not 0. */
  lemma {:induction false} TruthyMeans(x: Expr, env: Ir.Environment, h: Ir.History)
    requires IsType(x.ctype) && !x.ctype.BoolT?
    ensures Eval(Truthy(x), env, h) ==
            match Eval(x, env, h)
            case None => None
            case Some((a, h1)) => Some((Truth(a != 0), h1))
  {
    hide Eval;
    forall h ensures Eval(ImplicitCast(ZERO, x.ctype).value, env, h) == Some((0, h)) { ZeroMeans(x.ctype, env, h); }
    CompareMeans(NotEqual, x, ImplicitCast(ZERO, x.ctype).value, env, h);
  }

  /** `!x` asks what `x` asks, and gives whether that is 0: section 6.5.3.3 of C11. */
  lemma {:induction false} LogicalNotMeans(x: Expr, env: Ir.Environment, h: Ir.History)
    requires IsType(x.ctype)
    ensures Eval(LogicalNot(x), env, h) ==
            match Eval(x, env, h)
            case None => None
            case Some((a, h1)) => Some((Truth(a == 0), h1))
  {
    hide Eval;
    forall h ensures Eval(ImplicitCast(ZERO, BoolT).value, env, h) == Some((0, h)) { ZeroMeans(BoolT, env, h); }
    CompareMeans(EqualEqual, Truthy(x), ImplicitCast(ZERO, BoolT).value, env, h);
    if !x.ctype.BoolT? {
      TruthyMeans(x, env, h);
    }
  }

  /** `p - i` is analyzed as `p + i`. */
  lemma {:induction false} MinusIsPlus(p: Source, i: Source, size: nat)
    requires Analyze(p).Some? && Analyze(i).Some?
    requires Rval(Analyze(p).value).ctype.PointerT? && !Rval(Analyze(i).value).ctype.PointerT?
    ensures Analyze(AddOrSub(false, p, i, size)) == Analyze(AddOrSub(true, p, i, size))
  {}
}
