/** The folder keeps meanings, gives typed and stable results, and never panics. */
module FoldTheorems {
  import opened Wrappers
  import opened Integers
  import opened Folding
  import Ir

  // ---------- arithmetic ----------

  lemma {:induction false} PowersOfTwo()
    ensures Pow2(7) == 128 && Pow2(15) == 0x8000 && Pow2(31) == 0x8000_0000
    ensures Pow2(63) == TWO_TO_THE_63 && Pow2(64) == TWO_TO_THE_64
  {
    assert Pow2(8) == 256;
    assert Pow2(16) == 0x1_0000;
    assert Pow2(24) == 0x100_0000;
    assert Pow2(32) == 0x1_0000_0000;
    assert Pow2(40) == 0x100_0000_0000;
    assert Pow2(48) == 0x1_0000_0000_0000;
    assert Pow2(56) == 0x100_0000_0000_0000;
  }

  lemma {:induction false} SignedFits(x: int, t: CType)
    requires InType(x, t) && t.SignedInt?
    ensures IsI64(x)
  {
    PowersOfTwo();
  }

  lemma {:induction false} RemainderFits(a: int, b: int)
    requires b != 0
    ensures Abs(Remainder(a, b)) < Abs(b) && Abs(Quotient(a, b)) <= Abs(a)
    ensures a >= 0 && b > 0 ==> Remainder(a, b) >= 0 && Quotient(a, b) >= 0
  {
    var p: int, q: int := Abs(a), Abs(b);
    var k: int := p / q;
    DivideFits(p, q);
    SignsOut(a, b, p, q, k, p % q);
  }

  lemma {:induction false} SignsOut(a: int, b: int, p: int, q: int, k: int, m: int)
    requires b != 0 && p == Abs(a) && q == Abs(b) && k == p / q && p == q * k + m && 0 <= m < q
    ensures Abs(Remainder(a, b)) == m && (a >= 0 && b > 0 ==> Remainder(a, b) == m)
  {
    var x: int := Quotient(a, b);
    if b > 0 {
      assert x == k || x == -k;
      assert b * k == q * k && b * -k == -(q * k);
    } else {
      assert x == k || x == -k;
      assert b * k == -(q * k) && b * -k == q * k;
    }
  }

  // ---------- types ----------

  lemma {:induction false} FoldTyped(e: Expr)
    requires Typed(e) && Fold(e).Ok?
    ensures Typed(Fold(e).value)
    decreases Size(e), 1
  {
    match e.kind
    case Negate(x) =>
      FoldTyped(x);
      NegateTyped(Fold(x).value, e.ctype);
    case BitwiseNot(x) =>
      FoldTyped(x);
      NotTyped(Fold(x).value, e.ctype);
    case Cast(x) =>
      FoldTyped(x);
      CastTyped(Fold(x).value, e.ctype);
    case Noop(x) => FoldTyped(x);
    case Deref(x, _) => FoldTyped(x);
    case Comma(l, r) =>
      FoldTyped(l);
      FoldTyped(r);
      TypedAs(Fold(r).value, e.ctype);
    case Ternary(c, t, f) =>
      FoldTyped(c);
      FoldTyped(t);
      FoldTyped(f);
      PrunedTyped(Fold(c).value, Fold(t).value, Fold(f).value, e.ctype);
    case Opaque(_, args) => ArgsTyped(args);
    case Binary(op, l, r) => BinaryTyped(op, l, r, e.ctype);
    case _ =>
  }

  lemma {:induction false} TypedAs(x: Expr, t: CType)
    requires Typed(x) && x.ctype == t
    ensures Expr(x.kind, t) == x
  {}

  lemma {:induction false} PrunedTyped(c: Expr, t: Expr, f: Expr, ctype: CType)
    requires Typed(c) && c.ctype.BoolT? && Typed(t) && Typed(f) && t.ctype == f.ctype == ctype
    ensures Typed(Expr(Pruned(c, t, f), ctype))
  {
    TypedAs(t, ctype);
    TypedAs(f, ctype);
  }

  lemma {:induction false} ArgsTyped(args: seq<Expr>)
    requires (forall i :: 0 <= i < |args| ==> Typed(args[i])) && FoldArgs(args).Ok?
    ensures forall i :: 0 <= i < |args| ==> Typed(FoldArgs(args).value[i])
    decreases ArgsSize(args), 2, |args|
  {
    if args != [] {
      FoldTyped(args[0]);
      ArgsTyped(args[1..]);
    }
  }

  lemma {:induction false} NegateTyped(x: Expr, t: CType)
    requires Typed(x) && x.ctype == t && Arithmetic(t) && NegateLiteral(x, t).Ok?
    ensures Typed(NegateLiteral(x, t).value)
  {}

  lemma {:induction false} NotTyped(x: Expr, t: CType)
    requires Typed(x) && x.ctype == t && Arithmetic(t)
    ensures Typed(NotLiteral(x, t))
  {}

  lemma {:induction false} CastTyped(x: Expr, t: CType)
    requires Typed(x) && (t.SignedInt? ==> t.bytes in {1, 2, 4, 8})
    ensures Typed(CastLiteral(x, t))
  {}

  lemma {:induction false} BinaryTyped(op: BinaryOp, l: Expr, r: Expr, t: CType)
    requires Typed(Expr(Binary(op, l, r), t)) && FoldBinary(op, l, r, t).Ok?
    ensures Typed(FoldBinary(op, l, r, t).value)
    decreases Size(l) + Size(r), 2
  {
    FoldTyped(l);
    FoldTyped(r);
    var l1, r1 := Fold(l).value, Fold(r).value;
    if !op.Assign? {
      FoldTyped(l1);
      FoldTyped(r1);
      CombineTyped(op, Fold(l1).value, Fold(r1).value, t);
    }
  }

  lemma {:induction false} CombineTyped(op: BinaryOp, l: Expr, r: Expr, t: CType)
    requires Typed(Expr(Binary(op, l, r), t)) && !op.Assign? && Combine(op, l, r, t).Ok?
    ensures Typed(Combine(op, l, r, t).value)
  {
    if op.Shl? || op.Shr? {
      ShiftsTyped(op, l, r, t);
    } else if l.kind.Literal? && r.kind.Literal? && LiteralOp(op, l.kind.v, r.kind.v).value.Some? {
      LiteralOpTyped(op, l, r, t);
    }
  }

  lemma {:induction false} ShiftsTyped(op: BinaryOp, l: Expr, r: Expr, t: CType)
    requires Typed(Expr(Binary(op, l, r), t)) && (op.Shl? || op.Shr?) && Combine(op, l, r, t).Ok?
    ensures Typed(Combine(op, l, r, t).value)
  {
    if op.Shr? && r.kind.Literal? && l.kind.Literal? && NonNegative(r.kind.v).Some? {
      var p := Pow2(NonNegative(r.kind.v).value);
      match l.kind.v
      case Int(i) => DivideFits(i, p);
      case UnsignedInt(u) => DivideFits(u, p);
      case _ =>
    }
  }

  lemma {:induction false} LiteralOpTyped(op: BinaryOp, l: Expr, r: Expr, t: CType)
    requires Typed(Expr(Binary(op, l, r), t)) && !op.Assign? && !op.Shl? && !op.Shr?
    requires l.kind.Literal? && r.kind.Literal? && LiteralOp(op, l.kind.v, r.kind.v).Ok?
    requires LiteralOp(op, l.kind.v, r.kind.v).value.Some?
    ensures LiteralTyped(LiteralOp(op, l.kind.v, r.kind.v).value.value, t)
  {
    hide Pow2, UnsignedOp;
    var a, b := l.kind.v, r.kind.v;
    PowersOfTwo();
    if a.Int? && b.Int? && !op.LogicalAnd? && !op.LogicalOr? {
      SignedTyped(op, a.i, b.i);
    } else if a.UnsignedInt? && b.UnsignedInt? && !op.LogicalAnd? && !op.LogicalOr? {
      UnsignedTyped(op, a.u, b.u);
    }
  }

  lemma {:induction false} SignedTyped(op: BinaryOp, x: int, y: int)
    requires IsI64(x) && IsI64(y) && SignedOp(op, x, y).Ok? && SignedOp(op, x, y).value.Some?
    ensures var v := SignedOp(op, x, y).value.value; v.Int? && IsI64(v.i)
  {
    PowersOfTwo();
    match op
    case Mod => if y != 0 { RemainderFits(x, y); }
    case Bits(b) => BitwiseFits(b, x, y, 63);
    case _ =>
  }

  lemma {:induction false} UnsignedTyped(op: BinaryOp, x: int, y: int)
    requires IsU64(x) && IsU64(y) && UnsignedOp(op, x, y).Ok? && UnsignedOp(op, x, y).value.Some?
    ensures var v := UnsignedOp(op, x, y).value.value;
            if op.Compare? then v.Int? && IsI64(v.i) else v.UnsignedInt? && IsU64(v.u)
  {
    PowersOfTwo();
    if y != 0 {
      RemainderFits(x, y);
    }
    if op.Bits? {
      BitwiseFits(op.bits, x, y, 64);
    }
  }

  // ---------- stability ----------

  /** Folding what is folded changes nothing. */
  lemma {:induction false} FoldStable(e: Expr)
    requires Typed(e) && Fold(e).Ok?
    ensures Fold(Fold(e).value) == Fold(e)
    decreases Size(e), 1
  {
    match e.kind
    case Negate(x) => FoldStable(x);
    case BitwiseNot(x) => FoldStable(x);
    case Cast(x) => FoldStable(x);
    case Noop(x) => FoldStable(x);
    case Deref(x, _) => FoldStable(x);
    case Comma(l, r) =>
      FoldStable(l);
      FoldStable(r);
      FoldTyped(r);
      TypedAs(Fold(r).value, e.ctype);
    case Ternary(c, t, f) =>
      FoldStable(c);
      FoldStable(t);
      FoldStable(f);
      TernaryStable(Fold(c).value, Fold(t).value, Fold(f).value, e.ctype);
    case Opaque(_, args) => ArgsStable(args);
    case Binary(op, l, r) => BinaryStable(op, l, r, e.ctype);
    case _ =>
  }

  lemma {:induction false} TernaryStable(c: Expr, t: Expr, f: Expr, ctype: CType)
    requires Fold(c) == Ok(c) && Fold(t) == Ok(t) && Fold(f) == Ok(f) && t.ctype == f.ctype == ctype
    ensures var r := Expr(Pruned(c, t, f), ctype); Fold(r) == Ok(r)
  {
    assert Expr(t.kind, ctype) == t && Expr(f.kind, ctype) == f;
  }

  lemma {:induction false} ArgsStable(args: seq<Expr>)
    requires (forall i :: 0 <= i < |args| ==> Typed(args[i])) && FoldArgs(args).Ok?
    ensures FoldArgs(FoldArgs(args).value) == FoldArgs(args)
    decreases ArgsSize(args), 2, |args|
  {
    if args != [] {
      FoldStable(args[0]);
      ArgsStable(args[1..]);
      var first, more := Fold(args[0]).value, FoldArgs(args[1..]).value;
      assert ([first] + more)[1..] == more;
    }
  }

  lemma {:induction false} BinaryStable(op: BinaryOp, l: Expr, r: Expr, t: CType)
    requires Typed(Expr(Binary(op, l, r), t)) && FoldBinary(op, l, r, t).Ok?
    ensures var f := FoldBinary(op, l, r, t).value; Fold(f) == Ok(f)
    decreases Size(l) + Size(r), 2
  {
    FoldStable(l);
    FoldStable(r);
    CombineStable(op, Fold(l).value, Fold(r).value, t);
  }

  lemma {:induction false} CombineStable(op: BinaryOp, l: Expr, r: Expr, t: CType)
    requires Fold(l) == Ok(l) && Fold(r) == Ok(r) && FoldBinary(op, l, r, t).Ok?
    ensures var f := FoldBinary(op, l, r, t).value; Fold(f) == Ok(f)
  {
    var f := FoldBinary(op, l, r, t).value;
    assert f.kind.Literal? || f == Expr(Binary(op, l, r), t);
  }

  /** Hence the operands of an operator are folded once and for all. */
  lemma {:induction false} FoldsOnce(op: BinaryOp, l: Expr, r: Expr, t: CType)
    requires Typed(l) && Typed(r) && Fold(l).Ok? && Fold(r).Ok? && !op.Assign?
    ensures FoldBinary(op, l, r, t) ==
            if (op.Mod? || (op.Div? && IsIntegral(r.ctype))) && IsZero(Fold(r).value) then Err(DivideByZero)
            else Combine(op, Fold(l).value, Fold(r).value, t)
  {
    FoldStable(l);
    FoldStable(r);
  }

  // ---------- no panic ----------

  /** No division by zero, and no shift of what cannot be shifted, is ever reached. */
  lemma {:induction false} NeverPanics(e: Expr)
    requires Typed(e)
    ensures Fold(e) != Err(Panic)
    decreases Size(e), 1
  {
    match e.kind
    case Negate(x) => NeverPanics(x);
    case BitwiseNot(x) => NeverPanics(x);
    case Cast(x) => NeverPanics(x);
    case Noop(x) => NeverPanics(x);
    case Deref(x, _) => NeverPanics(x);
    case Comma(l, r) =>
      NeverPanics(l);
      NeverPanics(r);
    case Ternary(c, t, f) =>
      NeverPanics(c);
      NeverPanics(t);
      NeverPanics(f);
    case Opaque(_, args) => ArgsNeverPanic(args);
    case Binary(op, l, r) =>
      NeverPanics(l);
      NeverPanics(r);
      if Fold(l).Ok? && Fold(r).Ok? && !op.Assign? {
        FoldsOnce(op, l, r, e.ctype);
        FoldTyped(l);
        FoldTyped(r);
        if !((op.Div? || op.Mod?) && IsZero(Fold(r).value)) {
          CombineNeverPanics(op, Fold(l).value, Fold(r).value, e.ctype);
        }
      }
    case _ =>
  }

  lemma {:induction false} ArgsNeverPanic(args: seq<Expr>)
    requires forall i :: 0 <= i < |args| ==> Typed(args[i])
    ensures FoldArgs(args) != Err(Panic)
    decreases ArgsSize(args), 2, |args|
  {
    if args != [] {
      NeverPanics(args[0]);
      ArgsNeverPanic(args[1..]);
    }
  }

  lemma {:induction false} CombineNeverPanics(op: BinaryOp, l: Expr, r: Expr, t: CType)
    requires Typed(Expr(Binary(op, l, r), t)) && !op.Assign? && (op.Div? || op.Mod? ==> !IsZero(r))
    ensures Combine(op, l, r, t) != Err(Panic)
  {}

  // ---------- meaning ----------

  /** What the folder gets wrong, in terms of the operands as they are folded: a right
      shift by as many bits as the type has bytes or more, unless the result is 0 anyway,
      and a conversion of a constant that does not fit (see `CastFits`). (A shift by the
      width of the type has no value at all.) */
  predicate Sane(e: Expr)
    decreases e
  {
    match e.kind
    case Negate(x) => Sane(x)
    case BitwiseNot(x) => Sane(x)
    case Cast(x) => Sane(x) && (Fold(x).Ok? ==> SaneCast(Fold(x).value, e.ctype))
    case Noop(x) => Sane(x)
    case Deref(x, _) => Sane(x)
    case Comma(l, r) => Sane(l) && Sane(r)
    case Ternary(c, t, f) => Sane(c) && Sane(t) && Sane(f)
    case Opaque(_, args) => forall i :: 0 <= i < |args| ==> Sane(args[i])
    case Binary(op, l, r) =>
      && Sane(l) && Sane(r)
      && (op.Shr? && Fold(l).Ok? && Fold(r).Ok? ==> SaneShift(Fold(l).value, Fold(r).value, e.ctype))
    case _ => true
  }

  /** Conversions to signed types do not drop the upper bits, and a character above 127 is
      taken as unsigned. */
  predicate CastFits(v: LiteralValue, t: CType) {
    match v
    case Int(i) => t.SignedInt? ==> InType(i, t)
    case UnsignedInt(u) => t.SignedInt? ==> InType(WrapI64(u), t)
    case Char(c) => c < 128 || t.BoolT?
    case Str(_) => true
  }

  predicate SaneCast(x: Expr, t: CType) {
    x.kind.Literal? ==> CastFits(x.kind.v, t)
  }

  predicate ShiftsFar(count: Expr, t: CType) {
    count.kind.Literal? && NonNegative(count.kind.v).Some? && NonNegative(count.kind.v).value >= SizeOf(t)
  }

  predicate SaneShift(l: Expr, count: Expr, t: CType) {
    ShiftsFar(count, t) ==>
      var n := NonNegative(count.kind.v).value;
      n >= 8 * SizeOf(t) || (l.kind.Literal? && 0 <= LiteralMeaning(l.kind.v) < Pow2(n))
  }

  /** `f` means what `e` means wherever that is defined. */
  predicate Agrees(f: Expr, e: Expr, env: Ir.Environment, h: Ir.History) {
    Eval(e, env, h).Some? ==> Eval(f, env, h) == Eval(e, env, h)
  }

  /** Folding keeps the value and everything asked of the environment, in every
      environment in which C gives the expression a value. */
  lemma {:induction false} FoldKeepsMeaning(e: Expr, env: Ir.Environment, h: Ir.History)
    requires Typed(e) && Sane(e) && Fold(e).Ok?
    ensures Agrees(Fold(e).value, e, env, h)
    decreases Size(e), 1
  {
    hide NegateLiteral, NotLiteral, CastLiteral, FoldBinary, Pow2, InType;
    if Eval(e, env, h).Some? {
      match e.kind
      case Negate(x) =>
        FoldKeepsMeaning(x, env, h);
        FoldTyped(x);
        NegateMeans(x, Fold(x).value, e.ctype, env, h);
      case BitwiseNot(x) =>
        FoldKeepsMeaning(x, env, h);
        FoldTyped(x);
        NotMeans(x, Fold(x).value, e.ctype, env, h);
      case Cast(x) =>
        FoldKeepsMeaning(x, env, h);
        FoldTyped(x);
        CastMeans(x, Fold(x).value, e.ctype, env, h);
      case Noop(x) => FoldKeepsMeaning(x, env, h);
      case Deref(x, _) => FoldKeepsMeaning(x, env, h);
      case Comma(l, r) =>
        FoldKeepsMeaning(l, env, h);
        FoldKeepsMeaning(r, env, Eval(l, env, h).value.1);
      case Ternary(c, t, f) =>
        FoldKeepsMeaning(c, env, h);
        var (a, h1) := Eval(c, env, h).value;
        FoldKeepsMeaning(t, env, h1);
        FoldKeepsMeaning(f, env, h1);
      case Opaque(_, args) => ArgsKeepMeaning(args, env, h);
      case Binary(op, l, r) => BinaryKeepsMeaning(op, l, r, e.ctype, env, h);
      case _ =>
    }
  }

  lemma {:induction false} ArgsKeepMeaning(args: seq<Expr>, env: Ir.Environment, h: Ir.History)
    requires forall i :: 0 <= i < |args| ==> Typed(args[i]) && Sane(args[i])
    requires FoldArgs(args).Ok? && EvalArgs(args, env, h).Some?
    ensures EvalArgs(FoldArgs(args).value, env, h) == EvalArgs(args, env, h)
    decreases ArgsSize(args), 2, |args|
  {
    if args != [] {
      FoldKeepsMeaning(args[0], env, h);
      ArgsKeepMeaning(args[1..], env, Eval(args[0], env, h).value.1);
      var first, more := Fold(args[0]).value, FoldArgs(args[1..]).value;
      assert ([first] + more)[1..] == more;
    }
  }

  lemma {:induction false} NegateMeans(x: Expr, f: Expr, t: CType, env: Ir.Environment, h: Ir.History)
    requires Typed(f) && f.ctype == t && Arithmetic(t) && Eval(Expr(Negate(x), t), env, h).Some?
    requires Eval(f, env, h) == Eval(x, env, h) && NegateLiteral(f, t).Ok?
    ensures Agrees(NegateLiteral(f, t).value, Expr(Negate(x), t), env, h)
  {}

  lemma {:induction false} NotMeans(x: Expr, f: Expr, t: CType, env: Ir.Environment, h: Ir.History)
    requires Typed(f) && f.ctype == t && Arithmetic(t) && Eval(Expr(BitwiseNot(x), t), env, h).Some?
    requires Eval(f, env, h) == Eval(x, env, h)
    ensures Agrees(NotLiteral(f, t), Expr(BitwiseNot(x), t), env, h)
  {
    hide Pow2, Size;
  }

  lemma {:induction false} CastMeans(x: Expr, f: Expr, t: CType, env: Ir.Environment, h: Ir.History)
    requires Typed(f) && Eval(Expr(Cast(x), t), env, h).Some?
    requires Eval(f, env, h) == Eval(x, env, h) && SaneCast(f, t)
    ensures Agrees(CastLiteral(f, t), Expr(Cast(x), t), env, h)
  {
    hide Pow2, Converted, Size, Fold;
    if f.kind.Literal? && ConstCast(f.kind.v, t).Some? {
      assert Eval(x, env, h) == Some((LiteralMeaning(f.kind.v), h));
      LiteralCast(f.kind.v, f.ctype, t);
    }
  }

  /** Where a constant is converted, the result is what the conversion gives exactly when
      the constant fits. */
  lemma {:induction false} LiteralCast(v: LiteralValue, s: CType, t: CType)
    requires LiteralTyped(v, s) && ConstCast(v, t).Some? && (t.SignedInt? ==> t.bytes in {1, 2, 4, 8})
    ensures InType(Converted(LiteralMeaning(v), t), t)
    ensures CastFits(v, t) <==>
            InType(LiteralMeaning(ConstCast(v, t).value), t) &&
            LiteralMeaning(ConstCast(v, t).value) == Converted(LiteralMeaning(v), t)
  {
    hide Pow2;
    PowersOfTwo();
    if t.SignedInt? {
      match v
      case Int(i) => WrappedSmall(i, t.bytes);
      case UnsignedInt(u) =>
        WrappedSmall(WrapI64(u), t.bytes);
        WrappedTwice(u, t.bytes);
      case Char(c) => WrappedSmall(LiteralMeaning(v), t.bytes);
    }
  }

  /** What is in range is kept, and nothing else is. */
  lemma {:induction false} WrappedSmall(x: int, bytes: nat)
    requires bytes in {1, 2, 4, 8}
    ensures InType(Wrapped(x, bytes), SignedInt(bytes))
    ensures InType(x, SignedInt(bytes)) <==> Wrapped(x, bytes) == x
  {
    hide Pow2;
    PowersOfTwo();
  }

  /** Dropping more bits at once is the same. */
  lemma {:induction false} WrappedTwice(x: int, bytes: nat)
    requires bytes in {1, 2, 4, 8}
    ensures Wrapped(WrapI64(x), bytes) == Wrapped(x, bytes)
  {
    var k := (x + TWO_TO_THE_63) / TWO_TO_THE_64;
    assert WrapI64(x) == x - k * TWO_TO_THE_64;
    match bytes
    case 1 => DropMultiple(x + 0x80, 0x100, k * 0x100_0000_0000_0000);
    case 2 => DropMultiple(x + 0x8000, 0x1_0000, k * 0x1_0000_0000_0000);
    case 4 => DropMultiple(x + 0x8000_0000, 0x1_0000_0000, k * 0x1_0000_0000);
    case _ => WrapI64Small(WrapI64(x));
  }

  lemma {:induction false} DropMultiple(x: int, p: int, q: int)
    requires p > 0
    ensures (x - p * q) % p == x % p
  {
    DivideIs(x - p * q, p, x / p - q, x % p);
  }

  lemma {:induction false} BinaryKeepsMeaning(op: BinaryOp, l: Expr, r: Expr, t: CType, env: Ir.Environment, h: Ir.History)
    requires var e := Expr(Binary(op, l, r), t); Typed(e) && Sane(e) && Fold(e).Ok? && Eval(e, env, h).Some?
    ensures Agrees(FoldBinary(op, l, r, t).value, Expr(Binary(op, l, r), t), env, h)
    decreases Size(l) + Size(r), 2
  {
    var e := Expr(Binary(op, l, r), t);
    FoldKeepsMeaning(l, env, h);
    FoldKeepsMeaning(r, env, Eval(l, env, h).value.1);
    var l1, r1 := Fold(l).value, Fold(r).value;
    FoldTyped(l);
    FoldTyped(r);
    OperandsFolded(op, l, r, l1, r1, t, env, h);
    if !op.Assign? {
      FoldsOnce(op, l, r, t);
      CombineMeans(op, l1, r1, t, env, h);
    }
  }

  lemma {:induction false} OperandsFolded(op: BinaryOp, l: Expr, r: Expr, l1: Expr, r1: Expr, t: CType,
                                          env: Ir.Environment, h: Ir.History)
    requires Eval(Expr(Binary(op, l, r), t), env, h).Some?
    requires Eval(l1, env, h) == Eval(l, env, h) && Agrees(r1, r, env, Eval(l, env, h).value.1)
    ensures Eval(Expr(Binary(op, l1, r1), t), env, h) == Eval(Expr(Binary(op, l, r), t), env, h)
  {}

  lemma {:induction false} CombineMeans(op: BinaryOp, l: Expr, r: Expr, t: CType, env: Ir.Environment, h: Ir.History)
    requires var e := Expr(Binary(op, l, r), t); Typed(e) && !op.Assign? && Eval(e, env, h).Some?
    requires Combine(op, l, r, t).Ok? && (op.Shr? ==> SaneShift(l, r, t))
    ensures Agrees(Combine(op, l, r, t).value, Expr(Binary(op, l, r), t), env, h)
  {
    if op.Shl? {
      ShlMeans(l, r, t, env, h);
    } else if op.LogicalAnd? || op.LogicalOr? {
    } else if op.Shr? && ShiftsFar(r, t) {
      FarIsZero(l, r, t, env, h);
    } else if l.kind.Literal? && r.kind.Literal? {
      LiteralsMean(op, l, r, t, env, h);
    }
  }

  lemma {:induction false} FarIsZero(l: Expr, r: Expr, t: CType, env: Ir.Environment, h: Ir.History)
    requires var e := Expr(Binary(Shr, l, r), t); Typed(e) && Eval(e, env, h).Some?
    requires ShiftsFar(r, t) && SaneShift(l, r, t)
    ensures Agrees(ShiftRight(l, r, t).value, Expr(Binary(Shr, l, r), t), env, h)
  {
    hide Pow2;
    var n := NonNegative(r.kind.v).value;
    assert LiteralMeaning(r.kind.v) == n;
    ZeroQuotient(LiteralMeaning(l.kind.v), Pow2(n));
    PowersOfTwo();
  }

  lemma {:induction false} LiteralsMean(op: BinaryOp, l: Expr, r: Expr, t: CType, env: Ir.Environment, h: Ir.History)
    requires var e := Expr(Binary(op, l, r), t); Typed(e) && Eval(e, env, h).Some?
    requires !op.Assign? && !op.Shl? && !op.LogicalAnd? && !op.LogicalOr?
    requires l.kind.Literal? && r.kind.Literal?
    requires Combine(op, l, r, t).Ok? && !(op.Shr? && ShiftsFar(r, t))
    ensures Agrees(Combine(op, l, r, t).value, Expr(Binary(op, l, r), t), env, h)
  {
    hide Pow2, Bitwise, InType;
    var (a, b) := (l.kind.v, r.kind.v);
    assert Eval(Expr(Binary(op, l, r), t), env, h) == Apply(op, LiteralMeaning(a), LiteralMeaning(b), t, env, h);
    if op.Shr? {
      assert NonNegative(b) == Some(LiteralMeaning(b));
    } else if a.Int? && b.Int? {
      SignedMeans(op, a.i, b.i, t, env, h);
    } else if a.UnsignedInt? && b.UnsignedInt? {
      UnsignedMeans(op, a.u, b.u, t, env, h);
    }
  }

  lemma {:induction false} SignedMeans(op: BinaryOp, x: int, y: int, t: CType, env: Ir.Environment, h: Ir.History)
    requires !op.Assign? && !op.Shl? && !op.Shr? && !op.LogicalAnd? && !op.LogicalOr?
    requires t.PointerT? ==> x == 0 && y == 0
    requires !t.ULongT? && Apply(op, x, y, t, env, h).Some? && SignedOp(op, x, y).Ok? && SignedOp(op, x, y).value.Some?
    ensures Apply(op, x, y, t, env, h) == Some((LiteralMeaning(SignedOp(op, x, y).value.value), h))
  {
    hide Pow2, Bitwise;
    if t.SignedInt? {
      SignedFits(Apply(op, x, y, t, env, h).value.0, t);
    }
  }

  lemma {:induction false} UnsignedMeans(op: BinaryOp, x: int, y: int, t: CType, env: Ir.Environment, h: Ir.History)
    requires !op.Assign? && !op.Shl? && !op.Shr? && !op.LogicalAnd? && !op.LogicalOr?
    requires (t.ULongT? || t.PointerT? || op.Compare?) && Apply(op, x, y, t, env, h).Some?
    requires UnsignedOp(op, x, y).Ok? && UnsignedOp(op, x, y).value.Some?
    ensures Apply(op, x, y, t, env, h) == Some((LiteralMeaning(UnsignedOp(op, x, y).value.value), h))
  {
    hide Pow2, Bitwise;
  }

  lemma {:induction false} ShlMeans(l: Expr, r: Expr, t: CType, env: Ir.Environment, h: Ir.History)
    requires var e := Expr(Binary(Shl, l, r), t); Typed(e) && Eval(e, env, h).Some? && ShiftLeft(l, r, t).Ok?
    ensures Agrees(ShiftLeft(l, r, t).value, Expr(Binary(Shl, l, r), t), env, h)
  {
    if l.kind.Literal? && r.kind.Literal? {
      var n := LiteralMeaning(r.kind.v);
      assert NonNegative(r.kind.v) == Some(n) && n < 64;
      if t.ULongT? {
        ShlUnsigned(l.kind.v.u, r, n, t, env, h);
      } else {
        ShlSigned(l.kind.v.i, r, n, t, env, h);
      }
    }
  }

  lemma {:induction false} ShlSigned(i: int, r: Expr, n: nat, t: CType, env: Ir.Environment, h: Ir.History)
    requires Arithmetic(t) && t.SignedInt? && n < 64 && r.kind.Literal? && NonNegative(r.kind.v) == Some(n)
    requires LiteralMeaning(r.kind.v) == n
    requires var e := Expr(Binary(Shl, Lit(Int(i), t), r), t); Eval(e, env, h).Some? && ShiftLeft(Lit(Int(i), t), r, t).Ok?
    ensures Agrees(ShiftLeft(Lit(Int(i), t), r, t).value, Expr(Binary(Shl, Lit(Int(i), t), r), t), env, h)
  {
    hide Pow2, InType;
    var e := Expr(Binary(Shl, Lit(Int(i), t), r), t);
    assert Eval(e, env, h) == In(i * Pow2(n), t, h);
    SignedFits(i * Pow2(n), t);
    WrapI64Small(i * Pow2(n));
    assert ShiftLeft(Lit(Int(i), t), r, t).value == Lit(Int(i * Pow2(n)), t);
  }

  lemma {:induction false} ShlUnsigned(u: int, r: Expr, n: nat, t: CType, env: Ir.Environment, h: Ir.History)
    requires t.ULongT? && n < 64 && r.kind.Literal? && NonNegative(r.kind.v) == Some(n)
    requires LiteralMeaning(r.kind.v) == n
    requires Eval(Expr(Binary(Shl, Lit(UnsignedInt(u), t), r), t), env, h).Some?
    ensures Agrees(ShiftLeft(Lit(UnsignedInt(u), t), r, t).value, Expr(Binary(Shl, Lit(UnsignedInt(u), t), r), t), env, h)
  {
    hide Pow2, InType;
    var e := Expr(Binary(Shl, Lit(UnsignedInt(u), t), r), t);
    assert Eval(e, env, h) == In(WrapU64(u * Pow2(n)), t, h);
    assert ShiftLeft(Lit(UnsignedInt(u), t), r, t).value == Lit(UnsignedInt(WrapU64(u * Pow2(n))), t);
  }

  // ---------- where it fails ----------

  /** Where a right shift by `n`, from the size in bytes on, has a value, its folded form
      has the same meaning exactly when the left operand asks nothing of the environment
      and no bit of it is left. */
  lemma {:induction false} FarShiftExactly(l: Expr, r: Expr, t: CType, n: nat, env: Ir.Environment, h: Ir.History)
    requires var e := Expr(Binary(Shr, l, r), t); Typed(e) && Fold(e).Ok? && Eval(e, env, h).Some?
    requires Sane(r) && Fold(r).Ok? && Fold(r).value.kind.Literal?
    requires NonNegative(Fold(r).value.kind.v) == Some(n) && n >= SizeOf(t)
    ensures var e := Expr(Binary(Shr, l, r), t);
            Eval(Fold(e).value, env, h) == Eval(e, env, h) <==>
            Eval(l, env, h).value.1 == h && 0 <= Eval(l, env, h).value.0 < Pow2(n)
  {
    hide Pow2, Bitwise;
    var (a, h1) := Eval(l, env, h).value;
    FoldTyped(r);
    FoldKeepsMeaning(r, env, h1);
    FoldsOnce(Shr, l, r, t);
    var zero := Lit(if IsSigned(t) then Int(0) else UnsignedInt(0), t);
    assert Fold(Expr(Binary(Shr, l, r), t)).value == zero;
    assert LiteralMeaning(Fold(r).value.kind.v) == n;
    assert Eval(r, env, h1) == Some((n, h1));
    assert Eval(Expr(Binary(Shr, l, r), t), env, h) == Some((a / Pow2(n), h1));
    PowersOfTwo();
    assert Eval(zero, env, h) == Some((0, h));
    ZeroQuotient(a, Pow2(n));
  }

  /** So a left operand that asks anything is lost, whatever it is. */
  lemma {:induction false} FarShiftLosesCalls(l: Expr, t: CType, n: nat, env: Ir.Environment, h: Ir.History)
    requires Arithmetic(t) && SizeOf(t) <= n < 8 * SizeOf(t) && Typed(l) && l.ctype == t && Fold(l).Ok?
    requires Eval(l, env, h).Some? && Eval(l, env, h).value.1 != h
    ensures var e := Expr(Binary(Shr, l, Lit(Int(n), SignedInt(4))), t);
            && Typed(e) && Fold(e).Ok? && Fold(e).value.kind.Literal?
            && (Eval(e, env, h).Some? ==> Eval(Fold(e).value, env, h) != Eval(e, env, h))
  {
    hide Pow2;
    var count := Lit(Int(n), SignedInt(4));
    assert Typed(count) && Fold(count) == Ok(count) && Sane(count);
    FoldsOnce(Shr, l, count, t);
    var e := Expr(Binary(Shr, l, count), t);
    if Eval(e, env, h).Some? {
      FarShiftExactly(l, count, t, n, env, h);
    }
  }

  /** A literal of either kind keeps its value exactly when it is below two to the count. */
  lemma {:induction false} FarShiftOfLiteral(v: LiteralValue, t: CType, n: nat, env: Ir.Environment, h: Ir.History)
    requires Arithmetic(t) && LiteralTyped(v, t) && InType(LiteralMeaning(v), t) && SizeOf(t) <= n < 8 * SizeOf(t)
    ensures var e := Expr(Binary(Shr, Lit(v, t), Lit(Int(n), SignedInt(4))), t);
            Typed(e) && Fold(e).Ok? && (Eval(Fold(e).value, env, h) == Eval(e, env, h) <==> 0 <= LiteralMeaning(v) < Pow2(n))
  {
    hide Pow2;
    PowersOfTwo();
    var l, count := Lit(v, t), Lit(Int(n), SignedInt(4));
    assert Fold(l) == Ok(l) && Fold(count) == Ok(count) && Sane(count) && Typed(l) && Typed(count);
    FoldsOnce(Shr, l, count, t);
    DivideFits(LiteralMeaning(v), Pow2(n));
    assert Eval(l, env, h) == Some((LiteralMeaning(v), h));
    FarShiftExactly(l, count, t, n, env, h);
  }

  lemma {:induction false} ZeroQuotient(i: int, p: int)
    requires p >= 1
    ensures i / p == 0 <==> 0 <= i < p
  {
    var q := i / p;
    assert i == p * q + i % p && 0 <= i % p < p;
    if q >= 1 {
      MulAtLeast(q, p);
    } else if q <= -1 {
      MulAtLeast(-q, p);
      assert (-q) * p == -(p * q);
    }
  }

  /** A conversion of what folds to a constant keeps its meaning exactly when the constant
      fits the type. */
  lemma {:induction false} CastExactly(x: Expr, t: CType, v: LiteralValue, env: Ir.Environment, h: Ir.History)
    requires var e := Expr(Cast(x), t); Typed(e) && Fold(e).Ok? && Eval(e, env, h).Some?
    requires Sane(x) && Fold(x).Ok? && Fold(x).value.kind == Literal(v)
    ensures var e := Expr(Cast(x), t); Eval(Fold(e).value, env, h) == Eval(e, env, h) <==> CastFits(v, t)
  {
    hide Pow2, Converted, Size;
    FoldTyped(x);
    FoldKeepsMeaning(x, env, h);
    assert Eval(x, env, h) == Some((LiteralMeaning(v), h));
    if ConstCast(v, t).Some? {
      LiteralCast(v, x.ctype, t);
    }
  }

  /** For the constant itself, over every type of either: a conversion has a value, and its
      folded form has the same one exactly when the constant fits. */
  lemma {:induction false} ConstantCast(v: LiteralValue, s: CType, t: CType, env: Ir.Environment, h: Ir.History)
    requires LiteralTyped(v, s) && InType(LiteralMeaning(v), s)
    requires (s.SignedInt? ==> s.bytes in {1, 2, 4, 8}) && (t.SignedInt? ==> t.bytes in {1, 2, 4, 8})
    ensures var e := Expr(Cast(Lit(v, s)), t);
            && Typed(e) && Fold(e).Ok? && Eval(e, env, h).Some?
            && (Eval(Fold(e).value, env, h) == Eval(e, env, h) <==> CastFits(v, t))
  {
    var x := Lit(v, s);
    assert Typed(x) && Fold(x) == Ok(x) && Sane(x);
    ConvertedFits(LiteralMeaning(v), t);
    CastExactly(x, t, v, env, h);
  }

  lemma {:induction false} ConvertedFits(x: int, t: CType)
    requires t.SignedInt? ==> t.bytes in {1, 2, 4, 8}
    ensures InType(Converted(x, t), t)
  {
    if t.SignedInt? {
      WrappedSmall(x, t.bytes);
    }
  }

  /** So an integer converted to a narrower type keeps its value exactly when it is in range. */
  lemma {:induction false} NarrowCastKeepsBits(i: int, bytes: nat, env: Ir.Environment, h: Ir.History)
    requires InType(i, SignedInt(8)) && bytes in {1, 2, 4}
    ensures var e := Expr(Cast(Lit(Int(i), SignedInt(8))), SignedInt(bytes));
            Fold(e).Ok? && (Eval(Fold(e).value, env, h) == Eval(e, env, h) <==> InType(i, SignedInt(bytes)))
  {
    SignedFits(i, SignedInt(8));
    ConstantCast(Int(i), SignedInt(8), SignedInt(bytes), env, h);
  }

  /** And a character keeps its value exactly when it is at most 127 or the type is `_Bool`. */
  lemma {:induction false} CharCastLosesSign(c: int, t: CType, env: Ir.Environment, h: Ir.History)
    requires 0 <= c < 256 && (t.SignedInt? ==> t.bytes in {1, 2, 4, 8})
    ensures var e := Expr(Cast(Lit(Char(c), CharT)), t);
            && Typed(e) && Fold(e).Ok? && Eval(e, env, h).Some?
            && (Eval(Fold(e).value, env, h) == Eval(e, env, h) <==> c < 128 || t.BoolT?)
  {
    ConstantCast(Char(c), CharT, t, env, h);
  }
}
