/** Typed expressions as the analyzer hands them on, what they mean, and the folder. */
module Folding {
  import opened Wrappers
  import opened Integers
  import Ir

  /** Signed integers by their size in bytes, `_Bool`, `char`, `unsigned long` and
      pointers. */
  datatype CType = SignedInt(bytes: nat) | BoolT | CharT | ULongT | PointerT

  datatype LiteralValue = Int(i: int) | UnsignedInt(u: int) | Char(c: int) | Str(s: nat)

  datatype CompareOp = Less | LessEqual | Greater | GreaterEqual | EqualEqual | NotEqual

  datatype BinaryOp =
    | LogicalOr | LogicalAnd | Bits(bits: BitOp)
    | Mul | Div | Mod | Add | Sub | Shl | Shr | Compare(cmp: CompareOp) | Assign

  /** `Opaque` is what only the environment can answer: a variable, a load, a member, an
      increment, a call. `op` says which. */
  datatype Kind =
    | Literal(v: LiteralValue)
    | Enumerator(value: int)
    | Sizeof(size: nat)
    | Negate(e: Expr)
    | BitwiseNot(e: Expr)
    | Cast(e: Expr)
    | Noop(e: Expr)
    | Deref(e: Expr, op: nat)
    | Binary(bin: BinaryOp, left: Expr, right: Expr)
    | Comma(left: Expr, right: Expr)
    | Ternary(cond: Expr, thn: Expr, els: Expr)
    | Opaque(op: nat, args: seq<Expr>)

  datatype Expr = Expr(kind: Kind, ctype: CType)

  function Size(e: Expr): (n: nat)
    ensures n >= 1
    decreases e
  {
    match e.kind
    case Literal(_) => 1
    case Enumerator(_) => 1
    case Sizeof(_) => 1
    case Negate(x) => 1 + Size(x)
    case BitwiseNot(x) => 1 + Size(x)
    case Cast(x) => 1 + Size(x)
    case Noop(x) => 1 + Size(x)
    case Deref(x, _) => 1 + Size(x)
    case Binary(_, l, r) => 1 + Size(l) + Size(r)
    case Comma(l, r) => 1 + Size(l) + Size(r)
    case Ternary(c, t, f) => 1 + Size(c) + Size(t) + Size(f)
    case Opaque(_, args) => 1 + ArgsSize(args)
  }

  function ArgsSize(args: seq<Expr>): nat
    decreases args
  {
    if args == [] then 0 else Size(args[0]) + ArgsSize(args[1..])
  }

  function SizeOf(t: CType): nat {
    match t
    case SignedInt(bytes) => bytes
    case BoolT => 1
    case CharT => 1
    case ULongT => 8
    case PointerT => 8
  }

  predicate IsSigned(t: CType) {
    t.SignedInt? || t.BoolT? || t.CharT?
  }

  predicate IsIntegral(t: CType) {
    !t.PointerT?
  }

  /** The values of a type. */
  predicate InType(x: int, t: CType) {
    match t
    case SignedInt(bytes) => bytes in {1, 2, 4, 8} && -Pow2(8 * bytes - 1) <= x < Pow2(8 * bytes - 1)
    case BoolT => x == 0 || x == 1
    case CharT => -128 <= x < 128
    case ULongT => IsU64(x)
    case PointerT => IsU64(x)
  }

  // ---------- folding ----------

  datatype FoldError = ConstOverflow | DivideByZero | NegativeShift | TooManyShiftBits | NullDereference | Panic

  type Folded = Result<Expr, FoldError>

  predicate IsZero(e: Expr) {
    e.kind.Literal? &&
    match e.kind.v
    case Int(i) => i == 0
    case UnsignedInt(u) => u == 0
    case Char(c) => c == 0
    case Str(_) => false
  }

  function Lit(v: LiteralValue, t: CType): Expr {
    Expr(Literal(v), t)
  }

  function Fold(e: Expr): (r: Folded)
    ensures r.Ok? ==> Size(r.value) <= Size(e) && r.value.ctype == e.ctype
    decreases Size(e), 1
  {
    match e.kind
    case Literal(_) => Ok(e)
    case Enumerator(i) => Ok(Lit(Int(i), e.ctype))
    case Sizeof(n) => Ok(Lit(UnsignedInt(n), e.ctype))
    case Negate(x) =>
      (match Fold(x)
       case Err(err) => Err(err)
       case Ok(x1) => NegateLiteral(x1, e.ctype))
    case BitwiseNot(x) =>
      (match Fold(x)
       case Err(err) => Err(err)
       case Ok(x1) => Ok(NotLiteral(x1, e.ctype)))
    case Cast(x) =>
      (match Fold(x)
       case Err(err) => Err(err)
       case Ok(x1) => Ok(CastLiteral(x1, e.ctype)))
    case Noop(x) =>
      (match Fold(x)
       case Err(err) => Err(err)
       case Ok(x1) => Ok(Expr(Noop(x1), e.ctype)))
    case Deref(x, op) =>
      (match Fold(x)
       case Err(err) => Err(err)
       case Ok(x1) => if x1.kind == Literal(Int(0)) then Err(NullDereference) else Ok(Expr(Deref(x1, op), e.ctype)))
    case Binary(op, l, r) => FoldBinary(op, l, r, e.ctype)
    case Comma(l, r) =>
      if Fold(l).Err? then Fold(l)
      else if Fold(r).Err? then Fold(r)
      else Ok(CommaOf(Fold(l).value, Fold(r).value, e.ctype))
    case Ternary(c, t, f) =>
      if Fold(c).Err? then Fold(c)
      else if Fold(t).Err? then Fold(t)
      else if Fold(f).Err? then Fold(f)
      else Ok(TernaryOf(Fold(c).value, Fold(t).value, Fold(f).value, e.ctype))
    case Opaque(op, args) =>
      match FoldArgs(args)
      case Err(err) => Err(err)
      case Ok(args1) => Ok(Expr(Opaque(op, args1), e.ctype))
  }

  function FoldArgs(args: seq<Expr>): (r: Result<seq<Expr>, FoldError>)
    ensures r.Ok? ==> |r.value| == |args| && ArgsSize(r.value) <= ArgsSize(args)
    decreases ArgsSize(args), 2, |args|
  {
    if args == [] then Ok([])
    else
      match Fold(args[0])
      case Err(err) => Err(err)
      case Ok(first) =>
        match FoldArgs(args[1..])
        case Err(err) => Err(err)
        case Ok(more) =>
          assert ([first] + more)[1..] == more;
          Ok([first] + more)
  }

  function NegateLiteral(x: Expr, t: CType): (r: Folded)
    ensures r.Ok? ==> Size(r.value) <= 1 + Size(x) && r.value.ctype == t
  {
    if !x.kind.Literal? then Ok(Expr(Negate(x), t))
    else
      match x.kind.v
      case Int(i) => if IsI64(-i) then Ok(Lit(Int(-i), t)) else Err(ConstOverflow)
      case UnsignedInt(u) => Ok(Lit(UnsignedInt(WrapU64(-u)), t))
      case Char(c) => Ok(Lit(Char(-c % 256), t))
      case Str(_) => Ok(Lit(x.kind.v, t))
  }

  function NotLiteral(x: Expr, t: CType): (r: Expr)
    ensures Size(r) <= 1 + Size(x) && r.ctype == t
  {
    if !x.kind.Literal? then Expr(BitwiseNot(x), t)
    else
      match x.kind.v
      case Int(i) => Lit(Int(-1 - i), t)
      case UnsignedInt(u) => Lit(UnsignedInt(WrapU64(-1 - u)), t)
      case Char(c) => Lit(Char((-1 - c) % 256), t)
      case Str(_) => Lit(x.kind.v, t)
  }

  function CastLiteral(x: Expr, t: CType): (r: Expr)
    ensures Size(r) <= 1 + Size(x) && r.ctype == t
  {
    if x.kind.Literal? && ConstCast(x.kind.v, t).Some? then Lit(ConstCast(x.kind.v, t).value, t)
    else Expr(Cast(x), t)
  }

  function ConstCast(v: LiteralValue, t: CType): Option<LiteralValue> {
    match v
    case Int(i) =>
      (match t
       case BoolT => Some(Int(Truth(i != 0)))
       case CharT => Some(Char(i % 256))
       case SignedInt(_) => Some(Int(i))
       case ULongT => Some(UnsignedInt(WrapU64(i)))
       case PointerT => if i >= 0 then Some(UnsignedInt(WrapU64(i))) else None)
    case UnsignedInt(u) =>
      (match t
       case BoolT => Some(Int(Truth(u != 0)))
       case CharT => Some(Char(u % 256))
       case SignedInt(_) => Some(Int(WrapI64(u)))
       case _ => Some(UnsignedInt(u)))
    case Char(c) =>
      (match t
       case BoolT => Some(Int(Truth(c != 0)))
       case CharT => Some(Int(c))
       case SignedInt(_) => Some(Int(c))
       case _ => Some(UnsignedInt(c)))
    case Str(_) => None
  }

  function CommaOf(l: Expr, r: Expr, t: CType): (res: Expr)
    ensures Size(res) <= 1 + Size(l) + Size(r) && res.ctype == t
  {
    if l.kind.Literal? then Expr(r.kind, t) else Expr(Comma(l, r), t)
  }

  function TernaryOf(c: Expr, t: Expr, f: Expr, ctype: CType): (res: Expr)
    ensures Size(res) <= 1 + Size(c) + Size(t) + Size(f) && res.ctype == ctype
  {
    Expr(Pruned(c, t, f), ctype)
  }

  /** A condition that is a signed literal chooses its branch. */
  function Pruned(c: Expr, t: Expr, f: Expr): Kind {
    if c.kind.Literal? && c.kind.v.Int? then (if c.kind.v.i == 0 then f.kind else t.kind) else Ternary(c, t, f)
  }

  /** The operands are folded, and then folded once more where the operator is applied. */
  function FoldBinary(op: BinaryOp, l: Expr, r: Expr, t: CType): (res: Folded)
    ensures res.Ok? ==> Size(res.value) <= 1 + Size(l) + Size(r) && res.value.ctype == t
    decreases Size(l) + Size(r), 2
  {
    if Fold(l).Err? then Fold(l)
    else if Fold(r).Err? then Fold(r)
    else
      var l1, r1 := Fold(l).value, Fold(r).value;
      if op.Assign? then Ok(Expr(Binary(op, l1, r1), t))
      else if (op.Mod? || (op.Div? && IsIntegral(r1.ctype))) && IsZero(r1) then Err(DivideByZero)
      else if Fold(l1).Err? then Fold(l1)
      else if Fold(r1).Err? then Fold(r1)
      else Combine(op, Fold(l1).value, Fold(r1).value, t)
  }

  /** What an operator makes of two folded operands. */
  function Combine(op: BinaryOp, l: Expr, r: Expr, t: CType): (res: Folded)
    ensures res.Ok? ==> Size(res.value) <= 1 + Size(l) + Size(r) && res.value.ctype == t
  {
    if op.Shl? then ShiftLeft(l, r, t)
    else if op.Shr? then ShiftRight(l, r, t)
    else if !l.kind.Literal? || !r.kind.Literal? then Ok(Expr(Binary(op, l, r), t))
    else
      match LiteralOp(op, l.kind.v, r.kind.v)
      case Err(err) => Err(err)
      case Ok(None) => Ok(Expr(Binary(op, l, r), t))
      case Ok(Some(v)) => Ok(Lit(v, t))
  }

  function CompareInts(op: CompareOp, a: int, b: int): LiteralValue {
    Int(Truth(match op
              case Less => a < b
              case LessEqual => a <= b
              case Greater => a > b
              case GreaterEqual => a >= b
              case EqualEqual => a == b
              case NotEqual => a != b))
  }

  type Applied = Result<Option<LiteralValue>, FoldError>

  /** Signed arithmetic reports what does not fit in 64 bits. */
  function Checked(x: int): Applied {
    if IsI64(x) then Ok(Some(Int(x))) else Err(ConstOverflow)
  }

  function LiteralOp(op: BinaryOp, a: LiteralValue, b: LiteralValue): Applied {
    if op.LogicalAnd? then
      if a == Int(1) && b == Int(1) then Ok(Some(Int(1)))
      else if a == Int(0) || b == Int(0) then Ok(Some(Int(0)))
      else Ok(None)
    else if op.LogicalOr? then
      if a == Int(0) && b == Int(0) then Ok(Some(Int(0)))
      else if a == Int(1) || b == Int(1) then Ok(Some(Int(1)))
      else Ok(None)
    else
      match (a, b)
      case (Int(x), Int(y)) => SignedOp(op, x, y)
      case (UnsignedInt(x), UnsignedInt(y)) => UnsignedOp(op, x, y)
      case (Char(x), Char(y)) => CharOp(op, x, y)
      case (_, _) => Ok(None)
  }

  function SignedOp(op: BinaryOp, x: int, y: int): Applied {
    match op
    case Add => Checked(x + y)
    case Sub => Checked(x - y)
    case Mul => Checked(x * y)
    case Div => if y == 0 then Err(Panic) else Checked(Quotient(x, y))
    case Mod =>
      if y == 0 then Err(Panic)
      else if y == -1 && !IsI64(-x) then Err(ConstOverflow)
      else Ok(Some(Int(Remainder(x, y))))
    case Bits(b) => Ok(Some(Int(Bitwise(b, x, y))))
    case Compare(c) => Ok(Some(CompareInts(c, x, y)))
    case _ => Ok(None)
  }

  function UnsignedOp(op: BinaryOp, x: int, y: int): Applied {
    match op
    case Add => Ok(Some(UnsignedInt(WrapU64(x + y))))
    case Sub => Ok(Some(UnsignedInt(WrapU64(x - y))))
    case Mul => Ok(Some(UnsignedInt(WrapU64(x * y))))
    case Div => if y == 0 then Err(Panic) else Ok(Some(UnsignedInt(Quotient(x, y))))
    case Mod => if y == 0 then Err(Panic) else Ok(Some(UnsignedInt(Remainder(x, y))))
    case Bits(b) => Ok(Some(UnsignedInt(Bitwise(b, x, y))))
    case Compare(c) => Ok(Some(CompareInts(c, x, y)))
    case _ => Ok(None)
  }

  function CharOp(op: BinaryOp, x: int, y: int): Applied {
    match op
    case Add => Ok(Some(Char((x + y) % 256)))
    case Sub => Ok(Some(Char((x - y) % 256)))
    case Mul => Ok(Some(Char((x * y) % 256)))
    case Div => if y == 0 then Err(Panic) else Ok(Some(Char(Quotient(x, y))))
    case Bits(b) => Ok(Some(Char(Bitwise(b, x, y))))
    case Compare(c) => Ok(Some(CompareInts(c, x, y)))
    case _ => Ok(None)
  }

  function NonNegative(v: LiteralValue): Option<nat> {
    match v
    case Int(i) => if i >= 0 then Some(i) else None
    case UnsignedInt(u) => if u >= 0 then Some(u) else None
    case Char(c) => if c >= 0 then Some(c) else None
    case Str(_) => None
  }

  function ShiftLeft(l: Expr, r: Expr, t: CType): (res: Folded)
    ensures res.Ok? ==> Size(res.value) <= 1 + Size(l) + Size(r) && res.value.ctype == t
  {
    if !r.kind.Literal? then Ok(Expr(Binary(Shl, l, r), t))
    else if NonNegative(r.kind.v).None? then Err(NegativeShift)
    else
      var n := NonNegative(r.kind.v).value;
      if IsSigned(l.ctype) && n >= 8 * SizeOf(l.ctype) then Err(TooManyShiftBits)
      else
        var count := n % 0x1_0000_0000;
        match l.kind
        case Literal(Int(i)) => if count >= 64 then Err(ConstOverflow) else Ok(Lit(Int(WrapI64(i * Pow2(count))), t))
        case Literal(UnsignedInt(u)) => Ok(Lit(UnsignedInt(WrapU64(u * Pow2(count % 64))), t))
        case _ => Ok(Expr(Binary(Shl, l, r), t))
  }

  /** A count of at least the size in bytes gives 0. */
  function ShiftRight(l: Expr, r: Expr, t: CType): (res: Folded)
    ensures res.Ok? ==> Size(res.value) <= 1 + Size(l) + Size(r) && res.value.ctype == t
  {
    if !r.kind.Literal? then Ok(Expr(Binary(Shr, l, r), t))
    else if NonNegative(r.kind.v).None? then Err(NegativeShift)
    else
      var n := NonNegative(r.kind.v).value;
      if n >= SizeOf(t) then Ok(Lit(if IsSigned(t) then Int(0) else UnsignedInt(0), t))
      else
        match l.kind
        case Literal(Int(i)) => Ok(Lit(Int(i / Pow2(n)), t))
        case Literal(UnsignedInt(u)) => Ok(Lit(UnsignedInt(u / Pow2(n)), t))
        case Literal(_) => Err(Panic)
        case _ => Ok(Expr(Binary(Shr, l, r), t))
  }

  // ---------- typing ----------

  predicate LiteralTyped(v: LiteralValue, t: CType) {
    match v
    case Int(i) => (t.SignedInt? || t.BoolT? || t.CharT? || (t.PointerT? && i == 0)) && IsI64(i)
    case UnsignedInt(u) => (t.ULongT? || t.PointerT?) && IsU64(u)
    case Char(c) => (t.CharT? || (t.PointerT? && c == 0)) && 0 <= c < 256
    case Str(_) => t.PointerT?
  }

  /** The types arithmetic is done in, after the usual conversions. */
  predicate Arithmetic(t: CType) {
    t == SignedInt(4) || t == SignedInt(8) || t.ULongT?
  }

  /** Operands have the types the analyzer gives them (see `Analysis`). An lvalue has the
      type of its address, `PointerT`. */
  predicate Typed(e: Expr)
    decreases e
  {
    (e.ctype.SignedInt? ==> e.ctype.bytes in {1, 2, 4, 8}) &&
    match e.kind
    case Literal(v) => LiteralTyped(v, e.ctype)
    case Enumerator(i) => e.ctype == SignedInt(4) && IsI64(i)
    case Sizeof(n) => e.ctype.ULongT? && IsU64(n)
    case Negate(x) => Typed(x) && Arithmetic(e.ctype) && x.ctype == e.ctype
    case BitwiseNot(x) => Typed(x) && Arithmetic(e.ctype) && x.ctype == e.ctype
    case Cast(x) => Typed(x)
    case Noop(x) => Typed(x) && x.ctype == e.ctype
    case Deref(x, _) => Typed(x) && x.ctype.PointerT?
    case Comma(l, r) => Typed(l) && Typed(r) && r.ctype == e.ctype
    case Ternary(c, t, f) => Typed(c) && c.ctype.BoolT? && Typed(t) && Typed(f) && t.ctype == e.ctype && f.ctype == e.ctype
    case Opaque(_, args) => forall i :: 0 <= i < |args| ==> Typed(args[i])
    case Binary(op, l, r) =>
      Typed(l) && Typed(r) &&
      match op
      case Assign => r.ctype == e.ctype
      case LogicalAnd => l.ctype == r.ctype == e.ctype == BoolT
      case LogicalOr => l.ctype == r.ctype == e.ctype == BoolT
      case Compare(c) =>
        && e.ctype == BoolT
        && (l.ctype == r.ctype || (l.ctype.PointerT? && IsZero(r)) || (r.ctype.PointerT? && IsZero(l)))
        && (l.ctype.CharT? || r.ctype.CharT? ==> c.EqualEqual? || c.NotEqual?)
      case Shl => l.ctype == e.ctype && Arithmetic(l.ctype) && Arithmetic(r.ctype)
      case Shr => l.ctype == e.ctype && Arithmetic(l.ctype) && Arithmetic(r.ctype)
      case Add => l.ctype == r.ctype == e.ctype && (Arithmetic(e.ctype) || e.ctype.PointerT?)
      case Sub => l.ctype == r.ctype == e.ctype && (Arithmetic(e.ctype) || e.ctype.PointerT?)
      case Mul => l.ctype == r.ctype == e.ctype && (Arithmetic(e.ctype) || e.ctype.PointerT?)
      case _ => l.ctype == r.ctype == e.ctype && Arithmetic(e.ctype)
  }

  // ---------- meaning ----------

  type Meaning = Option<(int, Ir.History)>

  /** A value of type `t`, or nothing. */
  function In(x: int, t: CType, h: Ir.History): Meaning {
    if InType(x, t) then Some((x, h)) else None
  }

  function LiteralMeaning(v: LiteralValue): int {
    match v
    case Int(i) => i
    case UnsignedInt(u) => u
    case Char(c) => if c < 128 then c else c - 256
    case Str(s) => s
  }

  /** The value of an expression and what it asked of the environment; nothing where C
      leaves it undefined. Section 6.5 of C11. */
  function Eval(e: Expr, env: Ir.Environment, h: Ir.History): Meaning
    decreases e
  {
    match e.kind
    case Literal(v) => In(LiteralMeaning(v), e.ctype, h)
    case Enumerator(i) => In(i, e.ctype, h)
    case Sizeof(n) => In(n, e.ctype, h)
    case Negate(x) =>
      (match Eval(x, env, h)
       case None => None
       case Some((a, h1)) => In(Unsigned(-a, e.ctype), e.ctype, h1))
    case BitwiseNot(x) =>
      (match Eval(x, env, h)
       case None => None
       case Some((a, h1)) => In(Unsigned(-1 - a, e.ctype), e.ctype, h1))
    case Cast(x) =>
      (match Eval(x, env, h)
       case None => None
       case Some((a, h1)) => In(Converted(a, e.ctype), e.ctype, h1))
    case Noop(x) => Eval(x, env, h)
    case Deref(x, op) =>
      (match Eval(x, env, h)
       case None => None
       case Some((a, h1)) => if a == 0 then None else Ask(env, h1, op, [a], e.ctype))
    case Comma(l, r) =>
      (match Eval(l, env, h)
       case None => None
       case Some((_, h1)) => Eval(r, env, h1))
    case Ternary(c, t, f) =>
      (match Eval(c, env, h)
       case None => None
       case Some((a, h1)) => if a != 0 then Eval(t, env, h1) else Eval(f, env, h1))
    case Opaque(op, args) =>
      (match EvalArgs(args, env, h)
       case None => None
       case Some((vs, h1)) => Ask(env, h1, op, vs, e.ctype))
    case Binary(op, l, r) =>
      match Eval(l, env, h)
      case None => None
      case Some((a, h1)) =>
        if (op.LogicalAnd? && a == 0) || (op.LogicalOr? && a != 0) then In(Truth(op.LogicalOr?), e.ctype, h1)
        else
          match Eval(r, env, h1)
          case None => None
          case Some((b, h2)) => Apply(op, a, b, e.ctype, env, h2)
  }

  function EvalArgs(args: seq<Expr>, env: Ir.Environment, h: Ir.History): Option<(seq<int>, Ir.History)>
    decreases args
  {
    if args == [] then Some(([], h))
    else
      match Eval(args[0], env, h)
      case None => None
      case Some((a, h1)) =>
        match EvalArgs(args[1..], env, h1)
        case None => None
        case Some((vs, h2)) => Some(([a] + vs, h2))
  }

  function Ask(env: Ir.Environment, h: Ir.History, op: nat, args: seq<int>, t: CType): Meaning {
    var ev := env.Perform(h, op, args);
    In(ev.result, t, h + [ev])
  }

  /** Unsigned arithmetic, and what is done with addresses, is modulo 2 to the 64. */
  function Unsigned(x: int, t: CType): int {
    if t.ULongT? || t.PointerT? then WrapU64(x) else x
  }

  /** A conversion to a type that cannot hold the value drops the upper bits: section 6.3.1.3
      of C11 leaves it to the implementation, and this is what the back end does. */
  function Converted(a: int, t: CType): int {
    match t
    case BoolT => Truth(a != 0)
    case CharT => Wrapped(a, 1)
    case SignedInt(bytes) => if bytes in {1, 2, 4, 8} then Wrapped(a, bytes) else a
    case _ => WrapU64(a)
  }

  const ASSIGN: nat := 0

  function Apply(op: BinaryOp, a: int, b: int, t: CType, env: Ir.Environment, h: Ir.History): Meaning {
    match op
    case Add => In(Unsigned(a + b, t), t, h)
    case Sub => In(Unsigned(a - b, t), t, h)
    case Mul => In(Unsigned(a * b, t), t, h)
    case Div => if b == 0 then None else In(Quotient(a, b), t, h)
    case Mod => if b == 0 || !InType(Quotient(a, b), t) then None else In(Remainder(a, b), t, h)
    case Bits(bits) => In(Bitwise(bits, a, b), t, h)
    case Shl => if a < 0 || !(0 <= b < 8 * SizeOf(t)) then None else In(Unsigned(a * Pow2(b), t), t, h)
    case Shr => if !(0 <= b < 8 * SizeOf(t)) then None else In(a / Pow2(b), t, h)
    case Compare(c) => In(CompareInts(c, a, b).i, t, h)
    case LogicalAnd => In(Truth(b != 0), t, h)
    case LogicalOr => In(Truth(b != 0), t, h)
    case Assign => Ask(env, h, ASSIGN, [a, b], t)
  }
}
