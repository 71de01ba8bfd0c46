/** Expressions and type names, the tokens they are written with, and which of them can
    be read back: the precedence table allows them without further parentheses. */
module ExprGrammar {
  import opened Wrappers
  import opened Tokens

  datatype BinOp =
    | Mul | Div | Mod | Add | Sub | Shl | Shr
    | Less | Greater | LessEq | GreaterEq | Eq | Ne
    | BitAnd | BitXor | BitOr | LogAnd | LogOr
    | Ternary | Assign(assign: AssignOp) | Comma

  function Prec(op: BinOp): nat {
    match op
    case Mul => 12 case Div => 12 case Mod => 12
    case Add => 11 case Sub => 11
    case Shl => 10 case Shr => 10
    case Less => 9 case Greater => 9 case LessEq => 9 case GreaterEq => 9
    case Eq => 8 case Ne => 8
    case BitAnd => 7
    case BitXor => 6
    case BitOr => 5
    case LogAnd => 4
    case LogOr => 3
    case Ternary => 2
    case Assign(_) => 1
    case Comma => 0
  }

  predicate LeftAssociative(op: BinOp) {
    !op.Ternary? && !op.Assign?
  }

  function OpOf(t: Token): Option<BinOp> {
    match t
    case Star => Some(Mul)
    case Divide => Some(Div)
    case Mod => Some(BinOp.Mod)
    case Plus => Some(Add)
    case Minus => Some(Sub)
    case ShiftLeft => Some(Shl)
    case ShiftRight => Some(Shr)
    case Comparison(c) =>
      Some(match c
           case Less => BinOp.Less
           case Greater => BinOp.Greater
           case LessEqual => LessEq
           case GreaterEqual => GreaterEq
           case EqualEqual => Eq
           case NotEqual => Ne)
    case Ampersand => Some(BitAnd)
    case Xor => Some(BitXor)
    case BitwiseOr => Some(BitOr)
    case LogicalAnd => Some(LogAnd)
    case LogicalOr => Some(LogOr)
    case Assignment(a) => Some(Assign(a))
    case Question => Some(BinOp.Ternary)
    case Comma => Some(BinOp.Comma)
    case _ => None
  }

  function Symbol(op: BinOp): (t: Token)
    ensures OpOf(t) == Some(op)
  {
    match op
    case Mul => Star
    case Div => Divide
    case Mod => Token.Mod
    case Add => Plus
    case Sub => Minus
    case Shl => ShiftLeft
    case Shr => ShiftRight
    case Less => Comparison(CompareOp.Less)
    case Greater => Comparison(CompareOp.Greater)
    case LessEq => Comparison(LessEqual)
    case GreaterEq => Comparison(GreaterEqual)
    case Eq => Comparison(EqualEqual)
    case Ne => Comparison(NotEqual)
    case BitAnd => Ampersand
    case BitXor => Xor
    case BitOr => BitwiseOr
    case LogAnd => LogicalAnd
    case LogOr => LogicalOr
    case Ternary => Question
    case Assign(a) => Assignment(a)
    case Comma => Token.Comma
  }

  datatype PrefixOp =
    | Deref | BitwiseNot | LogNot | UnaryPlus | Negate | AddressOf | PreIncrement | PreDecrement
    | SizeofExpr | AlignofExpr | Cast(to: TypeName)

  datatype PostfixOp =
    | Member(name: string) | DerefMember(field: string) | PostIncrement | PostDecrement
    | Index(index: Expr) | Call(args: seq<Expr>)

  /** `Paren` is an expression in parentheses; the parser drops the node (`Erase`). */
  datatype Expr =
    | Id(name: string)
    | Value(lit: Lit)
    | Paren(inner: Expr)
    | TypeSize(keyword: Keyword, what: TypeName)
    | Prefix(op: PrefixOp, operand: Expr)
    | Postfix(base: Expr, post: PostfixOp)
    | Binary(bin: BinOp, left: Expr, right: Expr)
    | Conditional(cond: Expr, thn: Expr, els: Expr)

  /** A declarator as it is written, `Group` for parentheses around one. An abstract one has
      `Nothing` where the name would be. */
  datatype Decl =
    | Nothing
    | Named(id: string)
    | Group(inner: Decl)
    | Pointer(quals: seq<Keyword>, to: Decl)
    | Array(of: Decl, size: Option<Expr>)
    | Function(of: Decl, params: seq<TypeName>, varargs: bool)

  /** A type name as it is written, and as the parser hands it on. */
  datatype TypeName =
    | Written(specs: seq<Keyword>, decl: Decl)
    | TypeName(specs: seq<Keyword>, declarator: Declarator, id: Option<string>)

  /** One part of a declarator. The parser strings them together so that what is read
      later stands earlier. */
  datatype Piece =
    | Name(name: string)
    | Ptr(quals: seq<Keyword>)
    | Arr(size: Option<Expr>)
    | Fun(params: seq<TypeName>, varargs: bool)

  /** A declarator inside out: what a name is, down to what the specifiers say. */
  datatype Declarator =
    | End
    | PointerTo(to: Declarator, quals: seq<Keyword>)
    | ArrayOf(of: Declarator, size: Option<Expr>)
    | FunctionReturning(ret: Declarator, params: seq<TypeName>, varargs: bool)

  /** The pieces as a declarator: each goes around what the ones before it made. */
  function Assemble(pieces: seq<Piece>, current: Declarator, id: Option<string>): (Declarator, Option<string>)
    decreases |pieces|
  {
    if pieces == [] then (current, id)
    else
      match pieces[0]
      case Name(name) => Assemble(pieces[1..], current, Some(name))
      case Ptr(quals) => Assemble(pieces[1..], PointerTo(current, quals), id)
      case Arr(size) => Assemble(pieces[1..], ArrayOf(current, size), id)
      case Fun(params, varargs) => Assemble(pieces[1..], FunctionReturning(current, params, varargs), id)
  }

  function Assembled(pieces: seq<Piece>): (Declarator, Option<string>) {
    Assemble(pieces, End, None)
  }

  /** What the parser strings together for a declarator. */
  function Pieces(d: Decl): seq<Piece>
    decreases d
  {
    match d
    case Nothing => []
    case Named(id) => [Name(id)]
    case Group(inner) => Pieces(inner)
    case Pointer(quals, to) => [Ptr(quals)] + Pieces(to)
    case Array(of, size) => [Arr(if size.Some? then Some(Erase(size.value)) else None)] + Pieces(of)
    case Function(of, params, varargs) => [Fun(EraseTypes(params), varargs)] + Pieces(of)
  }

  function EraseType(tn: TypeName): TypeName
    decreases tn
  {
    match tn
    case Written(specs, decl) =>
      var (declarator, id) := Assembled(Pieces(decl));
      TypeName.TypeName(specs, declarator, id)
    case TypeName(_, _, _) => tn
  }

  function EraseTypes(tns: seq<TypeName>): (r: seq<TypeName>)
    ensures |r| == |tns|
    decreases tns
  {
    if tns == [] then [] else [EraseType(tns[0])] + EraseTypes(tns[1..])
  }

  /** The expression as the parser hands it on. */
  function Erase(e: Expr): Expr
    decreases e
  {
    match e
    case Id(_) => e
    case Value(_) => e
    case Paren(inner) => Erase(inner)
    case TypeSize(k, tn) => TypeSize(k, EraseType(tn))
    case Prefix(op, operand) => Prefix(if op.Cast? then Cast(EraseType(op.to)) else op, Erase(operand))
    case Postfix(base, post) =>
      Postfix(Erase(base), match post
                           case Index(i) => Index(Erase(i))
                           case Call(args) => Call(EraseAll(args))
                           case _ => post)
    case Binary(op, l, r) => Binary(op, Erase(l), Erase(r))
    case Conditional(c, t, f) => Conditional(Erase(c), Erase(t), Erase(f))
  }

  function EraseAll(es: seq<Expr>): (r: seq<Expr>)
    ensures |r| == |es|
    decreases es
  {
    if es == [] then [] else [Erase(es[0])] + EraseAll(es[1..])
  }

  // ---------- the tokens of an expression ----------

  /** The tokens of a declarator, in order, and then `rest`. */
  function SpellDecl(d: Decl, rest: seq<Token>): seq<Token>
    decreases d
  {
    match d
    case Nothing => rest
    case Named(id) => [Ident(id)] + rest
    case Group(inner) => [LeftParen] + SpellDecl(inner, [RightParen] + rest)
    case Pointer(quals, to) => [Star] + Words(quals, SpellDecl(to, rest))
    case Array(of, None) => SpellDecl(of, [LeftBracket, RightBracket] + rest)
    case Array(of, Some(size)) => SpellDecl(of, [LeftBracket] + Spell(size, [RightBracket] + rest))
    case Function(of, params, varargs) => SpellDecl(of, [LeftParen] + SpellParams(params, varargs, rest))
  }

  function SpellParams(params: seq<TypeName>, varargs: bool, rest: seq<Token>): seq<Token>
    decreases params, 1
  {
    if params == [] && !varargs then [RightParen] + rest else SpellMore(params, varargs, rest)
  }

  function SpellMore(params: seq<TypeName>, varargs: bool, rest: seq<Token>): seq<Token>
    decreases params, 0
  {
    if params == [] then [Ellipsis, RightParen] + rest
    else
      SpellType(params[0], if |params| == 1 && !varargs then [RightParen] + rest
                           else [Token.Comma] + SpellMore(params[1..], varargs, rest))
  }

  /** A type name that was not written has no tokens. */
  function SpellType(tn: TypeName, rest: seq<Token>): seq<Token>
    decreases tn, 0
  {
    match tn
    case Written(specs, decl) => Words(specs, SpellDecl(decl, rest))
    case TypeName(_, _, _) => rest
  }

  /** A type in parentheses. */
  function TypeTokens(tn: TypeName, rest: seq<Token>): seq<Token>
    decreases tn, 1
  {
    [LeftParen] + SpellType(tn, [RightParen] + rest)
  }

  function PrefixTokens(op: PrefixOp, rest: seq<Token>): seq<Token>
    decreases op
  {
    match op
    case Deref => [Star] + rest
    case BitwiseNot => [BinaryNot] + rest
    case LogNot => [LogicalNot] + rest
    case UnaryPlus => [Plus] + rest
    case Negate => [Minus] + rest
    case AddressOf => [Ampersand] + rest
    case PreIncrement => [PlusPlus] + rest
    case PreDecrement => [MinusMinus] + rest
    case SizeofExpr => [Word(Sizeof)] + rest
    case AlignofExpr => [Word(Alignof)] + rest
    case Cast(tn) => TypeTokens(tn, rest)
  }

  function PostfixTokens(post: PostfixOp, rest: seq<Token>): (ts: seq<Token>)
    ensures ts != []
    decreases post
  {
    match post
    case Member(name) => [Dot, Ident(name)] + rest
    case DerefMember(name) => [StructDeref, Ident(name)] + rest
    case PostIncrement => [PlusPlus] + rest
    case PostDecrement => [MinusMinus] + rest
    case Index(i) => [LeftBracket] + Spell(i, [RightBracket] + rest)
    case Call(args) => [LeftParen] + SpellArgs(args, rest)
  }

  /** The tokens of `e`, in order, and then `rest`. */
  function Spell(e: Expr, rest: seq<Token>): (ts: seq<Token>)
    decreases e
  {
    match e
    case Id(name) => [Ident(name)] + rest
    case Value(lit) => [Literal(lit)] + rest
    case Paren(inner) => [LeftParen] + Spell(inner, [RightParen] + rest)
    case TypeSize(k, tn) => [Word(k)] + TypeTokens(tn, rest)
    case Prefix(op, operand) => PrefixTokens(op, Spell(operand, rest))
    case Postfix(base, post) => Spell(base, PostfixTokens(post, rest))
    case Binary(op, l, r) => Spell(l, [Symbol(op)] + Spell(r, rest))
    case Conditional(c, t, f) => Spell(c, [Question] + Spell(t, [Colon] + Spell(f, rest)))
  }

  function SpellArgs(args: seq<Expr>, rest: seq<Token>): seq<Token>
    decreases args
  {
    if args == [] then [RightParen] + rest
    else Spell(args[0], if |args| == 1 then [RightParen] + rest else [Token.Comma] + SpellArgs(args[1..], rest))
  }

  /** The tokens of `e`. */
  function Yield(e: Expr): seq<Token> {
    Spell(e, [])
  }

  lemma {:induction false} SpellIsYield(e: Expr, rest: seq<Token>)
    ensures Spell(e, rest) == Yield(e) + rest
  {
    SpellAppend(e, [], rest);
    assert [] + rest == rest;
  }

  lemma {:induction false} Push(t: Token, a: seq<Token>, b: seq<Token>)
    ensures [t] + (a + b) == [t] + a + b
  {}

  lemma {:induction false} Push2(t: Token, u: Token, a: seq<Token>, b: seq<Token>)
    ensures [t, u] + (a + b) == [t, u] + a + b
  {}

  lemma {:induction false} WordsAppend(ks: seq<Keyword>, rest: seq<Token>, more: seq<Token>)
    ensures Words(ks, rest + more) == Words(ks, rest) + more
    decreases |ks|
  {
    if ks != [] {
      WordsAppend(ks[1..], rest, more);
      Push(Word(ks[0]), Words(ks[1..], rest), more);
    }
  }

  lemma {:induction false} DeclAppend(d: Decl, rest: seq<Token>, more: seq<Token>)
    ensures SpellDecl(d, rest + more) == SpellDecl(d, rest) + more
    decreases d
  {
    hide Spell, SpellParams, Words;
    match d
    case Nothing =>
    case Named(id) => Push(Ident(id), rest, more);
    case Group(inner) =>
      DeclAppend(inner, [RightParen] + rest, more);
      Push(RightParen, rest, more);
      Push(LeftParen, SpellDecl(inner, [RightParen] + rest), more);
    case Pointer(quals, to) =>
      DeclAppend(to, rest, more);
      WordsAppend(quals, SpellDecl(to, rest), more);
      Push(Star, Words(quals, SpellDecl(to, rest)), more);
    case Array(of, None) =>
      DeclAppend(of, [LeftBracket, RightBracket] + rest, more);
      Push2(LeftBracket, RightBracket, rest, more);
    case Array(of, Some(size)) =>
      SpellAppend(size, [RightBracket] + rest, more);
      Push(RightBracket, rest, more);
      Push(LeftBracket, Spell(size, [RightBracket] + rest), more);
      DeclAppend(of, [LeftBracket] + Spell(size, [RightBracket] + rest), more);
    case Function(of, params, varargs) =>
      ParamsAppend(params, varargs, rest, more);
      Push(LeftParen, SpellParams(params, varargs, rest), more);
      DeclAppend(of, [LeftParen] + SpellParams(params, varargs, rest), more);
  }

  lemma {:induction false} ParamsAppend(params: seq<TypeName>, varargs: bool, rest: seq<Token>, more: seq<Token>)
    ensures SpellParams(params, varargs, rest + more) == SpellParams(params, varargs, rest) + more
    ensures SpellMore(params, varargs, rest + more) == SpellMore(params, varargs, rest) + more
    decreases params
  {
    Push(RightParen, rest, more);
    Push2(Ellipsis, RightParen, rest, more);
    if params != [] {
      var last := |params| == 1 && !varargs;
      var after := if last then [RightParen] + rest else [Token.Comma] + SpellMore(params[1..], varargs, rest);
      ParamsAppend(params[1..], varargs, rest, more);
      Push(Token.Comma, SpellMore(params[1..], varargs, rest), more);
      TypeAppend(params[0], after, more);
    }
  }

  lemma {:induction false} TypeAppend(tn: TypeName, rest: seq<Token>, more: seq<Token>)
    ensures SpellType(tn, rest + more) == SpellType(tn, rest) + more
    ensures TypeTokens(tn, rest + more) == TypeTokens(tn, rest) + more
    decreases tn
  {
    if tn.Written? {
      DeclAppend(tn.decl, rest, more);
      WordsAppend(tn.specs, SpellDecl(tn.decl, rest), more);
      DeclAppend(tn.decl, [RightParen] + rest, more);
      WordsAppend(tn.specs, SpellDecl(tn.decl, [RightParen] + rest), more);
    }
    Push(RightParen, rest, more);
    Push(LeftParen, SpellType(tn, [RightParen] + rest), more);
  }

  lemma {:induction false} PrefixAppend(op: PrefixOp, rest: seq<Token>, more: seq<Token>)
    ensures PrefixTokens(op, rest + more) == PrefixTokens(op, rest) + more
    decreases op
  {
    hide TypeTokens;
    if op.Cast? {
      TypeAppend(op.to, rest, more);
    }
  }

  lemma {:induction false} SpellAppend(e: Expr, rest: seq<Token>, more: seq<Token>)
    ensures Spell(e, rest + more) == Spell(e, rest) + more
    decreases e
  {
    hide PrefixTokens, PostfixTokens, TypeTokens;
    match e
    case Paren(inner) =>
      SpellAppend(inner, [RightParen] + rest, more);
      Push(RightParen, rest, more);
    case TypeSize(k, tn) =>
      TypeAppend(tn, rest, more);
      Push(Word(k), TypeTokens(tn, rest), more);
    case Prefix(op, operand) =>
      SpellAppend(operand, rest, more);
      PrefixAppend(op, Spell(operand, rest), more);
    case Postfix(base, post) =>
      PostfixAppend(post, rest, more);
      SpellAppend(base, PostfixTokens(post, rest), more);
    case Binary(op, l, r) =>
      SpellAppend(r, rest, more);
      SpellAppend(l, [Symbol(op)] + Spell(r, rest), more);
      Push(Symbol(op), Spell(r, rest), more);
    case Conditional(_, _, _) => ConditionalAppend(e, rest, more);
    case _ =>
  }

  lemma {:induction false} ConditionalAppend(e: Expr, rest: seq<Token>, more: seq<Token>)
    requires e.Conditional?
    ensures Spell(e, rest + more) == Spell(e, rest) + more
    decreases e, 0
  {
    var els := [Colon] + Spell(e.els, rest);
    SpellAppend(e.els, rest, more);
    Push(Colon, Spell(e.els, rest), more);
    SpellAppend(e.thn, els, more);
    SpellAppend(e.cond, [Question] + Spell(e.thn, els), more);
    Push(Question, Spell(e.thn, els), more);
  }

  lemma {:induction false} PostfixAppend(post: PostfixOp, rest: seq<Token>, more: seq<Token>)
    ensures PostfixTokens(post, rest + more) == PostfixTokens(post, rest) + more
    decreases post
  {
    hide Spell, SpellArgs;
    match post
    case Index(i) =>
      SpellAppend(i, [RightBracket] + rest, more);
      Push(RightBracket, rest, more);
      Push(LeftBracket, Spell(i, [RightBracket] + rest), more);
    case Call(args) =>
      ArgsAppend(args, rest, more);
      Push(LeftParen, SpellArgs(args, rest), more);
    case Member(name) => Push2(Dot, Ident(name), rest, more);
    case DerefMember(name) => Push2(StructDeref, Ident(name), rest, more);
    case PostIncrement => Push(PlusPlus, rest, more);
    case PostDecrement => Push(MinusMinus, rest, more);
  }

  lemma {:induction false} ArgsAppend(args: seq<Expr>, rest: seq<Token>, more: seq<Token>)
    ensures SpellArgs(args, rest + more) == SpellArgs(args, rest) + more
    decreases args
  {
    if |args| == 1 {
      SpellAppend(args[0], [RightParen] + rest, more);
      Push(RightParen, rest, more);
    } else if |args| > 1 {
      var tail := SpellArgs(args[1..], rest);
      ArgsAppend(args[1..], rest, more);
      SpellAppend(args[0], [Token.Comma] + tail, more);
      Push(Token.Comma, tail, more);
    }
  }

  // ---------- the table ----------

  const UNARY: nat := 13
  const PRIMARY: nat := 14

  /** How tightly the expression's outermost operator binds. */
  function Level(e: Expr): nat {
    match e
    case Binary(op, _, _) => Prec(op)
    case Conditional(_, _, _) => Prec(BinOp.Ternary)
    case Prefix(_, _) => UNARY
    case _ => PRIMARY
  }

  predicate IsQualifier(t: Token) {
    t == Word(Const) || t == Word(Volatile)
  }

  /** A type name that stands in parentheses starts with a specifier. */
  predicate IsTypeName(tn: TypeName)
    decreases tn, 1
  {
    TypeFits(tn) && tn.specs != []
  }

  /** Specifiers, a declarator, or both. */
  predicate TypeFits(tn: TypeName)
    decreases tn, 0
  {
    && tn.Written? && DeclFits(tn.decl)
    && (forall i :: 0 <= i < |tn.specs| ==> tn.specs[i].IsDeclSpecifier())
    && (tn.specs == [] ==> !tn.decl.Nothing?)
  }

  /** Arrays and functions bind tighter than pointers. Where a name is missing, parameters
      must start with a specifier, or a parenthesis would be taken for one around a
      declarator. */
  predicate DeclFits(d: Decl)
    decreases d
  {
    match d
    case Nothing => true
    case Named(_) => true
    case Group(inner) => DeclFits(inner) && !inner.Nothing?
    case Pointer(quals, to) => DeclFits(to) && forall i :: 0 <= i < |quals| ==> IsQualifier(Word(quals[i]))
    case Array(of, size) => DeclFits(of) && !of.Pointer? && (size.Some? ==> Respects(size.value))
    case Function(of, params, varargs) =>
      && DeclFits(of) && !of.Pointer? && ParamsFit(params)
      && (of.Nothing? ==> if params == [] then !varargs else params[0].specs != [])
  }

  predicate ParamsFit(params: seq<TypeName>)
    decreases params
  {
    forall i :: 0 <= i < |params| ==> TypeFits(params[i])
  }

  /** Where a declarator may not be abstract it has a name, or `()` in its place. */
  predicate Anchored(d: Decl) {
    match d
    case Nothing => false
    case Named(_) => true
    case Group(inner) => Anchored(inner)
    case Pointer(_, to) => Anchored(to)
    case Array(of, _) => Anchored(of)
    case Function(of, params, varargs) => Anchored(of) || (of.Nothing? && params == [] && !varargs)
  }

  /** Pointers to nothing. */
  predicate Open(d: Decl) {
    d.Nothing? || (d.Pointer? && Open(d.to))
  }

  /** Nothing in `rest` would be taken into `d`. */
  predicate DeclStops(d: Decl, rest: seq<Token>) {
    rest == [] ||
    (&& rest[0] != LeftBracket && rest[0] != LeftParen
     && (Open(d) ==> !rest[0].Ident? && rest[0] != Star)
     && (Open(d) && d.Pointer? ==> !IsQualifier(rest[0])))
  }

  /** Nor into a type name. */
  predicate TypeStops(tn: TypeName, rest: seq<Token>) {
    tn.Written? && DeclStops(tn.decl, rest) && (tn.decl.Nothing? && rest != [] ==> !rest[0].Word?)
  }

  /** Every node respects precedence and associativity. The operand of `sizeof`
      may not be a cast: the parser takes `sizeof (T)` as a whole. */
  predicate Respects(e: Expr)
    decreases e
  {
    match e
    case Id(_) => true
    case Value(lit) => !lit.Malformed?
    case Paren(inner) => Respects(inner)
    case TypeSize(k, tn) => (k == Sizeof || k == Alignof) && IsTypeName(tn)
    case Prefix(op, operand) =>
      && Respects(operand) && Level(operand) >= UNARY
      && (op.Cast? ==> IsTypeName(op.to))
      && (op.SizeofExpr? || op.AlignofExpr? ==> !(operand.Prefix? && operand.op.Cast?))
    case Postfix(base, post) => Respects(base) && Level(base) >= PRIMARY && RespectsPostfix(post)
    case Binary(op, l, r) =>
      && !op.Ternary? && Respects(l) && Respects(r)
      && Level(l) >= LeftLevel(op) && Level(r) >= RightLevel(op)
    case Conditional(c, t, f) =>
      && Respects(c) && Respects(t) && Respects(f)
      && Level(c) >= LeftLevel(BinOp.Ternary) && Level(f) >= RightLevel(BinOp.Ternary)
  }

  predicate RespectsPostfix(post: PostfixOp)
    decreases post
  {
    match post
    case Index(i) => Respects(i)
    case Call(args) => RespectsArgs(args)
    case _ => true
  }

  /** An argument is anything above an assignment. */
  predicate RespectsArgs(args: seq<Expr>)
    decreases args
  {
    forall i :: 0 <= i < |args| ==> Respects(args[i]) && Level(args[i]) >= Prec(BinOp.Ternary)
  }

  function LeftLevel(op: BinOp): nat {
    if LeftAssociative(op) then Prec(op) else Prec(op) + 1
  }

  function RightLevel(op: BinOp): nat {
    if LeftAssociative(op) then Prec(op) + 1 else Prec(op)
  }

  /** Operators on the same level associate the same way. */
  lemma {:induction false} LevelsAgree(a: BinOp, b: BinOp)
    requires Prec(a) == Prec(b)
    ensures LeftAssociative(a) == LeftAssociative(b)
  {}

  // ---------- what may follow ----------

  predicate StartsPostfix(t: Token) {
    t in {Dot, StructDeref, PlusPlus, MinusMinus, LeftBracket, LeftParen}
  }

  /** `rest` does not go on with an operator that binds at least as tightly as `level`. */
  predicate Stops(rest: seq<Token>, level: nat) {
    rest == [] ||
    (!StartsPostfix(rest[0]) && (OpOf(rest[0]).Some? ==> Prec(OpOf(rest[0]).value) < level))
  }

  /** The least level at which what follows `e` would be taken into `e`'s right operand. */
  function Limit(e: Expr): nat {
    match e
    case Binary(op, _, _) => RightLevel(op)
    case Conditional(_, _, _) => RightLevel(BinOp.Ternary)
    case _ => UNARY
  }
}
