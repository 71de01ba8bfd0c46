/** The parser of expressions and type names as a function of the tokens still to be read. */
module ExprParsing {
  import opened Wrappers
  import opened Tokens
  import opened ExprGrammar

  datatype SyntaxError =
    | MissingPrimary | ExpectedId | Expected(kind: Token) | BadLiteral
    | ExpectedDeclarator | ExpectedType | ExpectedDeclSpecifier

  /** A tree and the tokens left. An error that the parser records before it
      tries to go on counts as a failure. */
  type Parsed<T> = Result<(T, seq<Token>), SyntaxError>

  /** What stands before an operand. */
  datatype Front = NoPrefix | AnOperator(op: PrefixOp, after: seq<Token>) | Failed(error: SyntaxError)

  /** Whether a type in parentheses starts here: the second token decides. */
  predicate ParenthesizedType(ts: seq<Token>) {
    |ts| >= 2 && ts[0] == LeftParen && ts[1].Word? && ts[1].keyword.IsDeclSpecifier()
  }

  // ---------- type names ----------

  function ParseSpecifiers(ts: seq<Token>): (r: Parsed<seq<Keyword>>)
    ensures r.Ok? ==> |r.value.0| + |r.value.1| == |ts|
  {
    if ts == [] || !ts[0].Word? then Ok(([], ts))
    else if !ts[0].keyword.IsDeclSpecifier() then Err(ExpectedDeclSpecifier)
    else
      match ParseSpecifiers(ts[1..])
      case Err(e) => Err(e)
      case Ok((more, rest)) => Ok(([ts[0].keyword] + more, rest))
  }

  function QualRun(ts: seq<Token>): (r: (seq<Keyword>, seq<Token>))
    ensures |r.1| <= |ts|
  {
    if ts != [] && IsQualifier(ts[0]) then
      var (more, rest) := QualRun(ts[1..]);
      ([ts[0].keyword] + more, rest)
    else ([], ts)
  }

  function ParseTypeName(ts: seq<Token>): (r: Parsed<TypeName>)
    ensures r.Ok? ==> |r.value.1| < |ts|
    decreases |ts|, 10
  {
    match ParseSpecifiers(ts)
    case Err(e) => Err(e)
    case Ok((specs, t1)) =>
      match ParseDecl(true, t1)
      case Err(e) => Err(e)
      case Ok((d, rest)) => if specs == [] && d.Nothing? then Err(ExpectedType) else Ok((Written(specs, d), rest))
  }

  /** Nothing at all is a declarator where it may be abstract. */
  function ParseDecl(abs: bool, ts: seq<Token>): (r: Parsed<Decl>)
    ensures r.Ok? ==> |r.value.1| <= |ts| && (!r.value.0.Nothing? ==> |r.value.1| < |ts|)
    decreases |ts|, 9
  {
    if ts != [] && ts[0] == Star then
      var (quals, t1) := QualRun(ts[1..]);
      match ParseDecl(abs, t1)
      case Err(e) => Err(e)
      case Ok((d, rest)) => Ok((Pointer(quals, d), rest))
    else ParseDirect(abs, ts)
  }

  function ParseDirect(abs: bool, ts: seq<Token>): (r: Parsed<Decl>)
    ensures r.Ok? ==> |r.value.1| <= |ts| && (!r.value.0.Nothing? ==> |r.value.1| < |ts|)
    decreases |ts|, 8
  {
    if ts != [] && ts[0].Ident? then ParseSuffixes(Named(ts[0].name), ts[1..])
    else if ts != [] && ts[0] == LeftBracket && abs then ParseSuffixes(Nothing, ts)
    else if ts != [] && ts[0] == LeftParen then
      if |ts| > 1 && ts[1] == RightParen then ParseSuffixes(Function(Nothing, [], false), ts[2..])
      else if |ts| > 1 && ts[1].Word? && ts[1].keyword.IsDeclSpecifier() && abs then ParseSuffixes(Nothing, ts)
      else
        match ParseDecl(abs, ts[1..])
        case Err(e) => Err(e)
        case Ok((d, rest)) =>
          if rest == [] || rest[0] != RightParen then Err(Expected(RightParen)) else ParseSuffixes(Group(d), rest[1..])
    else if abs then ParseSuffixes(Nothing, ts)
    else Err(ExpectedDeclarator)
  }

  /** Arrays and functions, each around what is there. */
  function ParseSuffixes(prefix: Decl, ts: seq<Token>): (r: Parsed<Decl>)
    ensures r.Ok? ==> |r.value.1| <= |ts| && (!r.value.0.Nothing? && prefix.Nothing? ==> |r.value.1| < |ts|)
    decreases |ts|, 7
  {
    if ts == [] || (ts[0] != LeftBracket && ts[0] != LeftParen) then Ok((prefix, ts))
    else
      match (if ts[0] == LeftBracket then ParseArray(prefix, ts[1..]) else ParseParams(prefix, ts[1..]))
      case Err(e) => Err(e)
      case Ok((d, rest)) => ParseSuffixes(d, rest)
  }

  function ParseArray(of: Decl, ts: seq<Token>): (r: Parsed<Decl>)
    ensures r.Ok? ==> |r.value.1| < |ts| && r.value.0.Array? && r.value.0.of == of
    decreases |ts|, 6
  {
    if ts != [] && ts[0] == RightBracket then Ok((Array(of, None), ts[1..]))
    else
      match ParseFrom(0, ts)
      case Err(e) => Err(e)
      case Ok((size, rest)) =>
        if rest == [] || rest[0] != RightBracket then Err(Expected(RightBracket))
        else Ok((Array(of, Some(size)), rest[1..]))
  }

  function ParseParams(of: Decl, ts: seq<Token>): (r: Parsed<Decl>)
    ensures r.Ok? ==> |r.value.1| < |ts| && r.value.0.Function? && r.value.0.of == of
    decreases |ts|, 12
  {
    if ts != [] && ts[0] == RightParen then Ok((Function(of, [], false), ts[1..]))
    else
      match MoreParams(ts)
      case Err(e) => Err(e)
      case Ok(((params, varargs), rest)) => Ok((Function(of, params, varargs), rest))
  }

  function MoreParams(ts: seq<Token>): (r: Parsed<(seq<TypeName>, bool)>)
    ensures r.Ok? ==> |r.value.1| < |ts|
    decreases |ts|, 11
  {
    if ts != [] && ts[0] == Ellipsis then
      if |ts| > 1 && ts[1] == RightParen then Ok((([], true), ts[2..])) else Err(Expected(RightParen))
    else
      match ParseTypeName(ts)
      case Err(e) => Err(e)
      case Ok((param, rest)) =>
        if rest != [] && rest[0] == Token.Comma then
          match MoreParams(rest[1..])
          case Err(e) => Err(e)
          case Ok(((more, varargs), rest')) => Ok((([param] + more, varargs), rest'))
        else if rest != [] && rest[0] == RightParen then Ok((([param], false), rest[1..]))
        else Err(Expected(RightParen))
  }

  /** The type in parentheses. */
  function ParseType(ts: seq<Token>): (r: Parsed<TypeName>)
    requires ParenthesizedType(ts)
    ensures r.Ok? ==> |r.value.1| < |ts|
    decreases |ts|, 0
  {
    match ParseTypeName(ts[1..])
    case Err(e) => Err(e)
    case Ok((tn, rest)) =>
      if rest == [] || rest[0] != RightParen then Err(Expected(RightParen)) else Ok((tn, rest[1..]))
  }

  // ---------- expressions ----------

  function FrontOf(ts: seq<Token>): (f: Front)
    ensures f.AnOperator? ==> |f.after| < |ts|
    decreases |ts|, 1
  {
    if ts == [] then NoPrefix
    else if ParenthesizedType(ts) then
      match ParseType(ts)
      case Ok((tn, rest)) => AnOperator(Cast(tn), rest)
      case Err(e) => Failed(e)
    else
      match ts[0]
      case Star => AnOperator(Deref, ts[1..])
      case BinaryNot => AnOperator(BitwiseNot, ts[1..])
      case LogicalNot => AnOperator(LogNot, ts[1..])
      case Plus => AnOperator(UnaryPlus, ts[1..])
      case Minus => AnOperator(Negate, ts[1..])
      case Ampersand => AnOperator(AddressOf, ts[1..])
      case PlusPlus => AnOperator(PreIncrement, ts[1..])
      case MinusMinus => AnOperator(PreDecrement, ts[1..])
      case Word(k) =>
        if (k == Sizeof || k == Alignof) && !ParenthesizedType(ts[1..]) then
          AnOperator(if k == Sizeof then SizeofExpr else AlignofExpr, ts[1..])
        else NoPrefix
      case _ => NoPrefix
  }

  function ParseFrom(level: nat, ts: seq<Token>): (r: Parsed<Expr>)
    ensures r.Ok? ==> |r.value.1| < |ts|
    decreases |ts|, 3
  {
    match ParseUnary(ts)
    case Err(e) => Err(e)
    case Ok((left, rest)) => ParseBinary(left, level, rest)
  }

  function ParseBinary(left: Expr, level: nat, ts: seq<Token>): (r: Parsed<Expr>)
    ensures r.Ok? ==> |r.value.1| <= |ts|
    decreases |ts|, 4
  {
    if ts == [] || OpOf(ts[0]).None? || Prec(OpOf(ts[0]).value) < level then Ok((left, ts))
    else
      match ParseRight(left, OpOf(ts[0]).value, ts[1..])
      case Err(e) => Err(e)
      case Ok((whole, rest)) => ParseBinary(whole, level, rest)
  }

  /** What an operator makes of its left operand and the tokens after it. */
  function ParseRight(left: Expr, op: BinOp, ts: seq<Token>): (r: Parsed<Expr>)
    ensures r.Ok? ==> |r.value.1| < |ts|
    decreases |ts|, 4
  {
    if op.Ternary? then
      match ParseFrom(0, ts)
      case Err(e) => Err(e)
      case Ok((inner, rest)) =>
        if rest == [] || rest[0] != Colon then Err(Expected(Colon))
        else
          match ParseFrom(Prec(op), rest[1..])
          case Err(e) => Err(e)
          case Ok((right, rest')) => Ok((Conditional(left, inner, right), rest'))
    else
      match ParseFrom(RightLevel(op), ts)
      case Err(e) => Err(e)
      case Ok((right, rest)) => Ok((Binary(op, left, right), rest))
  }

  function ParseUnary(ts: seq<Token>): (r: Parsed<Expr>)
    ensures r.Ok? ==> |r.value.1| < |ts|
    decreases |ts|, 2
  {
    match FrontOf(ts)
    case Failed(e) => Err(e)
    case NoPrefix => ParsePrimary(ts)
    case AnOperator(op, after) =>
      match ParseUnary(after)
      case Err(e) => Err(e)
      case Ok((operand, rest)) => Ok((Prefix(op, operand), rest))
  }

  function ParsePrimary(ts: seq<Token>): (r: Parsed<Expr>)
    ensures r.Ok? ==> |r.value.1| < |ts|
    decreases |ts|, 1
  {
    if ts == [] then Err(MissingPrimary)
    else
      match ts[0]
      case Word(k) =>
        if (k == Sizeof || k == Alignof) && ParenthesizedType(ts[1..]) then
          match ParseType(ts[1..])
          case Err(e) => Err(e)
          case Ok((tn, rest)) => ParsePostfix(TypeSize(k, tn), rest)
        else Err(MissingPrimary)
      case LeftParen =>
        (match ParseFrom(0, ts[1..])
         case Err(e) => Err(e)
         case Ok((inner, rest)) =>
           if rest == [] || rest[0] != RightParen then Err(Expected(RightParen))
           else ParsePostfix(Paren(inner), rest[1..]))
      case Ident(name) => ParsePostfix(Id(name), ts[1..])
      case Literal(lit) => if lit.Malformed? then Err(BadLiteral) else ParsePostfix(Value(lit), ts[1..])
      case _ => Err(MissingPrimary)
  }

  function ParsePostfix(base: Expr, ts: seq<Token>): (r: Parsed<Expr>)
    ensures r.Ok? ==> |r.value.1| <= |ts|
    decreases |ts|, 5
  {
    if ts == [] || !StartsPostfix(ts[0]) then Ok((base, ts))
    else
      match ParsePostfixOp(ts)
      case Err(e) => Err(e)
      case Ok((op, rest)) => ParsePostfix(Postfix(base, op), rest)
  }

  function ParsePostfixOp(ts: seq<Token>): (r: Parsed<PostfixOp>)
    requires ts != [] && StartsPostfix(ts[0])
    ensures r.Ok? ==> |r.value.1| < |ts|
    decreases |ts|, 4
  {
    match ts[0]
    case Dot => if |ts| > 1 && ts[1].Ident? then Ok((Member(ts[1].name), ts[2..])) else Err(ExpectedId)
    case StructDeref => if |ts| > 1 && ts[1].Ident? then Ok((DerefMember(ts[1].name), ts[2..])) else Err(ExpectedId)
    case PlusPlus => Ok((PostIncrement, ts[1..]))
    case MinusMinus => Ok((PostDecrement, ts[1..]))
    case LeftBracket =>
      (match ParseFrom(0, ts[1..])
       case Err(e) => Err(e)
       case Ok((index, rest)) =>
         if rest == [] || rest[0] != RightBracket then Err(Expected(RightBracket))
         else Ok((Index(index), rest[1..])))
    case LeftParen =>
      if |ts| > 1 && ts[1] == RightParen then Ok((Call([]), ts[2..]))
      else
        match ParseArgs(ts[1..])
        case Err(e) => Err(e)
        case Ok((args, rest)) => Ok((Call(args), rest))
  }

  /** One argument or more, and the closing parenthesis. */
  function ParseArgs(ts: seq<Token>): (r: Parsed<seq<Expr>>)
    ensures r.Ok? ==> |r.value.1| < |ts| && r.value.0 != []
    decreases |ts|, 4
  {
    match ParseFrom(Prec(BinOp.Ternary), ts)
    case Err(e) => Err(e)
    case Ok((arg, rest)) =>
      if rest != [] && rest[0] == Token.Comma then
        match ParseArgs(rest[1..])
        case Err(e) => Err(e)
        case Ok((more, rest')) => Ok(([arg] + more, rest'))
      else if rest != [] && rest[0] == RightParen then Ok(([arg], rest[1..]))
      else Err(Expected(RightParen))
  }
}
