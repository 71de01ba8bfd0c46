/** The parser of expressions and type names as the front end has it: methods that read
    tokens through the lookahead. Each is proved to do what the function in `ExprParsing`
    says of the tokens that remain, and to hand on the tree without its `Paren` nodes and
    with its declarators turned inside out. */
module ExprParser {
  import opened Wrappers
  import opened Tokens
  import opened TokenStream
  import opened ExprGrammar
  import opened ExprParsing
  import opened ExprTheorems

  /** `r` and what is left in `p` are what `spec` says. After an error nothing is said
      of what is left. */
  ghost predicate Did<T>(p: Lookahead, r: Result<T, SyntaxError>, spec: Parsed<T>)
    reads p
  {
    match spec
    case Ok((x, rest)) => r == Ok(x) && p.Remaining() == rest
    case Err(e) => r == Err(e)
  }

  /** What is read, as it is handed on. */
  ghost function Erased(spec: Parsed<Expr>): Parsed<Expr> {
    match spec
    case Ok((e, rest)) => Ok((Erase(e), rest))
    case Err(e) => Err(e)
  }

  ghost function ErasedArgs(spec: Parsed<seq<Expr>>): Parsed<seq<Expr>> {
    match spec
    case Ok((es, rest)) => Ok((EraseAll(es), rest))
    case Err(e) => Err(e)
  }

  ghost function ErasedType(spec: Parsed<TypeName>): Parsed<TypeName> {
    match spec
    case Ok((tn, rest)) => Ok((EraseType(tn), rest))
    case Err(e) => Err(e)
  }

  /** A declarator is handed on as its pieces, nothing at all as `None`. */
  ghost function Strung(spec: Parsed<Decl>): Parsed<Option<seq<Piece>>> {
    match spec
    case Ok((d, rest)) => Ok((Given(Pieces(d)), rest))
    case Err(e) => Err(e)
  }

  function Given(pieces: seq<Piece>): Option<seq<Piece>> {
    if pieces == [] then None else Some(pieces)
  }

  function PieceList(d: Option<seq<Piece>>): seq<Piece> {
    if d.Some? then d.value else []
  }

  method Expect(p: Lookahead, kind: Token) returns (error: Option<SyntaxError>)
    requires p.Valid() && !kind.Literal? && !kind.Ident? && !kind.Whitespace?
    modifies p
    ensures p.Valid()
    ensures var ts := old(p.Remaining());
            if ts != [] && ts[0] == kind then error == None && p.Remaining() == ts[1..]
            else error == Some(Expected(kind))
  {
    var ok := p.Expect(kind);
    error := if ok then None else Some(Expected(kind));
  }

  method ParseExpr(p: Lookahead) returns (r: Result<Expr, SyntaxError>)
    requires p.Valid()
    modifies p
    ensures p.Valid() && Did(p, r, Erased(ParseFrom(0, old(p.Remaining()))))
    decreases |p.Remaining()|, 4
  {
    r := CustomExpr(p, 0);
  }

  /** `ternary_expr` and `assignment_expr` are this at their own levels. */
  method CustomExpr(p: Lookahead, level: nat) returns (r: Result<Expr, SyntaxError>)
    requires p.Valid()
    modifies p
    ensures p.Valid() && Did(p, r, Erased(ParseFrom(level, old(p.Remaining()))))
    decreases |p.Remaining()|, 3
  {
    ghost var ts := p.Remaining();
    var start := UnaryExpr(p);
    match start {
      case Err(e) => r := Err(e);
      case Ok(left) =>
        ghost var whole := ParseUnary(ts).value.0;
        r := BinaryExpr(p, left, level, whole);
    }
  }

  method BinaryExpr(p: Lookahead, start: Expr, level: nat, ghost whole: Expr) returns (r: Result<Expr, SyntaxError>)
    requires p.Valid() && start == Erase(whole)
    modifies p
    ensures p.Valid() && Did(p, r, Erased(ParseBinary(whole, level, old(p.Remaining()))))
    decreases |p.Remaining()|, 4
  {
    hide Lookahead.Remaining;
    ghost var spec := ParseBinary(whole, level, p.Remaining());
    ghost var tree := whole;
    var left := start;
    while true
      invariant p.Valid() && left == Erase(tree)
      invariant |p.Remaining()| <= |old(p.Remaining())|
      invariant ParseBinary(tree, level, p.Remaining()) == spec
      decreases |p.Remaining()|
    {
      ghost var ts := p.Remaining();
      var t := p.PeekToken();
      if t.None? || OpOf(t.value).None? || Prec(OpOf(t.value).value) < level {
        return Ok(left);
      }
      var op := OpOf(t.value).value;
      var _ := p.NextToken();
      var right := RightOperand(p, left, op, tree);
      if right.Err? {
        return right;
      }
      left := right.value;
      tree := ParseRight(tree, op, ts[1..]).value.0;
    }
  }

  /** The right operand of `op`, and the tree it makes with `left`. */
  method RightOperand(p: Lookahead, left: Expr, op: BinOp, ghost tree: Expr) returns (r: Result<Expr, SyntaxError>)
    requires p.Valid() && left == Erase(tree)
    modifies p
    ensures p.Valid() && Did(p, r, Erased(ParseRight(tree, op, old(p.Remaining()))))
    decreases |p.Remaining()|, 5
  {
    hide Lookahead.Remaining, Lookahead.Valid, ParseFrom;
    if op.Ternary? {
      var inner := ParseExpr(p);
      if inner.Err? {
        return inner;
      }
      var missing := Expect(p, Colon);
      if missing.Some? {
        return Err(missing.value);
      }
      var right := CustomExpr(p, Prec(BinOp.Ternary));
      r := if right.Err? then right else Ok(Conditional(left, inner.value, right.value));
    } else {
      var right := CustomExpr(p, if LeftAssociative(op) then Prec(op) + 1 else Prec(op));
      r := if right.Err? then right else Ok(Binary(op, left, right.value));
    }
  }

  // ---------- type names ----------

  /** A type in parentheses, if the next two tokens start one. */
  method ParenthesizedTypeName(p: Lookahead) returns (r: Result<Option<TypeName>, SyntaxError>)
    requires p.Valid()
    modifies p
    ensures p.Valid()
    ensures var ts := old(p.Remaining());
            if !ParenthesizedType(ts) then r == Ok(None) && p.Remaining() == ts
            else match ParseType(ts)
                 case Ok((tn, rest)) => r == Ok(Some(EraseType(tn))) && p.Remaining() == rest
                 case Err(e) => r == Err(e)
    decreases |p.Remaining()|, 0
  {
    hide Lookahead.Remaining, ParseTypeName, EraseType;
    var first := p.PeekToken();
    if first != Some(LeftParen) {
      return Ok(None);
    }
    var second := p.PeekNextToken();
    if second.None? || !second.value.Word? || !second.value.keyword.IsDeclSpecifier() {
      return Ok(None);
    }
    var _ := p.NextToken();
    var tn := ParseName(p);
    if tn.Err? {
      return Err(tn.error);
    }
    var missing := Expect(p, RightParen);
    r := if missing.Some? then Err(missing.value) else Ok(Some(tn.value));
  }

  /** Specifiers, and a declarator that may be abstract. */
  method ParseName(p: Lookahead) returns (r: Result<TypeName, SyntaxError>)
    requires p.Valid()
    modifies p
    ensures p.Valid() && Did(p, r, ErasedType(ParseTypeName(old(p.Remaining()))))
    decreases |p.Remaining()|, 10
  {
    hide Lookahead.Remaining, ParseDecl, Pieces, Assembled;
    var specs := Specifiers(p);
    if specs.Err? {
      return Err(specs.error);
    }
    ghost var spec := ParseDecl(true, p.Remaining());
    NothingIsRead(true, p.Remaining());
    var d := ParseDeclarator(p, true);
    if d.Err? {
      return Err(d.error);
    }
    if specs.value == [] && d.value.None? {
      return Err(ExpectedType);
    }
    var assembled := AssembleLoop(PieceList(d.value));
    r := Ok(TypeName.TypeName(specs.value, assembled.0, assembled.1));
  }

  /** Only nothing has no pieces. */
  lemma {:induction false} NothingIsRead(abs: bool, ts: seq<Token>)
    ensures var r := ParseDecl(abs, ts); r.Ok? ==> (Pieces(r.value.0) == [] <==> r.value.0.Nothing?)
  {
    if ParseDecl(abs, ts).Ok? {
      SoundDecl(abs, ts);
      HasPieces(ParseDecl(abs, ts).value.0);
    }
  }

  lemma {:induction false} HasPieces(d: Decl)
    requires DeclFits(d)
    ensures Pieces(d) == [] <==> d.Nothing?
    decreases d
  {
    if d.Group? {
      HasPieces(d.inner);
    }
  }

  method Specifiers(p: Lookahead) returns (r: Result<seq<Keyword>, SyntaxError>)
    requires p.Valid()
    modifies p
    ensures p.Valid() && Did(p, r, ParseSpecifiers(old(p.Remaining())))
  {
    hide Lookahead.Remaining;
    ghost var spec := ParseSpecifiers(p.Remaining());
    var specs: seq<Keyword> := [];
    PrependNothing(spec);
    while true
      invariant p.Valid() && |p.Remaining()| <= |old(p.Remaining())|
      invariant spec == Prepended(specs, ParseSpecifiers(p.Remaining()))
      decreases |p.Remaining()|
    {
      var t := p.PeekToken();
      if t.None? || !t.value.Word? {
        assert specs + [] == specs;
        return Ok(specs);
      }
      if !t.value.keyword.IsDeclSpecifier() {
        return Err(ExpectedDeclSpecifier);
      }
      var _ := p.NextToken();
      PrependMore(specs, t.value.keyword, ParseSpecifiers(p.Remaining()));
      specs := specs + [t.value.keyword];
    }
  }

  method Qualifiers(p: Lookahead) returns (quals: seq<Keyword>)
    requires p.Valid()
    modifies p
    ensures p.Valid() && (quals, p.Remaining()) == QualRun(old(p.Remaining()))
  {
    hide Lookahead.Remaining;
    ghost var spec := QualRun(p.Remaining());
    quals := [];
    assert [] + spec.0 == spec.0;
    while true
      invariant p.Valid() && |p.Remaining()| <= |old(p.Remaining())|
      invariant var (more, rest) := QualRun(p.Remaining()); (quals + more, rest) == spec
      decreases |p.Remaining()|
    {
      var t := p.PeekToken();
      if t.None? || !IsQualifier(t.value) {
        assert quals + [] == quals;
        return;
      }
      var _ := p.NextToken();
      ghost var more := QualRun(p.Remaining()).0;
      assert quals + ([t.value.keyword] + more) == quals + [t.value.keyword] + more;
      quals := quals + [t.value.keyword];
    }
  }

  /** The pointers are stacked first and put in front, the last one first, when the
      direct declarator is there. */
  method ParseDeclarator(p: Lookahead, abs: bool) returns (r: Result<Option<seq<Piece>>, SyntaxError>)
    requires p.Valid()
    modifies p
    ensures p.Valid() && Did(p, r, Strung(ParseDecl(abs, old(p.Remaining()))))
    decreases |p.Remaining()|, 9
  {
    hide Lookahead.Remaining, ParseDirect, QualRun;
    ghost var spec := Strung(ParseDecl(abs, p.Remaining()));
    var pointers: seq<Piece> := [];
    while true
      invariant p.Valid() && |p.Remaining()| <= |old(p.Remaining())|
      invariant spec == Behind(pointers, Strung(ParseDecl(abs, p.Remaining())))
      decreases |p.Remaining()|
    {
      var star := p.MatchNext(Star);
      if star.None? {
        break;
      }
      var quals := Qualifiers(p);
      BehindMore(pointers, Ptr(quals), Strung(ParseDecl(abs, p.Remaining())));
      pointers := pointers + [Ptr(quals)];
    }
    r := DirectDeclarator(p, abs);
    if r.Err? {
      return;
    }
    var d := r.value;
    while pointers != []
      invariant spec.Ok? && p.Remaining() == spec.value.1
      invariant spec.value.0 == if pointers == [] then d else Some(pointers + PieceList(d))
      decreases |pointers|
    {
      var n := |pointers| - 1;
      assert pointers + PieceList(d) == pointers[..n] + ([pointers[n]] + PieceList(d));
      d := Some([pointers[n]] + PieceList(d));
      pointers := pointers[..n];
      assert pointers == [] ==> pointers + PieceList(d) == PieceList(d);
    }
    r := Ok(d);
  }

  /** `r` with the pieces in front of what it found. */
  ghost function Behind(pieces: seq<Piece>, r: Parsed<Option<seq<Piece>>>): Parsed<Option<seq<Piece>>> {
    match r
    case Err(e) => Err(e)
    case Ok((d, rest)) => Ok((if pieces == [] then d else Some(pieces + PieceList(d)), rest))
  }

  lemma {:induction false} BehindMore(pieces: seq<Piece>, piece: Piece, r: Parsed<Option<seq<Piece>>>)
    ensures Behind(pieces, Behind([piece], r)) == Behind(pieces + [piece], r)
  {
    if r.Ok? {
      assert pieces + ([piece] + PieceList(r.value.0)) == pieces + [piece] + PieceList(r.value.0);
      assert pieces == [] ==> pieces + [piece] == [piece];
    }
  }

  method DirectDeclarator(p: Lookahead, abs: bool) returns (r: Result<Option<seq<Piece>>, SyntaxError>)
    requires p.Valid()
    modifies p
    ensures p.Valid() && Did(p, r, Strung(ParseDirect(abs, old(p.Remaining()))))
    decreases |p.Remaining()|, 8
  {
    hide Lookahead.Remaining, ParseSuffixes, ParseDecl;
    ghost var ts := p.Remaining();
    var t := p.PeekToken();
    var decl: Option<seq<Piece>> := None;
    ghost var tree := Nothing;
    if t.Some? && t.value.Ident? {
      var _ := p.NextToken();
      decl := Some([Name(t.value.name)]);
      tree := Named(t.value.name);
    } else if t == Some(LeftParen) {
      var second := p.PeekNextToken();
      if second == Some(RightParen) {
        var _ := p.NextToken();
        var _ := p.NextToken();
        decl := Some([Fun([], false)]);
        tree := Function(Nothing, [], false);
        assert Pieces(tree) == [Fun([], false)];
      } else if !(second.Some? && second.value.Word? && second.value.keyword.IsDeclSpecifier() && abs) {
        var _ := p.NextToken();
        var inner := ParseDeclarator(p, abs);
        if inner.Err? {
          return inner;
        }
        var missing := Expect(p, RightParen);
        if missing.Some? {
          return Err(missing.value);
        }
        decl := inner.value;
        tree := Group(ParseDecl(abs, ts[1..]).value.0);
        assert Pieces(tree) == Pieces(tree.inner);
      }
    } else if !abs {
      return Err(ExpectedDeclarator);
    }
    r := PostfixType(p, decl, tree);
  }

  /** Arrays and functions, each put in front of what is there. */
  method PostfixType(p: Lookahead, start: Option<seq<Piece>>, ghost tree: Decl)
      returns (r: Result<Option<seq<Piece>>, SyntaxError>)
    requires p.Valid() && start == Given(Pieces(tree))
    modifies p
    ensures p.Valid() && Did(p, r, Strung(ParseSuffixes(tree, old(p.Remaining()))))
    decreases |p.Remaining()|, 7
  {
    hide Lookahead.Remaining, ParseArray, ParseParams, Pieces;
    ghost var spec := ParseSuffixes(tree, p.Remaining());
    ghost var whole := tree;
    var prefix := start;
    while true
      invariant p.Valid() && |p.Remaining()| <= |old(p.Remaining())|
      invariant prefix == Given(Pieces(whole)) && spec == ParseSuffixes(whole, p.Remaining())
      decreases |p.Remaining()|
    {
      var t := p.PeekToken();
      if t != Some(LeftBracket) && t != Some(LeftParen) {
        return Ok(prefix);
      }
      var _ := p.NextToken();
      ghost var ts := p.Remaining();
      var piece;
      if t == Some(LeftBracket) {
        piece := ArraySize(p, whole);
      } else {
        piece := ParameterTypeList(p, whole);
      }
      if piece.Err? {
        return Err(piece.error);
      }
      prefix := Some([piece.value] + PieceList(prefix));
      whole := (if t == Some(LeftBracket) then ParseArray(whole, ts) else ParseParams(whole, ts)).value.0;
      OuterPiece(whole);
    }
  }

  /** The outermost piece of what is read. */
  ghost function Outermost(spec: Parsed<Decl>): Parsed<Piece>
    requires spec.Ok? ==> spec.value.0.Array? || spec.value.0.Function?
  {
    match spec
    case Ok((d, rest)) => Ok((Pieces(d)[0], rest))
    case Err(e) => Err(e)
  }

  lemma {:induction false} OuterPiece(d: Decl)
    requires d.Array? || d.Function?
    ensures Pieces(d) == [Pieces(d)[0]] + Pieces(d.of)
    ensures d.Function? ==> Pieces(d)[0] == Fun(EraseTypes(d.params), d.varargs)
  {}

  method ArraySize(p: Lookahead, ghost of: Decl) returns (r: Result<Piece, SyntaxError>)
    requires p.Valid()
    modifies p
    ensures p.Valid() && Did(p, r, Outermost(ParseArray(of, old(p.Remaining()))))
    decreases |p.Remaining()|, 6
  {
    hide Lookahead.Remaining, ParseFrom;
    var close := p.MatchNext(RightBracket);
    if close.Some? {
      return Ok(Arr(None));
    }
    var size := ParseExpr(p);
    if size.Err? {
      return Err(size.error);
    }
    var missing := Expect(p, RightBracket);
    r := if missing.Some? then Err(missing.value) else Ok(Arr(Some(size.value)));
  }

  /** The parameters after the opening parenthesis. */
  method ParameterTypeList(p: Lookahead, ghost of: Decl) returns (r: Result<Piece, SyntaxError>)
    requires p.Valid()
    modifies p
    ensures p.Valid() && Did(p, r, Outermost(ParseParams(of, old(p.Remaining()))))
    decreases |p.Remaining()|, 12
  {
    hide Lookahead.Remaining, ParseTypeName, EraseType, EraseTypes, Pieces;
    ParamsRead(of, p.Remaining());
    var close := p.MatchNext(RightParen);
    if close.Some? {
      return Ok(Fun([], false));
    }
    hide ParseParams;
    ghost var spec := MoreParams(p.Remaining());
    ghost var trees: seq<TypeName> := [];
    var params: seq<TypeName> := [];
    NoParams(spec);
    while true
      invariant p.Valid() && |p.Remaining()| <= |old(p.Remaining())|
      invariant params == EraseTypes(trees) && spec == AfterParams(trees, MoreParams(p.Remaining()))
      decreases |p.Remaining()|
    {
      var dots := p.MatchNext(Ellipsis);
      if dots.Some? {
        assert trees + [] == trees;
        r := CloseParams(p, params, true);
        return;
      }
      ghost var ts := p.Remaining();
      var param := ParseName(p);
      if param.Err? {
        return Err(param.error);
      }
      ghost var tree := ParseTypeName(ts).value.0;
      EraseTypesAppend(trees, tree);
      if p.Remaining() != [] {
        OneMoreParam(trees, tree, MoreParams(p.Remaining()[1..]));
      }
      trees, params := trees + [tree], params + [param.value];
      var comma := p.MatchNext(Token.Comma);
      if comma.None? {
        r := CloseParams(p, params, false);
        return;
      }
    }
  }

  ghost function AsPiece(r: Parsed<(seq<TypeName>, bool)>): Parsed<Piece> {
    match r
    case Ok(((params, varargs), rest)) => Ok((Fun(EraseTypes(params), varargs), rest))
    case Err(e) => Err(e)
  }

  lemma {:induction false} ParamsRead(of: Decl, ts: seq<Token>)
    ensures Outermost(ParseParams(of, ts)) ==
            if ts != [] && ts[0] == RightParen then Ok((Fun([], false), ts[1..])) else AsPiece(MoreParams(ts))
  {
    hide MoreParams;
    assert EraseTypes([]) == [];
    if ParseParams(of, ts).Ok? {
      OuterPiece(ParseParams(of, ts).value.0);
    }
  }

  method CloseParams(p: Lookahead, params: seq<TypeName>, varargs: bool) returns (r: Result<Piece, SyntaxError>)
    requires p.Valid()
    modifies p
    ensures p.Valid()
    ensures var ts := old(p.Remaining());
            Did(p, r, if ts != [] && ts[0] == RightParen then Ok((Fun(params, varargs), ts[1..])) else Err(Expected(RightParen)))
  {
    hide Lookahead.Remaining;
    var missing := Expect(p, RightParen);
    r := if missing.Some? then Err(missing.value) else Ok(Fun(params, varargs));
  }

  /** `r` with the parameters in front of those it found. */
  ghost function AfterParams(done: seq<TypeName>, r: Parsed<(seq<TypeName>, bool)>): Parsed<(seq<TypeName>, bool)> {
    match r
    case Ok(((more, varargs), rest)) => Ok(((done + more, varargs), rest))
    case Err(e) => Err(e)
  }

  lemma {:induction false} NoParams(r: Parsed<(seq<TypeName>, bool)>)
    ensures AfterParams([], r) == r
  {
    if r.Ok? {
      assert [] + r.value.0.0 == r.value.0.0;
    }
  }

  lemma {:induction false} OneMoreParam(done: seq<TypeName>, tn: TypeName, r: Parsed<(seq<TypeName>, bool)>)
    ensures AfterParams(done, AfterParams([tn], r)) == AfterParams(done + [tn], r)
  {
    if r.Ok? {
      assert done + ([tn] + r.value.0.0) == done + [tn] + r.value.0.0;
    }
  }

  lemma {:induction false} EraseTypesAppend(tns: seq<TypeName>, tn: TypeName)
    ensures EraseTypes(tns + [tn]) == EraseTypes(tns) + [EraseType(tn)]
    decreases |tns|
  {
    hide EraseType;
    if tns == [] {
      assert tns + [tn] == [tn];
    } else {
      assert (tns + [tn])[1..] == tns[1..] + [tn];
      EraseTypesAppend(tns[1..], tn);
    }
  }

  /** Turns the pieces inside out. */
  method AssembleLoop(pieces: seq<Piece>) returns (r: (Declarator, Option<string>))
    ensures r == Assembled(pieces)
  {
    var current, id, i := End, None, 0;
    assert pieces[0..] == pieces;
    while i < |pieces|
      invariant i <= |pieces| && Assemble(pieces[i..], current, id) == Assembled(pieces)
    {
      match pieces[i] {
        case Name(name) => id := Some(name);
        case Ptr(quals) => current := PointerTo(current, quals);
        case Arr(size) => current := ArrayOf(current, size);
        case Fun(params, varargs) => current := FunctionReturning(current, params, varargs);
      }
      assert pieces[i..][1..] == pieces[i + 1..];
      i := i + 1;
    }
    r := (current, id);
  }

  // ---------- operands ----------

  datatype Matched = NoMatch | MatchedOp(op: PrefixOp) | MatchedType(keyword: Keyword, tn: TypeName)

  function ErasePrefix(op: PrefixOp): PrefixOp {
    if op.Cast? then Cast(EraseType(op.to)) else op
  }

  /** A prefix operator, or `sizeof` with a type after it. */
  method MatchPrefixOperator(p: Lookahead) returns (r: Result<Matched, SyntaxError>)
    requires p.Valid()
    modifies p
    ensures p.Valid()
    ensures var ts := old(p.Remaining());
            match FrontOf(ts)
            case Failed(e) => r == Err(e)
            case AnOperator(op, after) => r == Ok(MatchedOp(ErasePrefix(op))) && p.Remaining() == after
            case NoPrefix =>
              if ts != [] && ts[0].Word? && (ts[0].keyword == Sizeof || ts[0].keyword == Alignof) then
                match ParseType(ts[1..])
                case Ok((tn, rest)) => r == Ok(MatchedType(ts[0].keyword, EraseType(tn))) && p.Remaining() == rest
                case Err(e) => r == Err(e)
              else r == Ok(NoMatch) && p.Remaining() == ts
    decreases |p.Remaining()|, 1
  {
    hide Lookahead.Remaining, ParseType, EraseType;
    var cast := ParenthesizedTypeName(p);
    match cast {
      case Err(e) => return Err(e);
      case Ok(Some(tn)) => return Ok(MatchedOp(Cast(tn)));
      case Ok(None) =>
    }
    var t := p.PeekToken();
    if t.None? {
      return Ok(NoMatch);
    }
    match t.value {
      case Star => r := Ok(MatchedOp(Deref));
      case BinaryNot => r := Ok(MatchedOp(BitwiseNot));
      case LogicalNot => r := Ok(MatchedOp(LogNot));
      case Plus => r := Ok(MatchedOp(UnaryPlus));
      case Minus => r := Ok(MatchedOp(Negate));
      case Ampersand => r := Ok(MatchedOp(AddressOf));
      case PlusPlus => r := Ok(MatchedOp(PreIncrement));
      case MinusMinus => r := Ok(MatchedOp(PreDecrement));
      case Word(k) =>
        if k != Sizeof && k != Alignof {
          return Ok(NoMatch);
        }
        var _ := p.NextToken();
        var ty := ParenthesizedTypeName(p);
        match ty {
          case Err(e) => return Err(e);
          case Ok(Some(tn)) => return Ok(MatchedType(k, tn));
          case Ok(None) => return Ok(MatchedOp(if k == Sizeof then SizeofExpr else AlignofExpr));
        }
      case _ => return Ok(NoMatch);
    }
    var _ := p.NextToken();
  }

  /** `inner` under the operators of the stack, the last one innermost. */
  function Wrap(prefixes: seq<PrefixOp>, inner: Expr): Expr {
    if prefixes == [] then inner
    else Wrap(prefixes[..|prefixes| - 1], Prefix(prefixes[|prefixes| - 1], inner))
  }

  ghost function Wrapped(prefixes: seq<PrefixOp>, r: Parsed<Expr>): Parsed<Expr> {
    match r
    case Ok((e, rest)) => Ok((Wrap(prefixes, e), rest))
    case Err(e) => Err(e)
  }

  /** Prefix operators are stacked first and applied when the operand is there. */
  method UnaryExpr(p: Lookahead) returns (r: Result<Expr, SyntaxError>)
    requires p.Valid()
    modifies p
    ensures p.Valid() && Did(p, r, Erased(ParseUnary(old(p.Remaining()))))
    decreases |p.Remaining()|, 2
  {
    hide Lookahead.Remaining, ParsePostfix, ParseType;
    ghost var spec := Erased(ParseUnary(p.Remaining()));
    var prefixes: seq<PrefixOp> := [];
    ghost var ts := p.Remaining();
    while true
      invariant p.Valid() && ts == p.Remaining() && |ts| <= |old(p.Remaining())|
      invariant spec == Wrapped(prefixes, Erased(ParseUnary(ts)))
      decreases |ts|
    {
      var front := MatchPrefixOperator(p);
      match front {
        case Err(e) => return Err(e);
        case Ok(MatchedOp(op)) =>
          assert prefixes == (prefixes + [op])[..|prefixes|];
          prefixes := prefixes + [op];
          ts := p.Remaining();
        case Ok(MatchedType(k, tn)) =>
          r := PostfixExpr(p, TypeSize(k, tn), TypeSize(k, ParseType(ts[1..]).value.0));
          break;
        case Ok(NoMatch) =>
          r := PrimaryExpr(p);
          break;
      }
    }
    if r.Ok? {
      var inner := r.value;
      while prefixes != []
        invariant Wrap(prefixes, inner) == spec.value.0
        decreases |prefixes|
      {
        inner := Prefix(prefixes[|prefixes| - 1], inner);
        prefixes := prefixes[..|prefixes| - 1];
      }
      r := Ok(inner);
    }
  }

  method PrimaryExpr(p: Lookahead) returns (r: Result<Expr, SyntaxError>)
    requires p.Valid()
    requires var ts := p.Remaining(); ts != [] && ts[0].Word? ==> !(ts[0].keyword in {Sizeof, Alignof})
    modifies p
    ensures p.Valid() && Did(p, r, Erased(ParsePrimary(old(p.Remaining()))))
    decreases |p.Remaining()|, 1
  {
    hide Lookahead.Remaining;
    ghost var ts := p.Remaining();
    var paren := p.MatchNext(LeftParen);
    if paren.Some? {
      r := ParseExpr(p);
      if r.Err? {
        return;
      }
      var missing := Expect(p, RightParen);
      if missing.Some? {
        return Err(missing.value);
      }
      r := PostfixExpr(p, r.value, Paren(ParseFrom(0, ts[1..]).value.0));
      return;
    }
    var name := p.MatchId();
    if name.Some? {
      r := PostfixExpr(p, Id(name.value), Id(name.value));
      return;
    }
    var lit := p.MatchLiteral();
    if lit.None? {
      return Err(MissingPrimary);
    }
    if lit.value.Malformed? {
      return Err(BadLiteral);
    }
    r := PostfixExpr(p, Value(lit.value), Value(lit.value));
  }

  method PostfixExpr(p: Lookahead, start: Expr, ghost base: Expr) returns (r: Result<Expr, SyntaxError>)
    requires p.Valid() && start == Erase(base)
    modifies p
    ensures p.Valid() && Did(p, r, Erased(ParsePostfix(base, old(p.Remaining()))))
    decreases |p.Remaining()|, 5
  {
    hide Lookahead.Remaining;
    ghost var spec := ParsePostfix(base, p.Remaining());
    ghost var tree := base;
    var e := start;
    while true
      invariant p.Valid() && e == Erase(tree) && |p.Remaining()| <= |old(p.Remaining())|
      invariant ParsePostfix(tree, p.Remaining()) == spec
      decreases |p.Remaining()|
    {
      ghost var ts := p.Remaining();
      var t := p.PeekToken();
      if t.None? || !StartsPostfix(t.value) {
        return Ok(e);
      }
      var op := MatchPostfixOp(p, t.value);
      if op.Err? {
        return Err(op.error);
      }
      e := Postfix(e, op.value);
      tree := Postfix(tree, ParsePostfixOp(ts).value.0);
    }
  }

  function EraseOp(op: PostfixOp): PostfixOp {
    match op
    case Index(i) => Index(Erase(i))
    case Call(args) => Call(EraseAll(args))
    case _ => op
  }

  method MatchPostfixOp(p: Lookahead, first: Token) returns (r: Result<PostfixOp, SyntaxError>)
    requires p.Valid() && p.Remaining() != [] && p.Remaining()[0] == first && StartsPostfix(first)
    modifies p
    ensures p.Valid()
    ensures match ParsePostfixOp(old(p.Remaining()))
            case Ok((op, rest)) => r == Ok(EraseOp(op)) && p.Remaining() == rest
            case Err(e) => r == Err(e)
    decreases |p.Remaining()|, 4
  {
    hide Lookahead.Remaining;
    var _ := p.NextToken();
    if first == PlusPlus || first == MinusMinus {
      r := Ok(if first == PlusPlus then PostIncrement else PostDecrement);
    } else if first == LeftBracket {
      var index := ParseExpr(p);
      if index.Err? {
        return Err(index.error);
      }
      var missing := Expect(p, RightBracket);
      r := if missing.Some? then Err(missing.value) else Ok(Index(index.value));
    } else if first == LeftParen {
      var empty := p.MatchNext(RightParen);
      if empty.Some? {
        r := Ok(Call([]));
      } else {
        var args := Arguments(p);
        r := if args.Err? then Err(args.error) else Ok(Call(args.value));
      }
    } else {
      var name := p.ExpectId();
      r := if name.None? then Err(ExpectedId)
           else Ok(if first == Dot then Member(name.value) else DerefMember(name.value));
    }
  }

  ghost function Prepended<T>(done: seq<T>, r: Parsed<seq<T>>): Parsed<seq<T>> {
    match r
    case Ok((es, rest)) => Ok((done + es, rest))
    case Err(e) => Err(e)
  }

  lemma {:induction false} PrependNothing<T>(r: Parsed<seq<T>>)
    ensures Prepended([], r) == r
  {
    if r.Ok? {
      assert [] + r.value.0 == r.value.0;
    }
  }

  lemma {:induction false} PrependMore<T>(done: seq<T>, e: T, r: Parsed<seq<T>>)
    ensures Prepended(done, Prepended([e], r)) == Prepended(done + [e], r)
  {
    if r.Ok? {
      assert done + ([e] + r.value.0) == done + [e] + r.value.0;
    }
  }

  lemma {:induction false} EraseAppend(es: seq<Expr>, e: Expr)
    ensures EraseAll(es + [e]) == EraseAll(es) + [Erase(e)]
    decreases |es|
  {
    if es == [] {
      assert es + [e] == [e];
    } else {
      assert (es + [e])[1..] == es[1..] + [e];
      EraseAppend(es[1..], e);
    }
  }

  method Arguments(p: Lookahead) returns (r: Result<seq<Expr>, SyntaxError>)
    requires p.Valid()
    modifies p
    ensures p.Valid() && Did(p, r, ErasedArgs(ParseArgs(old(p.Remaining()))))
    decreases |p.Remaining()|, 4
  {
    hide Lookahead.Remaining;
    ghost var spec := ParseArgs(p.Remaining());
    ghost var trees: seq<Expr> := [];
    var args: seq<Expr> := [];
    PrependNothing(spec);
    while true
      invariant p.Valid() && args == EraseAll(trees) && |p.Remaining()| <= |old(p.Remaining())|
      invariant spec == Prepended(trees, ParseArgs(p.Remaining()))
      decreases |p.Remaining()|
    {
      ghost var ts := p.Remaining();
      var arg := CustomExpr(p, Prec(BinOp.Ternary));
      if arg.Err? {
        return Err(arg.error);
      }
      ghost var tree := ParseFrom(Prec(BinOp.Ternary), ts).value.0;
      EraseAppend(trees, tree);
      if p.Remaining() != [] {
        PrependMore(trees, tree, ParseArgs(p.Remaining()[1..]));
      }
      trees, args := trees + [tree], args + [arg.value];
      var comma := p.MatchNext(Token.Comma);
      if comma.None? {
        var missing := Expect(p, RightParen);
        if missing.Some? {
          return Err(missing.value);
        }
        return Ok(args);
      }
    }
  }
}
