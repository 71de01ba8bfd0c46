/** The parser accepts exactly the grammar of the precedence table. */
module ExprTheorems {
  import opened Wrappers
  import opened Tokens
  import opened ExprGrammar
  import opened ExprParsing

  /** `ts` is the expression `e`, as written, and then `rest`; `e` respects the
      table and binds at least as tightly as `level`, and `rest` goes on with
      nothing that belongs to it. */
  predicate Derives(e: Expr, level: nat, ts: seq<Token>, rest: seq<Token>) {
    ts == Spell(e, rest) && Respects(e) && Level(e) >= level && Stops(rest, level)
  }

  // ---------- whatever is parsed is in the grammar ----------

  lemma {:induction false} SoundFrom(level: nat, ts: seq<Token>)
    requires ParseFrom(level, ts).Ok? && level <= UNARY
    ensures var (e, rest) := ParseFrom(level, ts).value; Derives(e, level, ts, rest)
    decreases |ts|, 3
  {
    SoundUnary(ts);
    var (left, rest) := ParseUnary(ts).value;
    SoundBinary(left, level, rest);
  }

  lemma {:induction false} SoundBinary(left: Expr, level: nat, ts: seq<Token>)
    requires ParseBinary(left, level, ts).Ok? && Respects(left) && Level(left) >= level && Stops(ts, Limit(left))
    ensures var (e, rest) := ParseBinary(left, level, ts).value; Derives(e, level, Spell(left, ts), rest)
    decreases |ts|, 4
  {
    if ts != [] && OpOf(ts[0]).Some? && Prec(OpOf(ts[0]).value) >= level {
      var op := OpOf(ts[0]).value;
      LeftFits(left, op);
      OpHasSymbol(ts[0]);
      assert ts == [Symbol(op)] + ts[1..];
      SoundRight(left, op, ts[1..]);
      var (whole, rest) := ParseRight(left, op, ts[1..]).value;
      SoundBinary(whole, level, rest);
    }
  }

  /** An operator that did not go to the right operand of `left` can take `left`. */
  lemma {:induction false} LeftFits(left: Expr, op: BinOp)
    requires Prec(op) < Limit(left) && Respects(left)
    ensures Level(left) >= LeftLevel(op)
  {}

  lemma {:induction false} OpHasSymbol(t: Token)
    requires OpOf(t).Some?
    ensures Symbol(OpOf(t).value) == t
  {}

  lemma {:induction false} SoundRight(left: Expr, op: BinOp, ts: seq<Token>)
    requires ParseRight(left, op, ts).Ok? && Respects(left) && Level(left) >= LeftLevel(op)
    ensures var (whole, rest) := ParseRight(left, op, ts).value;
            && Spell(left, [Symbol(op)] + ts) == Spell(whole, rest)
            && Respects(whole) && Level(whole) == Prec(op) && Stops(rest, Limit(whole))
    decreases |ts|, 4
  {
    if op.Ternary? {
      SoundFrom(0, ts);
      var (inner, rest) := ParseFrom(0, ts).value;
      assert rest == [Colon] + rest[1..];
      SoundFrom(Prec(op), rest[1..]);
    } else {
      SoundFrom(RightLevel(op), ts);
    }
  }

  lemma {:induction false} SoundUnary(ts: seq<Token>)
    requires ParseUnary(ts).Ok?
    ensures var (e, rest) := ParseUnary(ts).value;
            Derives(e, UNARY, ts, rest) && (e.Prefix? && e.op.Cast? ==> ParenthesizedType(ts))
    decreases |ts|, 2
  {
    if FrontOf(ts).NoPrefix? {
      SoundPrimary(ts);
    } else {
      SoundUnary(FrontOf(ts).after);
      FrontTokens(ts);
    }
  }

  lemma {:induction false} FrontTokens(ts: seq<Token>)
    requires FrontOf(ts).AnOperator?
    ensures var f := FrontOf(ts);
            && ts == PrefixTokens(f.op, f.after)
            && (f.op.Cast? ==> IsTypeName(f.op.to) && ParenthesizedType(ts))
            && (f.op.SizeofExpr? || f.op.AlignofExpr? ==> f.after == ts[1..] && !ParenthesizedType(ts[1..]))
    decreases |ts|, 1
  {
    if ParenthesizedType(ts) {
      SoundType(ts);
    } else {
      assert ts == [ts[0]] + ts[1..];
    }
  }

  lemma {:induction false} SoundPrimary(ts: seq<Token>)
    requires ParsePrimary(ts).Ok? && FrontOf(ts).NoPrefix?
    ensures var (e, rest) := ParsePrimary(ts).value; Derives(e, PRIMARY, ts, rest)
    decreases |ts|, 1
  {
    assert ts == [ts[0]] + ts[1..];
    match ts[0]
    case Word(k) =>
      SoundType(ts[1..]);
      var (tn, rest) := ParseType(ts[1..]).value;
      SoundPostfix(TypeSize(k, tn), rest);
    case LeftParen =>
      SoundFrom(0, ts[1..]);
      var (inner, rest) := ParseFrom(0, ts[1..]).value;
      assert rest == [RightParen] + rest[1..];
      SoundPostfix(Paren(inner), rest[1..]);
    case Ident(name) => SoundPostfix(Id(name), ts[1..]);
    case Literal(lit) => SoundPostfix(Value(lit), ts[1..]);
    case _ =>
  }

  lemma {:induction false} SoundPostfix(base: Expr, ts: seq<Token>)
    requires ParsePostfix(base, ts).Ok? && Respects(base) && Level(base) >= PRIMARY
    ensures var (e, rest) := ParsePostfix(base, ts).value; Derives(e, PRIMARY, Spell(base, ts), rest)
    decreases |ts|, 5
  {
    if ts != [] && StartsPostfix(ts[0]) {
      SoundPostfixOp(ts);
      var (op, rest) := ParsePostfixOp(ts).value;
      SoundPostfix(Postfix(base, op), rest);
    } else if ts != [] && OpOf(ts[0]).Some? {
      PrecBelow(OpOf(ts[0]).value);
    }
  }

  lemma {:induction false} PrecBelow(op: BinOp)
    ensures Prec(op) < UNARY
  {}

  lemma {:induction false} SoundPostfixOp(ts: seq<Token>)
    requires ts != [] && StartsPostfix(ts[0]) && ParsePostfixOp(ts).Ok?
    ensures var (op, rest) := ParsePostfixOp(ts).value; ts == PostfixTokens(op, rest) && RespectsPostfix(op)
    decreases |ts|, 4
  {
    assert ts == [ts[0]] + ts[1..];
    if ts[0] == LeftBracket {
      SoundFrom(0, ts[1..]);
      var (index, rest) := ParseFrom(0, ts[1..]).value;
      assert rest == [RightBracket] + rest[1..];
    } else if ts[0] == LeftParen {
      if |ts| > 1 && ts[1] == RightParen {
        assert ts[1..] == [RightParen] + ts[2..];
      } else {
        SoundArgs(ts[1..]);
      }
    } else if ts[0] == Dot || ts[0] == StructDeref {
      assert ts == [ts[0], ts[1]] + ts[2..];
    }
  }

  lemma {:induction false} SoundArgs(ts: seq<Token>)
    requires ParseArgs(ts).Ok?
    ensures var (args, rest) := ParseArgs(ts).value; ts == SpellArgs(args, rest) && RespectsArgs(args)
    decreases |ts|, 4
  {
    var level := Prec(BinOp.Ternary);
    SoundFrom(level, ts);
    var (arg, rest) := ParseFrom(level, ts).value;
    assert rest == [rest[0]] + rest[1..];
    if rest[0] == Token.Comma {
      SoundArgs(rest[1..]);
      var (more, _) := ParseArgs(rest[1..]).value;
      assert ([arg] + more)[1..] == more;
    }
  }

  // ---------- type names that are parsed are in the grammar ----------

  predicate StartsType(ts: seq<Token>) {
    ts != [] && ts[0].Word? && ts[0].keyword.IsDeclSpecifier()
  }

  /** What may come where a name is missing. */
  predicate NoNameNext(ts: seq<Token>) {
    ts != [] ==> !ts[0].Ident? && ts[0] != Star && (ts[0] == LeftParen ==> StartsType(ts[1..]))
  }

  lemma {:induction false} SoundSpecifiers(ts: seq<Token>)
    requires ParseSpecifiers(ts).Ok?
    ensures var (specs, rest) := ParseSpecifiers(ts).value;
            && ts == Words(specs, rest) && (rest != [] ==> !rest[0].Word?)
            && (forall i :: 0 <= i < |specs| ==> specs[i].IsDeclSpecifier()) && (StartsType(ts) ==> specs != [])
    decreases |ts|
  {
    if ts != [] && ts[0].Word? {
      SoundSpecifiers(ts[1..]);
      assert ts == [ts[0]] + ts[1..];
    }
  }

  lemma {:induction false} SoundQualifiers(ts: seq<Token>)
    ensures var (quals, rest) := QualRun(ts);
            && ts == Words(quals, rest) && (rest != [] ==> !IsQualifier(rest[0]))
            && forall i :: 0 <= i < |quals| ==> IsQualifier(Word(quals[i]))
    decreases |ts|
  {
    if ts != [] && IsQualifier(ts[0]) {
      SoundQualifiers(ts[1..]);
      assert ts == [ts[0]] + ts[1..];
    }
  }

  /** `ts` is the type name `tn`, as written, and then `rest`, with nothing that belongs to it. */
  predicate Names(tn: TypeName, ts: seq<Token>, rest: seq<Token>) {
    ts == SpellType(tn, rest) && TypeFits(tn) && TypeStops(tn, rest)
  }

  /** The same for a declarator. */
  predicate Declares(d: Decl, abs: bool, ts: seq<Token>, rest: seq<Token>) {
    ts == SpellDecl(d, rest) && DeclFits(d) && (abs || Anchored(d)) && DeclStops(d, rest)
  }

  lemma {:induction false} SoundTypeName(ts: seq<Token>)
    requires ParseTypeName(ts).Ok?
    ensures var (tn, rest) := ParseTypeName(ts).value;
            Names(tn, ts, rest) && (StartsType(ts) ==> tn.specs != [])
    decreases |ts|, 10
  {
    SoundSpecifiers(ts);
    var (specs, t1) := ParseSpecifiers(ts).value;
    SoundDecl(true, t1);
  }

  lemma {:induction false} SoundDecl(abs: bool, ts: seq<Token>)
    requires ParseDecl(abs, ts).Ok?
    ensures var (d, rest) := ParseDecl(abs, ts).value; Declares(d, abs, ts, rest)
    decreases |ts|, 9
  {
    hide Words, SpellDecl, DeclFits, DeclStops, Anchored, ParseDirect;
    if ts != [] && ts[0] == Star {
      var (quals, t1) := QualRun(ts[1..]);
      SoundQualifiers(ts[1..]);
      SoundDecl(abs, t1);
      var (d, rest) := ParseDecl(abs, t1).value;
      assert ts == [Star] + ts[1..];
      SoundPointer(quals, d, abs, t1, rest);
    } else {
      SoundDirect(abs, ts);
    }
  }

  lemma {:induction false} SoundPointer(quals: seq<Keyword>, d: Decl, abs: bool, ts: seq<Token>, rest: seq<Token>)
    requires Declares(d, abs, ts, rest) && (ts != [] ==> !IsQualifier(ts[0]))
    requires forall i :: 0 <= i < |quals| ==> IsQualifier(Word(quals[i]))
    ensures Declares(Pointer(quals, d), abs, [Star] + Words(quals, ts), rest)
  {
    var p := Pointer(quals, d);
    assert Open(p) == Open(d) && Anchored(p) == Anchored(d);
    if d.Nothing? {
      assert ts == rest;
    }
    assert DeclStops(p, rest) && SpellDecl(p, rest) == [Star] + Words(quals, ts);
  }

  lemma {:induction false} SoundDirect(abs: bool, ts: seq<Token>)
    requires ParseDirect(abs, ts).Ok? && (ts != [] ==> ts[0] != Star)
    ensures var (d, rest) := ParseDirect(abs, ts).value; Declares(d, abs, ts, rest)
    decreases |ts|, 8
  {
    hide ParseSuffixes, ParseDecl;
    assert ts != [] ==> ts == [ts[0]] + ts[1..];
    if ts != [] && ts[0].Ident? {
      SoundSuffixes(Named(ts[0].name), ts[1..]);
    } else if ts != [] && ts[0] == LeftParen && |ts| > 1 && ts[1] == RightParen {
      assert ts == [LeftParen] + ([RightParen] + ts[2..]);
      SoundSuffixes(Function(Nothing, [], false), ts[2..]);
    } else if ts != [] && ts[0] == LeftParen && !(StartsType(ts[1..]) && abs) {
      SoundDecl(abs, ts[1..]);
      var (d, rest) := ParseDecl(abs, ts[1..]).value;
      assert rest == [RightParen] + rest[1..];
      SoundSuffixes(Group(d), rest[1..]);
    } else {
      SoundSuffixes(Nothing, ts);
    }
  }

  lemma {:induction false} SoundSuffixes(prefix: Decl, ts: seq<Token>)
    requires ParseSuffixes(prefix, ts).Ok? && DeclFits(prefix) && !prefix.Pointer? && (prefix.Nothing? ==> NoNameNext(ts))
    ensures var (d, rest) := ParseSuffixes(prefix, ts).value;
            && SpellDecl(prefix, ts) == SpellDecl(d, rest) && DeclFits(d) && DeclStops(d, rest)
            && (Anchored(prefix) ==> Anchored(d))
    decreases |ts|, 7
  {
    hide ParseArray, ParseParams;
    if ts != [] && ts[0] == LeftBracket {
      assert ts == [ts[0]] + ts[1..];
      SoundArray(prefix, ts[1..]);
      var (d, rest) := ParseArray(prefix, ts[1..]).value;
      SoundSuffixes(d, rest);
    } else if ts != [] && ts[0] == LeftParen {
      assert ts == [ts[0]] + ts[1..];
      SoundParams(prefix, ts[1..]);
      var (d, rest) := ParseParams(prefix, ts[1..]).value;
      SoundSuffixes(d, rest);
    }
  }

  lemma {:induction false} SoundArray(of: Decl, ts: seq<Token>)
    requires ParseArray(of, ts).Ok?
    ensures var (d, rest) := ParseArray(of, ts).value;
            && SpellDecl(of, [LeftBracket] + ts) == SpellDecl(d, rest)
            && (d.size.Some? ==> Respects(d.size.value))
    decreases |ts|, 6
  {
    if ts != [] && ts[0] == RightBracket {
      assert [LeftBracket] + ts == [LeftBracket, RightBracket] + ts[1..];
    } else {
      SoundFrom(0, ts);
      var (size, rest) := ParseFrom(0, ts).value;
      assert rest == [RightBracket] + rest[1..];
    }
  }

  lemma {:induction false} SoundParams(of: Decl, ts: seq<Token>)
    requires ParseParams(of, ts).Ok?
    ensures var (d, rest) := ParseParams(of, ts).value;
            && SpellDecl(of, [LeftParen] + ts) == SpellDecl(d, rest) && ParamsFit(d.params)
            && (StartsType(ts) ==> d.params != [] && d.params[0].specs != [])
    decreases |ts|, 12
  {
    if ts != [] && ts[0] == RightParen {
      assert ts == [RightParen] + ts[1..];
    } else {
      SoundMore(ts);
    }
  }

  lemma {:induction false} SoundMore(ts: seq<Token>)
    requires MoreParams(ts).Ok?
    ensures var ((params, varargs), rest) := MoreParams(ts).value;
            && ts == SpellMore(params, varargs, rest) && ParamsFit(params) && (params != [] || varargs)
            && (StartsType(ts) ==> params != [] && params[0].specs != [])
    decreases |ts|, 11
  {
    hide ParseTypeName;
    if ts != [] && ts[0] == Ellipsis {
      assert ts == [Ellipsis, RightParen] + ts[2..];
    } else {
      SoundTypeName(ts);
      var (param, rest) := ParseTypeName(ts).value;
      assert rest == [rest[0]] + rest[1..];
      if rest[0] == Token.Comma {
        SoundMore(rest[1..]);
        var ((more, _), _) := MoreParams(rest[1..]).value;
        assert ([param] + more)[1..] == more;
      }
    }
  }

  lemma {:induction false} SoundType(ts: seq<Token>)
    requires ParenthesizedType(ts) && ParseType(ts).Ok?
    ensures var (tn, rest) := ParseType(ts).value; ts == TypeTokens(tn, rest) && IsTypeName(tn)
    decreases |ts|, 0
  {
    SoundTypeName(ts[1..]);
    var (tn, rest) := ParseTypeName(ts[1..]).value;
    assert ts == [LeftParen] + ts[1..] && rest == [RightParen] + rest[1..];
  }

  // ---------- whatever is in the grammar is parsed ----------

  /** The parser reads `e` up to its limit and goes on from there. */
  lemma {:induction false} FromSpelling(e: Expr, level: nat, rest: seq<Token>)
    requires Respects(e) && Level(e) >= level && Stops(rest, Limit(e))
    ensures ParseFrom(level, Spell(e, rest)) == ParseBinary(e, level, rest)
    decreases e, 2
  {
    hide ParseRight, ParseUnary;
    match e
    case Binary(op, l, r) =>
      RightSpelling(e, op, rest);
      LeftStops(l, op, Spell(r, rest));
      FromSpelling(l, level, [Symbol(op)] + Spell(r, rest));
      OperatorStep(l, op, level, Spell(r, rest), e, rest);
    case Conditional(c, t, f) =>
      var ts := Spell(t, [Colon] + Spell(f, rest));
      RightSpelling(e, BinOp.Ternary, rest);
      LeftStops(c, BinOp.Ternary, ts);
      FromSpelling(c, level, [Question] + ts);
      OperatorStep(c, BinOp.Ternary, level, ts, e, rest);
    case _ => UnarySpelling(e, rest);
  }

  lemma {:induction false} RightSpelling(e: Expr, op: BinOp, rest: seq<Token>)
    requires Respects(e) && Stops(rest, Limit(e)) && Prec(op) == Level(e)
    requires (e.Binary? && e.bin == op) || (e.Conditional? && op.Ternary?)
    ensures e.Binary? ==> ParseRight(e.left, op, Spell(e.right, rest)) == Ok((e, rest))
    ensures e.Conditional? ==> ParseRight(e.cond, op, Spell(e.thn, [Colon] + Spell(e.els, rest))) == Ok((e, rest))
    decreases e, 0
  {
    hide ParseFrom, Spell;
    if e.Binary? {
      ParsedBack(e.right, RightLevel(op), rest);
    } else {
      var els := [Colon] + Spell(e.els, rest);
      ParsedBack(e.els, RightLevel(op), rest);
      assert els[1..] == Spell(e.els, rest);
      ParsedBack(e.thn, 0, els);
    }
  }

  lemma {:induction false} LeftStops(left: Expr, op: BinOp, ts: seq<Token>)
    requires Level(left) >= LeftLevel(op)
    ensures Level(left) >= Prec(op) && Stops([Symbol(op)] + ts, Limit(left))
  {}

  lemma {:induction false} OperatorStep(left: Expr, op: BinOp, level: nat, ts: seq<Token>, e: Expr, rest: seq<Token>)
    requires Prec(op) >= level && ParseRight(left, op, ts) == Ok((e, rest))
    ensures ParseBinary(left, level, [Symbol(op)] + ts) == ParseBinary(e, level, rest)
  {
    assert ([Symbol(op)] + ts)[1..] == ts;
  }

  lemma {:induction false} ParsedBack(e: Expr, level: nat, rest: seq<Token>)
    requires Respects(e) && Level(e) >= level && Stops(rest, level) && level <= UNARY
    ensures ParseFrom(level, Spell(e, rest)) == Ok((e, rest))
    decreases e, 3
  {
    FromSpelling(e, level, rest);
  }

  lemma {:induction false} UnarySpelling(e: Expr, rest: seq<Token>)
    requires Respects(e) && Level(e) >= UNARY && Stops(rest, UNARY)
    ensures ParseUnary(Spell(e, rest)) == Ok((e, rest))
    decreases e, 1
  {
    if e.Prefix? {
      if !(e.operand.Prefix? && e.operand.op.Cast?) {
        NotType(e.operand, rest);
      }
      FrontSpelling(e.op, Spell(e.operand, rest));
      UnarySpelling(e.operand, rest);
    } else {
      PrimarySpelling(e, rest);
    }
  }

  lemma {:induction false} FrontSpelling(op: PrefixOp, after: seq<Token>)
    requires op.Cast? ==> IsTypeName(op.to)
    requires op.SizeofExpr? || op.AlignofExpr? ==> !ParenthesizedType(after)
    ensures FrontOf(PrefixTokens(op, after)) == AnOperator(op, after)
    decreases op
  {
    if op.Cast? {
      TypeSpelling(op.to, after);
    } else {
      assert PrefixTokens(op, after)[1..] == after;
    }
  }

  lemma {:induction false} SpecifiersRead(ks: seq<Keyword>, rest: seq<Token>)
    requires (forall i :: 0 <= i < |ks| ==> ks[i].IsDeclSpecifier()) && (rest != [] ==> !rest[0].Word?)
    ensures ParseSpecifiers(Words(ks, rest)) == Ok((ks, rest))
    decreases |ks|
  {
    if ks != [] {
      SpecifiersRead(ks[1..], rest);
      assert Words(ks, rest)[1..] == Words(ks[1..], rest) && ks == [ks[0]] + ks[1..];
    }
  }

  lemma {:induction false} QualifiersRead(ks: seq<Keyword>, rest: seq<Token>)
    requires (forall i :: 0 <= i < |ks| ==> IsQualifier(Word(ks[i]))) && (rest != [] ==> !IsQualifier(rest[0]))
    ensures QualRun(Words(ks, rest)) == (ks, rest)
    decreases |ks|
  {
    if ks != [] {
      QualifiersRead(ks[1..], rest);
      assert Words(ks, rest)[1..] == Words(ks[1..], rest) && ks == [ks[0]] + ks[1..];
    }
  }

  /** What a declarator starts with, if there is one. */
  lemma {:induction false} DeclStart(d: Decl, rest: seq<Token>)
    ensures var ts := SpellDecl(d, rest);
            if d.Nothing? then ts == rest
            else ts != [] && (ts[0].Ident? || ts[0] in {Star, LeftParen, LeftBracket}) && (DeclFits(d) && !d.Pointer? ==> ts[0] != Star)
    decreases d
  {
    match d
    case Array(of, None) => DeclStart(of, [LeftBracket, RightBracket] + rest);
    case Array(of, Some(size)) => DeclStart(of, [LeftBracket] + Spell(size, [RightBracket] + rest));
    case Function(of, params, varargs) => DeclStart(of, [LeftParen] + SpellParams(params, varargs, rest));
    case _ =>
  }

  lemma {:induction false} TypeStart(tn: TypeName, rest: seq<Token>)
    requires TypeFits(tn)
    ensures var ts := SpellType(tn, rest);
            ts != [] && ts[0] != Ellipsis && ts[0] != RightParen && (tn.specs != [] ==> StartsType(ts))
  {
    DeclStart(tn.decl, rest);
  }

  lemma {:induction false} DeclSpelling(d: Decl, abs: bool, rest: seq<Token>)
    requires DeclFits(d) && (abs || Anchored(d)) && DeclStops(d, rest)
    ensures ParseDecl(abs, SpellDecl(d, rest)) == Ok((d, rest))
    decreases d, 2
  {
    hide ParseDirect;
    var ts := SpellDecl(d, rest);
    if d.Pointer? {
      var tail := SpellDecl(d.to, rest);
      DeclStart(d.to, rest);
      assert d.to.Nothing? ==> Open(d);
      QualifiersRead(d.quals, tail);
      assert ts[1..] == Words(d.quals, tail);
      DeclSpelling(d.to, abs, rest);
    } else {
      DeclStart(d, rest);
      DirectSpelling(d, abs, rest);
    }
  }

  /** The parser reads all of a direct declarator and goes on with what may come behind it. */
  lemma {:induction false} DirectSpelling(d: Decl, abs: bool, rest: seq<Token>)
    requires DeclFits(d) && !d.Pointer? && (abs || Anchored(d)) && (d.Nothing? ==> NoNameNext(rest))
    ensures ParseDirect(abs, SpellDecl(d, rest)) == ParseSuffixes(d, rest)
    decreases d, 1
  {
    hide ParseSuffixes, ParseDecl, ParseArray, ParseParams, Spell, ParamsFit, Respects;
    match d
    case Nothing =>
    case Named(id) => assert SpellDecl(d, rest)[1..] == rest;
    case Group(inner) =>
      var after := [RightParen] + rest;
      var ts := SpellDecl(d, rest);
      assert ts[1..] == SpellDecl(inner, after) && after[1..] == rest;
      DeclStart(inner, after);
      DeclSpelling(inner, abs, after);
    case Array(of, size) =>
      var after := [LeftBracket] + (if size.Some? then Spell(size.value, [RightBracket] + rest) else [RightBracket] + rest);
      assert [LeftBracket, RightBracket] + rest == [LeftBracket] + ([RightBracket] + rest);
      DirectSpelling(of, abs, after);
      ArraySpelling(of, size, rest);
      SuffixStep(of, after, d, rest);
    case Function(_, _, _) => FunctionSpelling(d, abs, rest);
  }

  lemma {:induction false} FunctionSpelling(d: Decl, abs: bool, rest: seq<Token>)
    requires d.Function? && DeclFits(d) && (abs || Anchored(d))
    ensures ParseDirect(abs, SpellDecl(d, rest)) == ParseSuffixes(d, rest)
    decreases d, 0
  {
    hide ParseSuffixes, ParseDecl, ParseParams;
    var after := [LeftParen] + SpellParams(d.params, d.varargs, rest);
    if d.of.Nothing? && d.params == [] {
      assert SpellDecl(d, rest) == SpellDecl(Nothing, [LeftParen] + ([RightParen] + rest));
      assert SpellDecl(d, rest)[2..] == rest;
    } else {
      ParamsSpelling(d.of, d.params, d.varargs, rest);
      assert after[1..] == SpellParams(d.params, d.varargs, rest);
      DirectSpelling(d.of, abs, after);
      SuffixStep(d.of, after, d, rest);
    }
  }

  lemma {:induction false} SuffixStep(of: Decl, ts: seq<Token>, d: Decl, rest: seq<Token>)
    requires ts != [] && (ts[0] == LeftBracket || ts[0] == LeftParen)
    requires (if ts[0] == LeftBracket then ParseArray(of, ts[1..]) else ParseParams(of, ts[1..])) == Ok((d, rest))
    ensures ParseSuffixes(of, ts) == ParseSuffixes(d, rest)
  {}

  lemma {:induction false} ArraySpelling(of: Decl, size: Option<Expr>, rest: seq<Token>)
    requires size.Some? ==> Respects(size.value)
    ensures var after := [LeftBracket] + (if size.Some? then Spell(size.value, [RightBracket] + rest) else [RightBracket] + rest);
            ParseArray(of, after[1..]) == Ok((Array(of, size), rest))
    decreases size, 0
  {
    var close := [RightBracket] + rest;
    assert close[1..] == rest;
    if size.Some? {
      assert ([LeftBracket] + Spell(size.value, close))[1..] == Spell(size.value, close);
      StartOf(size.value, close);
      ParsedBack(size.value, 0, close);
    } else {
      assert ([LeftBracket] + close)[1..] == close;
    }
  }

  lemma {:induction false} ParamsSpelling(of: Decl, params: seq<TypeName>, varargs: bool, rest: seq<Token>)
    requires ParamsFit(params)
    ensures var ts := SpellParams(params, varargs, rest);
            && ParseParams(of, ts) == Ok((Function(of, params, varargs), rest))
            && (params != [] && params[0].specs != [] ==> StartsType(ts))
    decreases params, 1
  {
    hide MoreParams, SpellMore;
    if params == [] && !varargs {
      assert ([RightParen] + rest)[1..] == rest;
    } else {
      MoreSpelling(params, varargs, rest);
    }
  }

  lemma {:induction false} MoreSpelling(params: seq<TypeName>, varargs: bool, rest: seq<Token>)
    requires ParamsFit(params) && (params != [] || varargs)
    ensures var ts := SpellMore(params, varargs, rest);
            && MoreParams(ts) == Ok(((params, varargs), rest)) && ts != [] && ts[0] != RightParen
            && (params != [] && params[0].specs != [] ==> StartsType(ts))
    decreases params, 0
  {
    hide ParseTypeName;
    var ts := SpellMore(params, varargs, rest);
    if params == [] {
      assert ts[2..] == rest;
    } else {
      var last := |params| == 1 && !varargs;
      var after := if last then [RightParen] + rest else [Token.Comma] + SpellMore(params[1..], varargs, rest);
      TypeStart(params[0], after);
      TypeNameSpelling(params[0], after);
      if last {
        assert after[1..] == rest && params == [params[0]];
      } else {
        assert after[1..] == SpellMore(params[1..], varargs, rest) && params == [params[0]] + params[1..];
        MoreSpelling(params[1..], varargs, rest);
      }
    }
  }

  lemma {:induction false} TypeNameSpelling(tn: TypeName, rest: seq<Token>)
    requires TypeFits(tn) && TypeStops(tn, rest)
    ensures ParseTypeName(SpellType(tn, rest)) == Ok((tn, rest))
    decreases tn, 0
  {
    DeclStart(tn.decl, rest);
    SpecifiersRead(tn.specs, SpellDecl(tn.decl, rest));
    DeclSpelling(tn.decl, true, rest);
  }

  lemma {:induction false} TypeSpelling(tn: TypeName, after: seq<Token>)
    requires IsTypeName(tn)
    ensures var ts := TypeTokens(tn, after); ParenthesizedType(ts) && ParseType(ts) == Ok((tn, after))
    decreases tn, 1
  {
    var close := [RightParen] + after;
    assert TypeTokens(tn, after)[1..] == SpellType(tn, close) && close[1..] == after;
    TypeStart(tn, close);
    TypeNameSpelling(tn, close);
  }

  /** An expression starts neither with what closes nor with a specifier. */
  lemma {:induction false} StartOf(e: Expr, rest: seq<Token>)
    requires Respects(e)
    ensures var ts := Spell(e, rest);
            ts != [] && ts[0] != RightParen && ts[0] != RightBracket && !StartsType(ts)
    decreases e
  {
    match e
    case Postfix(base, post) => StartOf(base, PostfixTokens(post, rest));
    case Binary(op, l, r) => StartOf(l, [Symbol(op)] + Spell(r, rest));
    case Conditional(c, t, f) => StartOf(c, [Question] + Spell(t, [Colon] + Spell(f, rest)));
    case Prefix(op, operand) => PrefixStart(op, Spell(operand, rest));
    case _ =>
  }

  lemma {:induction false} PrefixStart(op: PrefixOp, rest: seq<Token>)
    ensures var ts := PrefixTokens(op, rest);
            ts != [] && ts[0] != RightParen && ts[0] != RightBracket && !StartsType(ts)
  {}

  /** Only a cast starts with a type in parentheses. */
  lemma {:induction false} NotType(e: Expr, rest: seq<Token>)
    requires Respects(e) && Level(e) >= UNARY && !(e.Prefix? && e.op.Cast?)
    ensures !ParenthesizedType(Spell(e, rest))
    decreases e
  {
    if e.Paren? {
      StartOf(e.inner, [RightParen] + rest);
    } else if e.Postfix? {
      NotType(e.base, PostfixTokens(e.post, rest));
    }
  }

  lemma {:induction false} PrimarySpelling(e: Expr, rest: seq<Token>)
    requires Respects(e) && Level(e) >= PRIMARY
    ensures FrontOf(Spell(e, rest)) == NoPrefix
    ensures ParsePrimary(Spell(e, rest)) == ParsePostfix(e, rest)
    decreases e, 0
  {
    hide PostfixTokens, TypeTokens, ParsePostfix;
    match e
    case Paren(inner) => ParenSpelling(inner, rest);
    case TypeSize(k, tn) => TypeSizeSpelling(k, tn, rest);
    case Postfix(base, post) =>
      PrimarySpelling(base, PostfixTokens(post, rest));
      PostfixSpelling(post, rest);
      PostfixStep(base, post, PostfixTokens(post, rest), rest);
    case Id(name) => assert Spell(e, rest)[1..] == rest;
    case Value(lit) => assert Spell(e, rest)[1..] == rest;
    case _ =>
  }

  lemma {:induction false} PostfixStep(base: Expr, post: PostfixOp, ts: seq<Token>, rest: seq<Token>)
    requires ts != [] && StartsPostfix(ts[0]) && ParsePostfixOp(ts) == Ok((post, rest))
    ensures ParsePostfix(base, ts) == ParsePostfix(Postfix(base, post), rest)
  {}

  lemma {:induction false} TypeSizeSpelling(k: Keyword, tn: TypeName, rest: seq<Token>)
    requires (k == Sizeof || k == Alignof) && IsTypeName(tn)
    ensures var ts := Spell(TypeSize(k, tn), rest);
            FrontOf(ts) == NoPrefix && ParsePrimary(ts) == ParsePostfix(TypeSize(k, tn), rest)
    decreases tn, 2
  {
    TypeSpelling(tn, rest);
    assert Spell(TypeSize(k, tn), rest)[1..] == TypeTokens(tn, rest);
  }

  lemma {:induction false} ParenSpelling(inner: Expr, rest: seq<Token>)
    requires Respects(inner)
    ensures var ts := Spell(Paren(inner), rest);
            FrontOf(ts) == NoPrefix && ParsePrimary(ts) == ParsePostfix(Paren(inner), rest)
    decreases inner, 4
  {
    var after := [RightParen] + rest;
    assert Spell(Paren(inner), rest)[1..] == Spell(inner, after);
    StartOf(inner, after);
    ParsedBack(inner, 0, after);
    assert after[1..] == rest;
  }

  lemma {:induction false} PostfixSpelling(post: PostfixOp, rest: seq<Token>)
    requires RespectsPostfix(post)
    ensures var ts := PostfixTokens(post, rest); StartsPostfix(ts[0]) && ParsePostfixOp(ts) == Ok((post, rest))
    decreases post, 0
  {
    var ts := PostfixTokens(post, rest);
    match post
    case Index(i) =>
      var after := [RightBracket] + rest;
      assert ts[1..] == Spell(i, after);
      ParsedBack(i, 0, after);
      assert after[1..] == rest;
    case Call(args) =>
      assert ts[1..] == SpellArgs(args, rest);
      if args == [] {
        assert ts[2..] == rest;
      } else {
        ArgsSpelling(args, rest);
      }
    case Member(_) => assert ts[2..] == rest;
    case DerefMember(_) => assert ts[2..] == rest;
    case _ => assert ts[1..] == rest;
  }

  lemma {:induction false} ArgsSpelling(args: seq<Expr>, rest: seq<Token>)
    requires args != [] && RespectsArgs(args)
    ensures ParseArgs(SpellArgs(args, rest)) == Ok((args, rest))
    ensures SpellArgs(args, rest)[0] != RightParen
    decreases args, 0
  {
    hide ParseFrom, Spell;
    var after := if |args| == 1 then [RightParen] + rest else [Token.Comma] + SpellArgs(args[1..], rest);
    StartOf(args[0], after);
    ParsedBack(args[0], Prec(BinOp.Ternary), after);
    if |args| > 1 {
      ArgsSpelling(args[1..], rest);
      ArgsStep(SpellArgs(args, rest), args[0], SpellArgs(args[1..], rest), args[1..], rest);
      assert args == [args[0]] + args[1..];
    } else {
      assert after[1..] == rest && args == [args[0]];
    }
  }

  lemma {:induction false} ArgsStep(ts: seq<Token>, first: Expr, tail: seq<Token>, more: seq<Expr>, rest: seq<Token>)
    requires ParseFrom(Prec(BinOp.Ternary), ts) == Ok((first, [Token.Comma] + tail))
    requires ParseArgs(tail) == Ok((more, rest))
    ensures ParseArgs(ts) == Ok(([first] + more, rest))
  {
    assert ([Token.Comma] + tail)[1..] == tail;
  }

  // ---------- the main results ----------

  /** The parser succeeds exactly on the tokens of an expression that respects the
      table, returns that expression, and stops where nothing more belongs to it. */
  lemma {:induction false} ParserIsTheGrammar(level: nat, ts: seq<Token>, e: Expr, rest: seq<Token>)
    requires level <= UNARY
    ensures ParseFrom(level, ts) == Ok((e, rest)) <==>
              ts == Yield(e) + rest && Respects(e) && Level(e) >= level && Stops(rest, level)
  {
    SpellIsYield(e, rest);
    if ParseFrom(level, ts) == Ok((e, rest)) {
      SoundFrom(level, ts);
    }
    if Derives(e, level, ts, rest) {
      ParsedBack(e, level, rest);
    }
  }

  /** The same for declarators, abstract ones included, and for type names. */
  lemma {:induction false} DeclaratorIsTheGrammar(abs: bool, ts: seq<Token>, d: Decl, rest: seq<Token>)
    ensures ParseDecl(abs, ts) == Ok((d, rest)) <==>
              ts == SpellDecl(d, []) + rest && DeclFits(d) && (abs || Anchored(d)) && DeclStops(d, rest)
  {
    DeclAppend(d, [], rest);
    assert [] + rest == rest;
    if ParseDecl(abs, ts) == Ok((d, rest)) {
      SoundDecl(abs, ts);
    }
    if Declares(d, abs, ts, rest) {
      DeclSpelling(d, abs, rest);
    }
  }

  lemma {:induction false} TypeNameIsTheGrammar(ts: seq<Token>, tn: TypeName, rest: seq<Token>)
    ensures ParseTypeName(ts) == Ok((tn, rest)) <==>
              ts == SpellType(tn, []) + rest && TypeFits(tn) && TypeStops(tn, rest)
  {
    TypeAppend(tn, [], rest);
    assert [] + rest == rest;
    if ParseTypeName(ts) == Ok((tn, rest)) {
      SoundTypeName(ts);
    }
    if Names(tn, ts, rest) {
      TypeNameSpelling(tn, rest);
    }
  }

  /** The grammar is unambiguous. */
  lemma {:induction false} OneTree(a: Expr, b: Expr)
    requires Respects(a) && Respects(b) && Yield(a) == Yield(b)
    ensures a == b
  {
    ParserIsTheGrammar(0, Yield(a), a, []);
    ParserIsTheGrammar(0, Yield(a), b, []);
    assert Yield(a) + [] == Yield(a);
  }

  // ---------- every tree can be written ----------

  /** A tree as the parser hands it on: no `Paren`, and only names and literals that
      exist. */
  predicate Bare(e: Expr)
    decreases e, 0
  {
    match e
    case Id(_) => true
    case Value(lit) => !lit.Malformed?
    case Paren(_) => false
    case TypeSize(k, tn) => (k == Sizeof || k == Alignof) && BareType(tn) && tn.specs != []
    case Prefix(op, operand) => Bare(operand) && (op.Cast? ==> BareType(op.to) && op.to.specs != [])
    case Postfix(base, post) =>
      && Bare(base)
      && (match post
          case Index(i) => Bare(i)
          case Call(args) => forall i :: 0 <= i < |args| ==> Bare(args[i])
          case _ => true)
    case Binary(op, l, r) => !op.Ternary? && Bare(l) && Bare(r)
    case Conditional(c, t, f) => Bare(c) && Bare(t) && Bare(f)
  }

  predicate BareType(tn: TypeName)
    decreases tn, 0
  {
    && tn.TypeName? && BareDeclarator(tn.declarator) && (tn.id.None? ==> Nameless(tn.declarator))
    && (forall i :: 0 <= i < |tn.specs| ==> tn.specs[i].IsDeclSpecifier())
    && (tn.specs == [] ==> tn.id.Some? || !tn.declarator.End?)
  }

  predicate BareDeclarator(d: Declarator)
    decreases d, 0
  {
    match d
    case End => true
    case PointerTo(to, quals) => BareDeclarator(to) && forall i :: 0 <= i < |quals| ==> IsQualifier(Word(quals[i]))
    case ArrayOf(of, size) => BareDeclarator(of) && (size.Some? ==> Bare(size.value))
    case FunctionReturning(ret, params, _) => BareDeclarator(ret) && BareTypes(params)
  }

  predicate BareTypes(tns: seq<TypeName>)
    decreases tns, 0
  {
    forall i :: 0 <= i < |tns| ==> BareType(tns[i])
  }

  /** What a function without a name must have to be told from parentheses. */
  predicate Nameless(d: Declarator) {
    d.FunctionReturning? ==> if d.params == [] then !d.varargs else d.params[0].specs != []
  }

  function Guard(level: nat, e: Expr): Expr {
    if Level(e) >= level then e else Paren(e)
  }

  /** Parentheses around a pointer, where something that binds tighter follows. */
  function Grouped(d: Decl): Decl {
    if d.Pointer? then Group(d) else d
  }

  /** The declarator around `inner`, turned outside in again. */
  function Write(d: Declarator, inner: Decl): Decl
    decreases d, 0
  {
    match d
    case End => inner
    case PointerTo(to, quals) => Write(to, Pointer(quals, inner))
    case ArrayOf(of, size) =>
      Write(of, Array(Grouped(inner), if size.Some? then Some(Parenthesized(size.value)) else None))
    case FunctionReturning(ret, params, varargs) => Write(ret, Function(Grouped(inner), WriteTypes(params), varargs))
  }

  function WriteType(tn: TypeName): (r: TypeName)
    ensures r.specs == tn.specs
    decreases tn, 0
  {
    match tn
    case Written(_, _) => tn
    case TypeName(specs, d, id) => Written(specs, Write(d, if id.Some? then Named(id.value) else Nothing))
  }

  function WriteTypes(tns: seq<TypeName>): (r: seq<TypeName>)
    ensures |r| == |tns| && forall i :: 0 <= i < |r| ==> r[i].specs == tns[i].specs
    decreases tns, 0
  {
    if tns == [] then [] else [WriteType(tns[0])] + WriteTypes(tns[1..])
  }

  /** Parentheses where the table needs them, and nowhere else. */
  function Parenthesized(e: Expr): (r: Expr)
    ensures Level(r) == Level(e) && (r.Prefix? && r.op.Cast? <==> e.Prefix? && e.op.Cast?)
    decreases e, 0
  {
    match e
    case TypeSize(k, tn) => TypeSize(k, WriteType(tn))
    case Prefix(op, operand) =>
      var inner := Parenthesized(operand);
      Prefix(if op.Cast? then Cast(WriteType(op.to)) else op,
             if (op.SizeofExpr? || op.AlignofExpr?) && inner.Prefix? && inner.op.Cast? then Paren(inner)
             else Guard(UNARY, inner))
    case Postfix(base, post) =>
      Postfix(Guard(PRIMARY, Parenthesized(base)),
              match post
              case Index(i) => Index(Parenthesized(i))
              case Call(args) => Call(ParenthesizedArgs(args))
              case _ => post)
    case Binary(op, l, r) =>
      Binary(op, Guard(LeftLevel(op), Parenthesized(l)), Guard(RightLevel(op), Parenthesized(r)))
    case Conditional(c, t, f) =>
      Conditional(Guard(LeftLevel(BinOp.Ternary), Parenthesized(c)), Parenthesized(t),
                  Guard(RightLevel(BinOp.Ternary), Parenthesized(f)))
    case _ => e
  }

  function ParenthesizedArgs(args: seq<Expr>): (r: seq<Expr>)
    ensures |r| == |args|
    decreases args, 0
  {
    if args == [] then []
    else [Guard(Prec(BinOp.Ternary), Parenthesized(args[0]))] + ParenthesizedArgs(args[1..])
  }

  lemma {:induction false} ParenthesizedRespects(e: Expr)
    requires Bare(e)
    ensures Respects(Parenthesized(e)) && Erase(Parenthesized(e)) == e
    decreases e, 0
  {
    hide Guard, Level, EraseType, WriteType, TypeFits, BareType;
    match e
    case TypeSize(_, tn) => TypeIsWritten(tn);
    case Prefix(op, operand) =>
      ParenthesizedRespects(operand);
      GuardRespects(UNARY, Parenthesized(operand));
      if op.Cast? {
        TypeIsWritten(op.to);
      }
    case Postfix(base, post) =>
      ParenthesizedRespects(base);
      GuardRespects(PRIMARY, Parenthesized(base));
      if post.Index? {
        ParenthesizedRespects(post.index);
      } else if post.Call? {
        ArgsRespect(post.args);
      }
    case Binary(_, l, r) =>
      ParenthesizedRespects(l);
      ParenthesizedRespects(r);
      GuardRespects(LeftLevel(e.bin), Parenthesized(l));
      GuardRespects(RightLevel(e.bin), Parenthesized(r));
    case Conditional(c, t, f) =>
      ParenthesizedRespects(c);
      ParenthesizedRespects(t);
      ParenthesizedRespects(f);
      GuardRespects(LeftLevel(BinOp.Ternary), Parenthesized(c));
      GuardRespects(RightLevel(BinOp.Ternary), Parenthesized(f));
    case _ =>
  }

  lemma {:induction false} TypeIsWritten(tn: TypeName)
    requires BareType(tn)
    ensures TypeFits(WriteType(tn)) && EraseType(WriteType(tn)) == tn
    decreases tn, 1
  {
    var start := if tn.id.Some? then Named(tn.id.value) else Nothing;
    DeclaratorIsWritten(tn.declarator, start);
    NothingIsWritten(tn.declarator, start);
    assert Pieces(start) == if tn.id.Some? then [Name(tn.id.value)] else [];
    assert Assemble(Pieces(start), tn.declarator, None) == (tn.declarator, tn.id) by {
      if tn.id.Some? {
        assert [Name(tn.id.value)][1..] == [];
      }
    }
  }

  lemma {:induction false} NothingIsWritten(d: Declarator, inner: Decl)
    ensures Write(d, inner).Nothing? <==> d.End? && inner.Nothing?
    decreases d
  {
    match d
    case End =>
    case PointerTo(to, quals) => NothingIsWritten(to, Pointer(quals, inner));
    case ArrayOf(of, size) =>
      NothingIsWritten(of, Array(Grouped(inner), if size.Some? then Some(Parenthesized(size.value)) else None));
    case FunctionReturning(ret, params, varargs) =>
      NothingIsWritten(ret, Function(Grouped(inner), WriteTypes(params), varargs));
  }

  lemma {:induction false} DeclaratorIsWritten(d: Declarator, inner: Decl)
    requires BareDeclarator(d) && DeclFits(inner) && (inner.Nothing? ==> Nameless(d))
    ensures DeclFits(Write(d, inner)) && Assembled(Pieces(Write(d, inner))) == Assemble(Pieces(inner), d, None)
    decreases d, 0
  {
    hide Parenthesized, Erase, EraseTypes, WriteTypes, Respects, TypeFits;
    match d
    case End =>
    case PointerTo(to, quals) =>
      DeclaratorIsWritten(to, Pointer(quals, inner));
      AssembleFirst(Ptr(quals), Pieces(inner));
    case ArrayOf(of, size) =>
      if size.Some? {
        ParenthesizedRespects(size.value);
      }
      var inner' := Array(Grouped(inner), if size.Some? then Some(Parenthesized(size.value)) else None);
      DeclaratorIsWritten(of, inner');
      assert Pieces(inner') == [Arr(size)] + Pieces(inner);
      AssembleFirst(Arr(size), Pieces(inner));
    case FunctionReturning(ret, params, varargs) =>
      TypesAreWritten(params);
      var inner' := Function(Grouped(inner), WriteTypes(params), varargs);
      DeclaratorIsWritten(ret, inner');
      assert Pieces(inner') == [Fun(params, varargs)] + Pieces(inner);
      AssembleFirst(Fun(params, varargs), Pieces(inner));
  }

  lemma {:induction false} AssembleFirst(p: Piece, ps: seq<Piece>)
    ensures ([p] + ps)[0] == p && ([p] + ps)[1..] == ps
  {}

  lemma {:induction false} FirstIsWritten(tns: seq<TypeName>)
    requires tns != []
    ensures WriteTypes(tns)[0] == WriteType(tns[0]) && WriteTypes(tns)[1..] == WriteTypes(tns[1..])
  {}

  lemma {:induction false} TypesAreWritten(tns: seq<TypeName>)
    requires BareTypes(tns)
    ensures ParamsFit(WriteTypes(tns)) && EraseTypes(WriteTypes(tns)) == tns
    decreases tns, 0
  {
    hide BareType, TypeFits, EraseType, WriteType, WriteTypes;
    if tns != [] {
      TypeIsWritten(tns[0]);
      TypesAreWritten(tns[1..]);
      FirstIsWritten(tns);
      var ws := WriteTypes(tns);
      assert forall i :: 0 < i < |ws| ==> ws[i] == ws[1..][i - 1];
      assert tns == [tns[0]] + tns[1..];
    }
  }

  lemma {:induction false} GuardRespects(level: nat, e: Expr)
    requires Respects(e) && level <= PRIMARY
    ensures var g := Guard(level, e); Respects(g) && Level(g) >= level && Erase(g) == Erase(e)
    ensures Level(Paren(e)) == PRIMARY
  {}

  lemma {:induction false} ArgsRespect(args: seq<Expr>)
    requires forall i :: 0 <= i < |args| ==> Bare(args[i])
    ensures RespectsArgs(ParenthesizedArgs(args)) && EraseAll(ParenthesizedArgs(args)) == args
    decreases args, 0
  {
    hide Guard, Level, Parenthesized;
    if args != [] {
      ParenthesizedRespects(args[0]);
      GuardRespects(Prec(BinOp.Ternary), Parenthesized(args[0]));
      ArgsRespect(args[1..]);
      var rs := ParenthesizedArgs(args);
      assert rs[1..] == ParenthesizedArgs(args[1..]);
      assert args == [args[0]] + args[1..];
    }
  }

  /** Every tree is what the parser returns for some tokens: those written with the
      parentheses the table needs. */
  lemma {:induction false} EveryTreeIsParsed(e: Expr)
    requires Bare(e)
    ensures var r := ParseFrom(0, Yield(Parenthesized(e)));
            r == Ok((Parenthesized(e), [])) && Erase(r.value.0) == e
  {
    ParenthesizedRespects(e);
    ParserIsTheGrammar(0, Yield(Parenthesized(e)), Parenthesized(e), []);
    assert Yield(Parenthesized(e)) + [] == Yield(Parenthesized(e));
  }
}
