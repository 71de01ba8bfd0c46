/** What the type printer writes, the parser and the analyzer read back. */
module DeclTheorems {
  import opened Wrappers
  import opened Tokens
  import E = ExprGrammar
  import P = ExprParsing
  import T = ExprTheorems
  import opened Types
  import opened DeclAnalysis

  // ---------- what is read from a printed declarator ----------

  function PieceOf(l: Layer): E.Piece
    decreases LayerSize(l), 0
  {
    match l
    case PointerL(q) => E.Ptr(QualifierWords(q))
    case ArrayL(size) => E.Arr(SizeOf(size))
    case FunctionL(params, varargs) => E.Fun(NamesOf(params), varargs)
  }

  function SizeOf(size: Option<nat>): Option<E.Expr> {
    if size.Some? then Some(E.Value(Number(size.value))) else None
  }

  function NamesOf(params: seq<Variable>): (r: seq<E.TypeName>)
    ensures |r| == |params|
    ensures forall i :: 0 <= i < |params| ==> NameIn(r[i]) == IdOf(params[i].id)
    decreases ParamsSize(params)
  {
    if params == [] then [] else [NameOf(params[0])] + NamesOf(params[1..])
  }

  function IdOf(id: string): Option<string> {
    if id == "" then None else Some(id)
  }

  function SpecsOf(v: Variable): seq<Keyword> {
    QualifierWords(v.qualifiers) + [TypeWord(BaseOf(v.ctype))]
  }

  function NameOf(v: Variable): (r: E.TypeName)
    ensures NameIn(r) == IdOf(v.id)
    decreases Size(v.ctype)
  {
    E.TypeName.TypeName(SpecsOf(v), DeclOf(Layers(v.ctype), E.End), IdOf(v.id))
  }

  function Around(p: E.Piece, d: E.Declarator): E.Declarator {
    match p
    case Name(_) => d
    case Ptr(quals) => E.PointerTo(d, quals)
    case Arr(size) => E.ArrayOf(d, size)
    case Fun(params, varargs) => E.FunctionReturning(d, params, varargs)
  }

  function DeclOf(ls: seq<Layer>, d: E.Declarator): E.Declarator
    decreases LayersSize(ls), 1, |ls|
  {
    if ls == [] then d else DeclOf(ls[..|ls| - 1], Around(PieceOf(ls[|ls| - 1]), d))
  }

  function PiecesOf(ls: seq<Layer>, id: string): seq<E.Piece>
    decreases |ls|
  {
    if ls == [] then (if id == "" then [] else [E.Name(id)])
    else [PieceOf(ls[|ls| - 1])] + PiecesOf(ls[..|ls| - 1], id)
  }

  lemma {:induction false} LayersAssemble(ls: seq<Layer>, id: string, d: E.Declarator)
    ensures E.Assemble(PiecesOf(ls, id), d, None) == (DeclOf(ls, d), IdOf(id))
    decreases |ls|
  {
    if ls == [] {
      assert [E.Name(id)][1..] == [];
    } else {
      var p := PieceOf(ls[|ls| - 1]);
      LayersAssemble(ls[..|ls| - 1], id, Around(p, d));
      assert PiecesOf(ls, id)[1..] == PiecesOf(ls[..|ls| - 1], id);
    }
  }

  // ---------- what is printed, as it is written ----------

  /** A declarator's tree, with parentheses around a pointer that an array or a function
      comes after. */
  function TreeOf(ls: seq<Layer>, id: string, direct: bool): E.Decl
    decreases LayersSize(ls), 1, |ls|
  {
    if ls == [] then (if id == "" then E.Nothing else E.Named(id))
    else
      var init := ls[..|ls| - 1];
      match ls[|ls| - 1]
      case PointerL(q) =>
        var pointer := E.Decl.Pointer(QualifierWords(q), TreeOf(init, id, false));
        if direct then E.Group(pointer) else pointer
      case ArrayL(size) => E.Decl.Array(TreeOf(init, id, true), SizeOf(size))
      case FunctionL(params, varargs) => E.Decl.Function(TreeOf(init, id, true), TreesOf(params), varargs)
  }

  function TreesOf(params: seq<Variable>): (r: seq<E.TypeName>)
    ensures |r| == |params| && forall i :: 0 <= i < |r| ==> r[i].specs == SpecsOf(params[i])
    decreases ParamsSize(params)
  {
    if params == [] then [] else [TreeOfVariable(params[0])] + TreesOf(params[1..])
  }

  function TreeOfVariable(v: Variable): E.TypeName
    decreases Size(v.ctype)
  {
    E.Written(SpecsOf(v), TreeOf(Layers(v.ctype), v.id, false))
  }

  lemma {:induction false} TreePieces(ls: seq<Layer>, id: string, direct: bool)
    ensures E.Pieces(TreeOf(ls, id, direct)) == PiecesOf(ls, id)
    decreases LayersSize(ls), 1, |ls|
  {
    if ls != [] {
      var init := ls[..|ls| - 1];
      match ls[|ls| - 1]
      case PointerL(q) => TreePieces(init, id, false);
      case ArrayL(size) => TreePieces(init, id, true);
      case FunctionL(params, varargs) =>
        TreePieces(init, id, true);
        TreesErased(params);
    }
  }

  lemma {:induction false} TreesErased(params: seq<Variable>)
    ensures E.EraseTypes(TreesOf(params)) == NamesOf(params)
    decreases ParamsSize(params)
  {
    if params != [] {
      var ls := Layers(params[0].ctype);
      TreePieces(ls, params[0].id, false);
      LayersAssemble(ls, params[0].id, E.End);
      TreesErased(params[1..]);
      assert TreesOf(params)[1..] == TreesOf(params[1..]);
    }
  }

  lemma {:induction false} TreeSpelled(ls: seq<Layer>, id: string, direct: bool, rest: seq<Token>)
    ensures E.SpellDecl(TreeOf(ls, id, direct), rest) == SpellLayers(ls, id, direct, rest)
    decreases LayersSize(ls), 1, |ls|
  {
    if ls != [] {
      var init := ls[..|ls| - 1];
      match ls[|ls| - 1]
      case PointerL(q) => TreeSpelled(init, id, false, if direct then [RightParen] + rest else rest);
      case ArrayL(None) => TreeSpelled(init, id, true, [LeftBracket, RightBracket] + rest);
      case ArrayL(Some(n)) =>
        TreeSpelled(init, id, true, [LeftBracket, Literal(Number(n)), RightBracket] + rest);
        assert [LeftBracket] + ([Literal(Number(n))] + ([RightBracket] + rest))
            == [LeftBracket, Literal(Number(n)), RightBracket] + rest;
      case FunctionL(params, varargs) =>
        ParamsSpelled(params, varargs, rest);
        TreeSpelled(init, id, true, [LeftParen] + SpellParams(params, varargs, rest));
    }
  }

  lemma {:induction false} ParamsSpelled(params: seq<Variable>, varargs: bool, rest: seq<Token>)
    ensures E.SpellParams(TreesOf(params), varargs, rest) == SpellParams(params, varargs, rest)
    ensures params != [] || varargs ==> E.SpellMore(TreesOf(params), varargs, rest) == SpellParams(params, varargs, rest)
    decreases ParamsSize(params), 0
  {
    if params != [] {
      var last := |params| == 1 && !varargs;
      assert TreesOf(params)[1..] == TreesOf(params[1..]);
      ParamsSpelled(params[1..], varargs, rest);
      VariableSpelled(params[0], if last then [RightParen] + rest else [Comma] + SpellParams(params[1..], varargs, rest));
    }
  }

  lemma {:induction false} VariableSpelled(v: Variable, rest: seq<Token>)
    ensures E.SpellType(TreeOfVariable(v), rest) == SpellVariable(v, rest)
    decreases Size(v.ctype)
  {
    var word := [TypeWord(BaseOf(v.ctype))];
    var tail := SpellLayers(Layers(v.ctype), v.id, false, rest);
    TreeSpelled(Layers(v.ctype), v.id, false, rest);
    WordsTogether(QualifierWords(v.qualifiers), word, tail);
    assert word[1..] == [];
  }

  lemma {:induction false} WordsTogether(a: seq<Keyword>, b: seq<Keyword>, rest: seq<Token>)
    ensures Words(a + b, rest) == Words(a, Words(b, rest))
    decreases |a|
  {
    if a == [] {
      assert a + b == b;
    } else {
      assert (a + b)[1..] == a[1..] + b;
      WordsTogether(a[1..], b, rest);
    }
  }

  /** Parameters that the printer can write: `...` has something before it. */
  predicate Writable(ls: seq<Layer>)
    decreases LayersSize(ls), 1
  {
    ls != [] ==>
      var l := ls[|ls| - 1];
      Writable(ls[..|ls| - 1]) && (l.FunctionL? ==> (l.varargs ==> l.params != []) && WritableParams(l.params))
  }

  predicate WritableParams(params: seq<Variable>)
    decreases ParamsSize(params), 0
  {
    params != [] ==> Writable(Layers(params[0].ctype)) && WritableParams(params[1..])
  }

  lemma {:induction false} TreeFits(ls: seq<Layer>, id: string, direct: bool)
    requires Writable(ls)
    ensures var d := TreeOf(ls, id, direct);
            && E.DeclFits(d) && (direct ==> !d.Pointer?) && (id != "" ==> E.Anchored(d))
            && (d.Nothing? <==> ls == [] && id == "")
    decreases LayersSize(ls), 1, |ls|
  {
    if ls != [] {
      var init := ls[..|ls| - 1];
      match ls[|ls| - 1]
      case PointerL(q) => TreeFits(init, id, false);
      case ArrayL(size) => TreeFits(init, id, true);
      case FunctionL(params, varargs) =>
        TreeFits(init, id, true);
        TreesFit(params);
    }
  }

  lemma {:induction false} TreesFit(params: seq<Variable>)
    requires WritableParams(params)
    ensures E.ParamsFit(TreesOf(params))
    decreases ParamsSize(params)
  {
    if params != [] {
      TreeFits(Layers(params[0].ctype), params[0].id, false);
      TreesFit(params[1..]);
      var trees := TreesOf(params);
      assert forall i :: 0 < i < |trees| ==> trees[i] == TreesOf(params[1..])[i - 1];
    }
  }

  // ---------- reading it ----------

  /** Nothing in `rest` belongs to a declarator before it. */
  predicate Ends(rest: seq<Token>) {
    rest == [] || !(rest[0].Ident? || rest[0].Word? || rest[0] in {Star, LeftParen, LeftBracket})
  }

  /** A whole declarator. */
  lemma {:induction false} DeclaratorRead(ls: seq<Layer>, id: string, abs: bool, rest: seq<Token>)
    requires Writable(ls) && (abs || id != "") && Ends(rest)
    ensures var d := TreeOf(ls, id, false);
            P.ParseDecl(abs, SpellLayers(ls, id, false, rest)) == Ok((d, rest)) && E.Pieces(d) == PiecesOf(ls, id)
  {
    TreeFits(ls, id, false);
    TreeSpelled(ls, id, false, rest);
    TreePieces(ls, id, false);
    T.DeclSpelling(TreeOf(ls, id, false), abs, rest);
  }

  lemma {:induction false} SpecsRead(v: Variable, rest: seq<Token>)
    requires Ends(rest)
    ensures P.ParseSpecifiers(SpellVariable(v, rest)) == Ok((SpecsOf(v), SpellLayers(Layers(v.ctype), v.id, false, rest)))
  {
    VariableSpelled(v, rest);
    TreeSpelled(Layers(v.ctype), v.id, false, rest);
    T.DeclStart(TreeOf(Layers(v.ctype), v.id, false), rest);
    T.SpecifiersRead(SpecsOf(v), SpellLayers(Layers(v.ctype), v.id, false, rest));
  }

  // ---------- analyzing it ----------

  lemma {:induction false} InnerWellFormed(ls: seq<Layer>, t: Type)
    requires WellFormed(WrapAll(ls, t))
    ensures WellFormed(t)
    decreases |ls|
  {
    if ls != [] {
      InnerWellFormed(ls[..|ls| - 1], Wrap(ls[|ls| - 1], t));
    }
  }

  lemma {:induction false} LayersAnalyzed(ls: seq<Layer>, d: E.Declarator, base: Type, t: Type)
    requires Analyze(base, d) == Some(t) && WellFormed(WrapAll(ls, t))
    ensures Analyze(base, DeclOf(ls, d)) == Some(WrapAll(ls, t))
    decreases LayersSize(ls), |ls|
  {
    if ls != [] {
      var init, l := ls[..|ls| - 1], ls[|ls| - 1];
      InnerWellFormed(init, Wrap(l, t));
      LayerAnalyzed(l, d, base, t);
      LayersAnalyzed(init, Around(PieceOf(l), d), base, Wrap(l, t));
    }
  }

  lemma {:induction false} LayerAnalyzed(l: Layer, d: E.Declarator, base: Type, t: Type)
    requires Analyze(base, d) == Some(t) && WellFormed(Wrap(l, t))
    ensures Analyze(base, Around(PieceOf(l), d)) == Some(Wrap(l, t))
    decreases LayerSize(l), 0
  {
    hide AnalyzeParam, AnalyzeParams, NamesOf, DeclOf;
    if l.FunctionL? {
      ParamsAnalyzed(l.params);
      assert NamesDistinct(NamesOf(l.params));
    }
  }

  lemma {:induction false} ParamsAnalyzed(params: seq<Variable>)
    requires forall i :: 0 <= i < |params| ==>
               WellFormed(params[i].ctype) && !params[i].ctype.Array? && !params[i].ctype.Function?
    ensures AnalyzeParams(NamesOf(params)) == Some(params)
    decreases ParamsSize(params), 0
  {
    hide WellFormed, AnalyzeParam, NameOf;
    if params != [] {
      ParamAnalyzed(params[0]);
      ParamsAnalyzed(params[1..]);
      assert NamesOf(params)[1..] == NamesOf(params[1..]) && params == [params[0]] + params[1..];
    }
  }

  lemma {:induction false} ParamAnalyzed(v: Variable)
    requires WellFormed(v.ctype) && !v.ctype.Array? && !v.ctype.Function?
    ensures AnalyzeParam(NameOf(v)) == Some(v)
    decreases Size(v.ctype), 1
  {
    TypeAnalyzed(v);
  }

  lemma {:induction false} TypeAnalyzed(v: Variable)
    requires WellFormed(v.ctype)
    ensures SpecifierType(SpecsOf(v)) == Some(BaseOf(v.ctype)) && QualifiersOf(SpecsOf(v)) == v.qualifiers
    ensures Analyze(Base(BaseOf(v.ctype)), DeclOf(Layers(v.ctype), E.End)) == Some(v.ctype)
    decreases Size(v.ctype), 0
  {
    LayersBuild(v.ctype);
    LayersAnalyzed(Layers(v.ctype), E.End, Base(BaseOf(v.ctype)), Base(BaseOf(v.ctype)));
    SpecsAnalyzed(v.qualifiers, BaseOf(v.ctype));
  }

  lemma {:induction false} SpecsAnalyzed(q: Qualifiers, n: nat)
    ensures var ks := QualifierWords(q) + [TypeWord(n)]; SpecifierType(ks) == Some(n) && QualifiersOf(ks) == q
  {
    var ks := QualifierWords(q) + [TypeWord(n)];
    assert SpecifierType([TypeWord(n)]) == Some(n);
    if |ks| >= 2 {
      assert ks[|ks| - 1..] == [TypeWord(n)];
      if |ks| == 3 {
        assert ks[1..][1..] == ks[2..] && ks[1..][0] == ks[1];
      }
    }
  }

  lemma {:induction false} WellFormedIsWritable(t: Type)
    requires WellFormed(t)
    ensures Writable(Layers(t))
    decreases Size(t), 1
  {
    LayersBuild(t);
    LayersWritable(Layers(t), Base(BaseOf(t)));
  }

  lemma {:induction false} LayersWritable(ls: seq<Layer>, t: Type)
    requires WellFormed(WrapAll(ls, t))
    ensures Writable(ls)
    decreases LayersSize(ls), |ls|
  {
    if ls != [] {
      var init, l := ls[..|ls| - 1], ls[|ls| - 1];
      InnerWellFormed(init, Wrap(l, t));
      LayersWritable(init, Wrap(l, t));
      if l.FunctionL? {
        ParamsWritable(l.params);
      }
    }
  }

  lemma {:induction false} ParamsWritable(params: seq<Variable>)
    requires forall i :: 0 <= i < |params| ==> WellFormed(params[i].ctype)
    ensures WritableParams(params)
    decreases ParamsSize(params), 0
  {
    if params != [] {
      WellFormedIsWritable(params[0].ctype);
      ParamsWritable(params[1..]);
    }
  }

  // ---------- the main results ----------

  /** Printing a variable and reading the tokens gives the variable back and leaves what
      follows; without a name it must be read where a declarator may be abstract. */
  lemma {:induction false} PrintedIsReadBack(v: Variable, abs: bool, rest: seq<Token>)
    requires WellFormed(v.ctype) && Ends(rest) && (abs || v.id != "")
    ensures ParseType(SpellVariable(v, rest), abs) == Some((v, rest))
  {
    WellFormedIsWritable(v.ctype);
    SpecsRead(v, rest);
    DeclaratorRead(Layers(v.ctype), v.id, abs, rest);
    LayersAssemble(Layers(v.ctype), v.id, E.End);
    TypeAnalyzed(v);
  }

  /** Whatever the analyzer accepts is well formed. */
  lemma {:induction false} AnalyzedIsWellFormed(base: Type, d: E.Declarator)
    requires WellFormed(base) && Analyze(base, d).Some?
    ensures WellFormed(Analyze(base, d).value)
    decreases d
  {
    match d
    case End =>
    case PointerTo(to, _) => AnalyzedIsWellFormed(base, to);
    case ArrayOf(of, _) => AnalyzedIsWellFormed(base, of);
    case FunctionReturning(ret, params, _) =>
      AnalyzedIsWellFormed(base, ret);
      AnalyzedParams(params);
  }

  lemma {:induction false} AnalyzedParams(params: seq<E.TypeName>)
    requires AnalyzeParams(params).Some?
    ensures var vs := AnalyzeParams(params).value;
            forall i :: 0 <= i < |vs| ==> WellFormed(vs[i].ctype) && !vs[i].ctype.Array? && !vs[i].ctype.Function?
    decreases params
  {
    if params != [] {
      AnalyzedIsWellFormed(Base(SpecifierType(params[0].specs).value), params[0].declarator);
      AnalyzedParams(params[1..]);
    }
  }

  /** Whatever is read without an error, however it was written, is read again from
      what the printer makes of it. */
  lemma {:induction false} ReadIsPrintable(ts: seq<Token>, abs: bool)
    requires ParseType(ts, abs).Some?
    ensures var v := ParseType(ts, abs).value.0;
            WellFormed(v.ctype) && ParseType(SpellVariable(v, []), true) == Some((v, []))
  {
    var v := ParseType(ts, abs).value.0;
    var (specs, t1) := P.ParseSpecifiers(ts).value;
    var (d, _) := P.ParseDecl(abs, t1).value;
    AnalyzedIsWellFormed(Base(SpecifierType(specs).value), E.Assembled(E.Pieces(d)).0);
    PrintedIsReadBack(v, true, []);
  }

  /** Different variables are printed differently. */
  lemma {:induction false} PrintedDifferently(v: Variable, w: Variable)
    requires WellFormed(v.ctype) && WellFormed(w.ctype) && SpellVariable(v, []) == SpellVariable(w, [])
    ensures v == w
  {
    PrintedIsReadBack(v, true, []);
    PrintedIsReadBack(w, true, []);
  }
}
