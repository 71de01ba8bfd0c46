/** Types, and how the type printer writes them. */
module Types {
  import opened Wrappers
  import opened Tokens

  datatype Qualifiers = Qualifiers(isConst: bool, isVolatile: bool)

  const NONE := Qualifiers(false, false)

  datatype Variable = Variable(qualifiers: Qualifiers, ctype: Type, id: string)

  /** `Base` is a type written with specifiers alone; `Base(VOID)` is `void`. */
  datatype Type =
    | Base(n: nat)
    | Pointer(to: Type, qualifiers: Qualifiers)
    | Array(of: Type, size: Option<nat>)
    | Function(ret: Type, params: seq<Variable>, varargs: bool)

  const VOID: nat := 0
  const INT: nat := 1

  function BaseOf(t: Type): nat {
    match t
    case Base(n) => n
    case Pointer(to, _) => BaseOf(to)
    case Array(of, _) => BaseOf(of)
    case Function(ret, _, _) => BaseOf(ret)
  }

  function Size(t: Type): (n: nat)
    ensures n >= 1
    decreases t
  {
    match t
    case Base(_) => 1
    case Pointer(to, _) => 1 + Size(to)
    case Array(of, _) => 1 + Size(of)
    case Function(ret, params, _) => 1 + Size(ret) + ParamsSize(params)
  }

  function ParamsSize(params: seq<Variable>): nat
    decreases params
  {
    if params == [] then 0 else 1 + Size(params[0].ctype) + ParamsSize(params[1..])
  }

  // ---------- layers ----------

  /** One step from a type to the type inside it. */
  datatype Layer = PointerL(qualifiers: Qualifiers) | ArrayL(size: Option<nat>) | FunctionL(params: seq<Variable>, varargs: bool)

  function LayerSize(l: Layer): nat {
    if l.FunctionL? then 1 + ParamsSize(l.params) else 1
  }

  function LayersSize(ls: seq<Layer>): nat {
    if ls == [] then 0 else LayersSize(ls[..|ls| - 1]) + LayerSize(ls[|ls| - 1])
  }

  lemma {:induction false} LayersSizeFirst(l: Layer, ls: seq<Layer>)
    ensures LayersSize([l] + ls) == LayerSize(l) + LayersSize(ls)
    decreases |ls|
  {
    var all := [l] + ls;
    if ls == [] {
      assert all[..0] == [] && all[0] == l;
    } else {
      assert all[..|all| - 1] == [l] + ls[..|ls| - 1];
      LayersSizeFirst(l, ls[..|ls| - 1]);
    }
  }

  /** The type from the outside in, without what is innermost. */
  function Layers(t: Type): (ls: seq<Layer>)
    ensures LayersSize(ls) < Size(t)
  {
    match t
    case Base(_) => []
    case Pointer(to, q) =>
      LayersSizeFirst(PointerL(q), Layers(to));
      [PointerL(q)] + Layers(to)
    case Array(of, size) =>
      LayersSizeFirst(ArrayL(size), Layers(of));
      [ArrayL(size)] + Layers(of)
    case Function(ret, params, varargs) =>
      LayersSizeFirst(FunctionL(params, varargs), Layers(ret));
      [FunctionL(params, varargs)] + Layers(ret)
  }

  function Wrap(l: Layer, t: Type): Type {
    match l
    case PointerL(q) => Pointer(t, q)
    case ArrayL(size) => Array(t, size)
    case FunctionL(params, varargs) => Function(t, params, varargs)
  }

  /** `t` inside all the layers. */
  function WrapAll(ls: seq<Layer>, t: Type): Type {
    if ls == [] then t else WrapAll(ls[..|ls| - 1], Wrap(ls[|ls| - 1], t))
  }

  lemma {:induction false} WrapFirst(l: Layer, ls: seq<Layer>, t: Type)
    ensures WrapAll([l] + ls, t) == Wrap(l, WrapAll(ls, t))
    decreases |ls|
  {
    var all := [l] + ls;
    if ls == [] {
      assert all[..0] == [] && all[0] == l;
    } else {
      assert all[..|all| - 1] == [l] + ls[..|ls| - 1];
      WrapFirst(l, ls[..|ls| - 1], Wrap(ls[|ls| - 1], t));
    }
  }

  lemma {:induction false} LayersBuild(t: Type)
    ensures WrapAll(Layers(t), Base(BaseOf(t))) == t
    decreases t
  {
    match t
    case Base(_) =>
    case Pointer(to, q) =>
      LayersBuild(to);
      WrapFirst(PointerL(q), Layers(to), Base(BaseOf(t)));
    case Array(of, size) =>
      LayersBuild(of);
      WrapFirst(ArrayL(size), Layers(of), Base(BaseOf(t)));
    case Function(ret, params, varargs) =>
      LayersBuild(ret);
      WrapFirst(FunctionL(params, varargs), Layers(ret), Base(BaseOf(t)));
  }

  // ---------- printing ----------

  function QualifierWords(q: Qualifiers): (ks: seq<Keyword>)
    ensures |ks| <= 2
  {
    (if q.isConst then [Const] else []) + (if q.isVolatile then [Volatile] else [])
  }

  function Name(id: string, rest: seq<Token>): seq<Token> {
    if id == "" then rest else [Ident(id)] + rest
  }

  /** The declarator of a type, layer by layer from the innermost, and then `rest`.
      `direct` says that an array or a function comes after it, so that a pointer needs
      parentheses. */
  function SpellLayers(ls: seq<Layer>, id: string, direct: bool, rest: seq<Token>): seq<Token>
    decreases LayersSize(ls), 1
  {
    if ls == [] then Name(id, rest)
    else
      var init := ls[..|ls| - 1];
      match ls[|ls| - 1]
      case PointerL(q) =>
        if direct then
          [LeftParen, Star] + Words(QualifierWords(q), SpellLayers(init, id, false, [RightParen] + rest))
        else [Star] + Words(QualifierWords(q), SpellLayers(init, id, false, rest))
      case ArrayL(None) => SpellLayers(init, id, true, [LeftBracket, RightBracket] + rest)
      case ArrayL(Some(n)) => SpellLayers(init, id, true, [LeftBracket, Literal(Number(n)), RightBracket] + rest)
      case FunctionL(params, varargs) => SpellLayers(init, id, true, [LeftParen] + SpellParams(params, varargs, rest))
  }

  function SpellParams(params: seq<Variable>, varargs: bool, rest: seq<Token>): seq<Token>
    decreases ParamsSize(params), 0
  {
    if params == [] then (if varargs then [Ellipsis, RightParen] else [RightParen]) + rest
    else if |params| == 1 && !varargs then SpellVariable(params[0], [RightParen] + rest)
    else SpellVariable(params[0], [Comma] + SpellParams(params[1..], varargs, rest))
  }

  function SpellVariable(v: Variable, rest: seq<Token>): seq<Token>
    decreases Size(v.ctype), 1
  {
    Words(QualifierWords(v.qualifiers), SpellType(v.ctype, v.id, rest))
  }

  /** The type's specifier and its declarator around the name. */
  function SpellType(t: Type, id: string, rest: seq<Token>): seq<Token>
    decreases Size(t), 0
  {
    [Word(TypeWord(BaseOf(t)))] + SpellLayers(Layers(t), id, false, rest)
  }

  // ---------- which types there are ----------

  /** What the analyzer lets through: section 6.7.6 of C11. */
  predicate WellFormed(t: Type)
    decreases t
  {
    match t
    case Base(_) => true
    case Pointer(to, _) => WellFormed(to)
    case Array(of, _) => WellFormed(of) && !of.Function?
    case Function(ret, params, varargs) =>
      && WellFormed(ret) && !ret.Array? && !ret.Function?
      && (forall i :: 0 <= i < |params| ==>
            WellFormed(params[i].ctype) && !params[i].ctype.Array? && !params[i].ctype.Function?)
      && ParamsFit(params, varargs)
  }

  /** No name comes twice, and `void` and `...` stand where they may. */
  predicate ParamsFit(params: seq<Variable>, varargs: bool) {
    && (forall i, j :: 0 <= i < j < |params| && params[i].id != "" ==> params[i].id != params[j].id)
    && var isVoid := |params| == 1 && params[0].ctype == Base(VOID);
       && (isVoid || forall i :: 0 <= i < |params| ==> params[i].ctype != Base(VOID))
       && !(varargs && (isVoid || params == []))
  }
}

/** Declarators as the analyzer turns them into types. */
module DeclAnalysis {
  import opened Wrappers
  import opened Tokens
  import E = ExprGrammar
  import P = ExprParsing
  import opened Types

  function QualifiersOf(ks: seq<Keyword>): Qualifiers {
    Qualifiers(Const in ks, Volatile in ks)
  }

  /** The one word among the specifiers that is not a qualifier; `int` if there is none. */
  function SpecifierType(ks: seq<Keyword>): Option<nat> {
    if ks == [] then Some(INT)
    else if !ks[0].TypeWord? then SpecifierType(ks[1..])
    else if forall i :: 1 <= i < |ks| ==> !ks[i].TypeWord? then Some(ks[0].n)
    else None
  }

  /** The value of an array's size; anything but a literal counts as not constant here. */
  function ConstUint(e: E.Expr): Option<nat> {
    if e.Value? && e.lit.Number? then Some(e.lit.n) else None
  }

  /** The type a declarator gives, or nothing if the analyzer records an error. */
  function Analyze(base: Type, d: E.Declarator): Option<Type>
    decreases d
  {
    match d
    case End => Some(base)
    case PointerTo(to, quals) =>
      (match Analyze(base, to)
       case None => None
       case Some(t) => Some(Pointer(t, QualifiersOf(quals))))
    case ArrayOf(of, size) =>
      (match Analyze(base, of)
       case None => None
       case Some(t) =>
         if t.Function? || (size.Some? && ConstUint(size.value).None?) then None
         else Some(Array(t, if size.Some? then ConstUint(size.value) else None)))
    case FunctionReturning(ret, params, varargs) =>
      match Analyze(base, ret)
      case None => None
      case Some(t) =>
        match AnalyzeParams(params)
        case None => None
        case Some(vs) =>
          if t.Array? || t.Function? || !ParamsFit(vs, varargs) || !NamesDistinct(params) then None
          else Some(Function(t, vs, varargs))
  }

  function NameIn(tn: E.TypeName): Option<string> {
    if tn.TypeName? then tn.id else None
  }

  predicate NamesDistinct(params: seq<E.TypeName>) {
    forall i, j :: 0 <= i < j < |params| && NameIn(params[i]).Some? ==> NameIn(params[i]) != NameIn(params[j])
  }

  function AnalyzeParams(params: seq<E.TypeName>): (r: Option<seq<Variable>>)
    ensures r.Some? ==> |r.value| == |params|
    decreases params
  {
    if params == [] then Some([])
    else if AnalyzeParam(params[0]).None? || AnalyzeParams(params[1..]).None? then None
    else Some([AnalyzeParam(params[0]).value] + AnalyzeParams(params[1..]).value)
  }

  /** A parameter that is an array or a function becomes a pointer. */
  function AnalyzeParam(param: E.TypeName): Option<Variable>
    decreases param
  {
    match SpecifierType(param.specs)
    case None => None
    case Some(n) =>
      match if param.TypeName? then Analyze(Base(n), param.declarator) else None
      case None => None
      case Some(t) =>
        var decayed := match t {
          case Array(of, _) => Pointer(of, NONE)
          case Function(_, _, _) => Pointer(t, NONE)
          case _ => t
        };
        Some(Variable(QualifiersOf(param.specs), decayed, if NameIn(param).Some? then NameIn(param).value else ""))
  }

  /** A declaration's type and name from its specifiers and its declarator. */
  function ParseType(ts: seq<Token>, abs: bool): Option<(Variable, seq<Token>)> {
    match P.ParseSpecifiers(ts)
    case Err(_) => None
    case Ok((specs, t1)) =>
      match P.ParseDecl(abs, t1)
      case Err(_) => None
      case Ok((d, rest)) =>
        var (decl, id) := E.Assembled(E.Pieces(d));
        match SpecifierType(specs)
        case None => None
        case Some(n) =>
          match Analyze(Base(n), decl)
          case None => None
          case Some(t) => Some((Variable(QualifiersOf(specs), t, if id.Some? then id.value else ""), rest))
  }
}
