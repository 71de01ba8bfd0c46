/** The type printer as the front end has it: loops over the layers of a type, with what
    goes in front of the name and what goes behind it collected apart. */
module TypePrinter {
  import opened Wrappers
  import opened Tokens
  import opened Types

  /** What one layer puts in front of the name. */
  function Front(l: Layer, direct: bool): seq<Token> {
    if l.PointerL? then (if direct then [LeftParen] else []) + [Star] + Words(QualifierWords(l.qualifiers), []) else []
  }

  /** What one layer puts behind the name. */
  function Back(l: Layer, direct: bool): seq<Token> {
    match l
    case PointerL(_) => if direct then [RightParen] else []
    case ArrayL(None) => [LeftBracket, RightBracket]
    case ArrayL(Some(n)) => [LeftBracket, Literal(Number(n)), RightBracket]
    case FunctionL(params, varargs) => [LeftParen] + SpellParams(params, varargs, [])
  }

  function Fronts(ls: seq<Layer>, direct: bool): seq<Token>
    decreases |ls|
  {
    if ls == [] then []
    else var l := ls[|ls| - 1]; Front(l, direct) + Fronts(ls[..|ls| - 1], !l.PointerL?)
  }

  function Backs(ls: seq<Layer>, direct: bool): seq<Token>
    decreases |ls|
  {
    if ls == [] then []
    else var l := ls[|ls| - 1]; Backs(ls[..|ls| - 1], !l.PointerL?) + Back(l, direct)
  }

  lemma {:induction false} WordsApart(ks: seq<Keyword>, rest: seq<Token>)
    ensures Words(ks, rest) == Words(ks, []) + rest
    decreases |ks|
  {
    if ks != [] {
      WordsApart(ks[1..], rest);
    }
  }

  /** The printed declarator is its fronts, the name, its backs, and then `rest`. */
  lemma {:induction false} LayersApart(ls: seq<Layer>, id: string, direct: bool, rest: seq<Token>)
    ensures SpellLayers(ls, id, direct, rest) == Fronts(ls, direct) + Name(id, []) + Backs(ls, direct) + rest
    decreases LayersSize(ls), |ls|
  {
    if ls != [] {
      var init, l := ls[..|ls| - 1], ls[|ls| - 1];
      var after := Back(l, direct) + rest;
      LayersApart(init, id, !l.PointerL?, after);
      var tail := SpellLayers(init, id, !l.PointerL?, after);
      var f, n, b := Fronts(init, !l.PointerL?), Name(id, []), Backs(init, !l.PointerL?);
      LastLayer(ls, id, direct, rest);
      Regroup(Front(l, direct), f, n, b, Back(l, direct), rest);
    }
  }

  lemma {:induction false} Regroup(a: seq<Token>, f: seq<Token>, n: seq<Token>, b: seq<Token>, c: seq<Token>, rest: seq<Token>)
    ensures a + (f + n + b + (c + rest)) == (a + f) + n + (b + c) + rest
  {}

  lemma {:induction false} LastLayer(ls: seq<Layer>, id: string, direct: bool, rest: seq<Token>)
    requires ls != []
    ensures var l := ls[|ls| - 1];
            SpellLayers(ls, id, direct, rest) ==
            Front(l, direct) + SpellLayers(ls[..|ls| - 1], id, !l.PointerL?, Back(l, direct) + rest)
    decreases LayersSize(ls), 0
  {
    hide SpellParams, Words, QualifierWords;
    var init, l := ls[..|ls| - 1], ls[|ls| - 1];
    var tail := SpellLayers(init, id, !l.PointerL?, Back(l, direct) + rest);
    match l
    case PointerL(q) =>
      WordsApart(QualifierWords(q), tail);
      assert [] + rest == rest;
    case FunctionL(params, varargs) =>
      ParamsApart(params, varargs, rest);
      assert [LeftParen] + (SpellParams(params, varargs, []) + rest) == Back(l, direct) + rest;
      assert [] + tail == tail;
    case _ => assert [] + tail == tail;
  }

  lemma {:induction false} ParamsApart(params: seq<Variable>, varargs: bool, rest: seq<Token>)
    ensures SpellParams(params, varargs, rest) == SpellParams(params, varargs, []) + rest
    decreases ParamsSize(params), 2
  {
    hide SpellVariable;
    if params == [] {
      assert [] + rest == rest;
    } else if |params| == 1 && !varargs {
      VariableBefore(params[0], [RightParen], rest);
    } else {
      var more := SpellParams(params[1..], varargs, []);
      ParamsApart(params[1..], varargs, rest);
      VariableBefore(params[0], [Comma] + more, rest);
      assert [Comma] + (more + rest) == [Comma] + more + rest;
    }
  }

  lemma {:induction false} VariableBefore(v: Variable, ts: seq<Token>, rest: seq<Token>)
    ensures SpellVariable(v, ts + rest) == SpellVariable(v, ts) + rest
    ensures SpellVariable(v, ts + []) == SpellVariable(v, ts)
    decreases Size(v.ctype), 2
  {
    hide SpellVariable;
    VariableApart(v, ts + rest);
    VariableApart(v, ts);
    assert SpellVariable(v, []) + (ts + rest) == SpellVariable(v, []) + ts + rest;
    assert ts + [] == ts;
  }

  lemma {:induction false} VariableApart(v: Variable, rest: seq<Token>)
    ensures SpellVariable(v, rest) == SpellVariable(v, []) + rest
    decreases Size(v.ctype), 1
  {
    var ls := Layers(v.ctype);
    LayersApart(ls, v.id, false, rest);
    LayersApart(ls, v.id, false, []);
    var d := SpellLayers(ls, v.id, false, []);
    assert SpellLayers(ls, v.id, false, rest) == d + rest;
    WordsApart(QualifierWords(v.qualifiers), [Word(TypeWord(BaseOf(v.ctype)))] + (d + rest));
    WordsApart(QualifierWords(v.qualifiers), [Word(TypeWord(BaseOf(v.ctype)))] + d);
  }

  method UnrollType(ctype: Type) returns (ls: seq<Layer>, base: nat)
    ensures ls == Layers(ctype) && base == BaseOf(ctype)
  {
    ls := [];
    var t := ctype;
    while !t.Base?
      invariant ls + Layers(t) == Layers(ctype) && BaseOf(t) == BaseOf(ctype)
      decreases t
    {
      NextLayer(ls, t);
      match t {
        case Pointer(to, q) =>
          ls := ls + [PointerL(q)];
          t := to;
        case Array(of, size) =>
          ls := ls + [ArrayL(size)];
          t := of;
        case Function(ret, params, varargs) =>
          ls := ls + [FunctionL(params, varargs)];
          t := ret;
      }
    }
    base := t.n;
  }

  lemma {:induction false} NextLayer(ls: seq<Layer>, t: Type)
    requires !t.Base?
    ensures match t
            case Pointer(to, q) => ls + Layers(t) == ls + [PointerL(q)] + Layers(to)
            case Array(of, size) => ls + Layers(t) == ls + [ArrayL(size)] + Layers(of)
            case Function(ret, params, varargs) => ls + Layers(t) == ls + [FunctionL(params, varargs)] + Layers(ret)
  {}

  /** The layers are gone through from the outside in; what they put in front of the
      name is written in reverse. */
  method PrintType(ctype: Type, id: string) returns (out: seq<Token>)
    ensures out == SpellType(ctype, id, [])
    decreases Size(ctype), 0
  {
    hide Front, Back, Fronts, Backs;
    var ls, base := UnrollType(ctype);
    NoLayers();
    var front: seq<Token>, back: seq<Token> := [], [];
    var i := 0;
    while i < |ls|
      invariant i <= |ls|
      invariant var direct := i < |ls| && !ls[i].PointerL?; front == Fronts(ls[..i], direct) && back == Backs(ls[..i], direct)
    {
      var direct := i + 1 < |ls| && !ls[i + 1].PointerL?;
      OneLayer(ls, i, direct);
      front := Front(ls[i], direct) + front;
      if ls[i].FunctionL? {
        FunctionBack(ls[i], direct);
        LayerInside(ls, i);
        var params := PrintParams(ls[i].params, ls[i].varargs);
        back := back + ([LeftParen] + params);
      } else {
        back := back + Back(ls[i], direct);
      }
      i := i + 1;
    }
    assert ls[..|ls|] == ls;
    LayersApart(ls, id, false, []);
    out := [Word(TypeWord(base))] + (front + Name(id, []) + back);
    assert front + Name(id, []) + back + [] == front + Name(id, []) + back;
  }

  lemma {:induction false} NoLayers()
    ensures forall direct :: Fronts([], direct) == [] && Backs([], direct) == []
  {}

  lemma {:induction false} FunctionBack(l: Layer, direct: bool)
    requires l.FunctionL?
    ensures Back(l, direct) == [LeftParen] + SpellParams(l.params, l.varargs, [])
  {}

  lemma {:induction false} OneLayer(ls: seq<Layer>, i: nat, direct: bool)
    requires i < |ls|
    ensures Fronts(ls[..i + 1], direct) == Front(ls[i], direct) + Fronts(ls[..i], !ls[i].PointerL?)
    ensures Backs(ls[..i + 1], direct) == Backs(ls[..i], !ls[i].PointerL?) + Back(ls[i], direct)
  {
    assert ls[..i + 1][..i] == ls[..i];
  }

  lemma {:induction false} LayerInside(ls: seq<Layer>, i: nat)
    requires i < |ls|
    ensures LayerSize(ls[i]) <= LayersSize(ls)
    decreases |ls|
  {
    if i < |ls| - 1 {
      LayerInside(ls[..|ls| - 1], i);
    }
  }

  method PrintParams(params: seq<Variable>, varargs: bool) returns (out: seq<Token>)
    ensures out == SpellParams(params, varargs, [])
    decreases ParamsSize(params), 3
  {
    out := [];
    var i := 0;
    ghost var all := SpellParams(params, varargs, []);
    assert params[0..] == params && [] + all == all;
    while i < |params|
      invariant i <= |params| && out + SpellParams(params[i..], varargs, []) == all
    {
      ghost var rest := params[i..];
      assert rest[1..] == params[i + 1..];
      ParamInside(params, i);
      var param := PrintVariable(params[i]);
      OneParam(rest, varargs);
      var comma := i != |params| - 1 || varargs;
      ghost var before := out;
      out := out + param + (if comma then [Comma] else []);
      assert before + (param + (if comma then [Comma] else []) + SpellParams(rest[1..], varargs, [])) ==
             out + SpellParams(rest[1..], varargs, []);
      i := i + 1;
    }
    out := out + (if varargs then [Ellipsis, RightParen] else [RightParen]);
  }

  lemma {:induction false} OneParam(params: seq<Variable>, varargs: bool)
    requires params != []
    ensures SpellParams(params, varargs, []) ==
            SpellVariable(params[0], []) + (if |params| > 1 || varargs then [Comma] else []) +
            SpellParams(params[1..], varargs, [])
  {
    if |params| == 1 && !varargs {
      VariableApart(params[0], [RightParen] + []);
    } else {
      VariableApart(params[0], [Comma] + SpellParams(params[1..], varargs, []));
    }
  }

  lemma {:induction false} ParamInside(params: seq<Variable>, i: nat)
    requires i < |params|
    ensures Size(params[i].ctype) < ParamsSize(params)
    decreases |params|
  {
    if i > 0 {
      ParamInside(params[1..], i - 1);
    }
  }

  method PrintVariable(v: Variable) returns (out: seq<Token>)
    ensures out == SpellVariable(v, [])
    decreases Size(v.ctype), 1
  {
    var printed := PrintType(v.ctype, v.id);
    WordsApart(QualifierWords(v.qualifiers), printed);
    out := Words(QualifierWords(v.qualifiers), []) + printed;
  }
}
