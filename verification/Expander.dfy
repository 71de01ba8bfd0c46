/** Groups of source lines: directives, conditionals and text, with the table of
    macros they change. */
module Groups {
  import opened Wrappers
  import opened Integers
  import opened PpTokens
  import opened Conditions
  import opened CondParsing
  import opened CondTheorems
  import opened Macros
  import opened Expansion

  datatype Part =
    | Text(ts: seq<Token>)
    | Directive(name: Option<Token>, ts: seq<Token>)
    | IfElse(cond: seq<Token>, thn: seq<Part>, els: seq<Part>)

  function NameOf(t: Option<Token>): string {
    if t.Some? && t.value.Ident? then t.value.name else ""
  }

  predicate IsName(ts: seq<Token>, i: nat, name: string) {
    i < |ts| && ts[i].Ident? && ts[i].name == name
  }

  /** Pragmas that are dropped instead of being passed on. */
  predicate HiddenPragma(ts: seq<Token>) {
    && |ts| >= 3 && IsName(ts, 0, "GCC") && ts[1] == Whitespace
    && ((|ts| == 3 && IsName(ts, 2, "system_header")) ||
        (|ts| == 7 && IsName(ts, 2, "diagnostic") && ts[3] == Whitespace && IsName(ts, 4, "ignored") &&
         ts[5] == Whitespace && ts[6] == Literal("\"-Wliteral-suffix\"")))
  }

  function PassedOn(name: Option<Token>, ts: seq<Token>): seq<Token> {
    [Punct('#')] + Slot(name) + (if ts == [] then [] else [Whitespace]) + ts + [Newline]
  }

  /** What one directive leaves in the output and in the table. An `#include` is passed
      on like any directive that is not known here. */
  function Directed(defs: Defines, name: Option<Token>, ts: seq<Token>): (r: (seq<Token>, Defines))
    requires ValidTable(defs)
    ensures ValidTable(r.1)
  {
    if NameOf(name) == "define" && ts != [] && ts[0].Ident? then ([], defs[ts[0].name := ParseMacro(ts[1..])])
    else if NameOf(name) == "undef" && |ts| == 1 && ts[0].Ident? then ([], defs - {ts[0].name})
    else if NameOf(name) == "pragma" && HiddenPragma(ts) then ([], defs)
    else (PassedOn(name, ts), defs)
  }

  /** The output of a group and the table after it. */
  function ExpandGroup(world: World, defs: Defines, parts: seq<Part>): (r: (seq<Token>, Defines))
    requires ValidTable(defs)
    ensures ValidTable(r.1)
    decreases parts
  {
    if parts == [] then ([], defs)
    else
      var (out, defs1) := ExpandPart(world, defs, parts[0]);
      var (more, defs2) := ExpandGroup(world, defs1, parts[1..]);
      (out + more, defs2)
  }

  function ExpandPart(world: World, defs: Defines, part: Part): (r: (seq<Token>, Defines))
    requires ValidTable(defs)
    ensures ValidTable(r.1)
    decreases part
  {
    match part
    case Text(ts) => (ExpandMacros(world, defs, ts, File), defs)
    case Directive(name, ts) => Directed(defs, name, ts)
    case IfElse(cond, thn, els) =>
      ExpandGroup(world, defs, if Holds(ExpandMacros(world, defs, cond, Cond)) then thn else els)
  }

  // ---------- properties ----------

  /** A conditional takes its first group exactly when its condition, expanded, has a
      value other than 0. */
  lemma {:induction false} IfTakesThen(world: World, defs: Defines, cond: seq<Token>, thn: seq<Part>, els: seq<Part>)
    requires ValidTable(defs)
    ensures var ts := ExpandMacros(world, defs, cond, Cond);
            var taken := exists e :: Is(e, ts) && Value(e).Some? && Value(e).value != 0;
            ExpandPart(world, defs, IfElse(cond, thn, els)) == ExpandGroup(world, defs, if taken then thn else els)
  {
    HoldsIsMeaning(ExpandMacros(world, defs, cond, Cond));
  }

  /** No part undefines `x`, whichever way its conditionals go. */
  predicate Keeps(parts: seq<Part>, x: string)
    decreases parts
  {
    forall i :: 0 <= i < |parts| ==>
      match parts[i]
      case Text(_) => true
      case Directive(name, ts) => !(NameOf(name) == "undef" && |ts| == 1 && IsName(ts, 0, x))
      case IfElse(_, thn, els) => Keeps(thn, x) && Keeps(els, x)
  }

  lemma {:induction false} KeptDefined(world: World, defs: Defines, parts: seq<Part>, x: string)
    requires ValidTable(defs) && x in defs && Keeps(parts, x)
    ensures x in ExpandGroup(world, defs, parts).1
    decreases parts
  {
    if parts != [] {
      var (out, defs1) := ExpandPart(world, defs, parts[0]);
      match parts[0] {
        case IfElse(cond, thn, els) =>
          KeptDefined(world, defs, if Holds(ExpandMacros(world, defs, cond, Cond)) then thn else els, x);
        case _ =>
      }
      KeptDefined(world, defs1, parts[1..], x);
    }
  }

  /** The tokens `#ifndef x` stands for. */
  function NotDefined(x: string, line: nat): seq<Token> {
    [Punct('!'), Ident("defined", line), Whitespace, Ident(x, line)]
  }

  lemma {:induction false} NotDefinedHolds(world: World, defs: Defines, x: string, line: nat)
    requires ValidTable(defs)
    ensures Holds(ExpandMacros(world, defs, NotDefined(x, line), Cond)) <==> x !in defs
  {
    var ts := NotDefined(x, line);
    assert ts[1..] == [Ident("defined", line), Whitespace, Ident(x, line)];
    assert ts[1..][1..] == [Whitespace, Ident(x, line)];
    assert [Whitespace, Ident(x, line)][1..] == [Ident(x, line)] && [Ident(x, line)][1..] == [];
    assert DefinedArg([Whitespace, Ident(x, line)]) == Some((x, []));
    var digit := if x in defs then "1" else "0";
    assert ExpandMacros(world, defs, [], Cond) == [];
    assert ExpandMacros(world, defs, ts[1..], Cond) == [Literal(digit)] + [];
    assert ExpandMacros(world, defs, ts, Cond) == [Punct('!')] + ([Literal(digit)] + []);
    var e := Not(0, Number(0, digit));
    assert DropSuffix(digit, 'l', 'L') == DropSuffix(digit, 'u', 'U') == digit;
    assert Value(e) == Some(Truth(x !in defs));
    assert Spell(e, []) == [Punct('!'), Literal(digit)] by { assert [Literal(digit)] + [] == [Literal(digit)]; }
    StopsAt(e, Ternary, 0, []);
    TernarySpelled(e, []);
  }

  /** `1 name + 1`, with a space between any two tokens. */
  function OnePlusOne(name: seq<Token>): seq<Token> {
    [Literal("1"), Whitespace] + name + [Whitespace, Punct('+'), Whitespace, Literal("1")]
  }

  /** A macro without a body leaves two spaces side by side, and then a plus behind it is
      not seen: `#if 1 + 1` holds, and `#if 1 E + 1` does not. */
  lemma {:induction false} EmptyMacroHidesPlus(world: World, defs: Defines, name: string, line: nat)
    requires ValidTable(defs) && name in defs && defs[name] == Macro(None, Regular([])) && name != "defined"
    ensures var ts := ExpandMacros(world, defs, OnePlusOne([Ident(name, line)]), Cond);
            ts == OnePlusOne([]) && !Holds(ts)
    ensures Holds([Literal("1"), Whitespace, Punct('+'), Whitespace, Literal("1")])
  {
    EmptyMacroExpands(world, defs, name, line);
    OnePlusOneHolds();
    OnePlusOneFails();
  }

  lemma {:induction false} EmptyMacroExpands(world: World, defs: Defines, name: string, line: nat)
    requires ValidTable(defs) && name in defs && defs[name] == Macro(None, Regular([])) && name != "defined"
    ensures ExpandMacros(world, defs, OnePlusOne([Ident(name, line)]), Cond) == OnePlusOne([])
  {
    var one, plus := Literal("1"), [Whitespace, Punct('+'), Whitespace, Literal("1")];
    var id := [Ident(name, line)] + plus;
    assert OnePlusOne([Ident(name, line)]) == [one, Whitespace] + id;
    assert OnePlusOne([]) == [one, Whitespace] + plus;
    NoNames(world, defs, plus, []);
    assert plus + [] == plus;
    assert ExpandMacros(world, defs, [], Within(name, line, Cond)) == [];
    assert id[1..] == plus && ExpandMacros(world, defs, id, Cond) == [] + plus;
    NoNames(world, defs, [one, Whitespace], id);
  }

  lemma {:induction false} OnePlusOneFails()
    ensures !Holds(OnePlusOne([]))
  {
    hide Holds;
    var x, one := Number(0, "1"), Literal("1");
    var plus := [Punct('+')] + [Whitespace, one];
    assert Sp(1, plus) == [Whitespace] + plus && Sp(2, plus) == [Whitespace] + Sp(1, plus);
    assert Spell(x, Sp(2, plus)) == [one] + Sp(2, plus);
    assert OnePlusOne([]) == Spell(x, Sp(2, plus));
    PlusBehindTwoSpaces(x, 2, [Whitespace, one]);
  }

  lemma {:induction false} OnePlusOneHolds()
    ensures Holds([Literal("1"), Whitespace, Punct('+'), Whitespace, Literal("1")])
  {
    hide ReadTernary, Stops, Eaten;
    var x, one := Number(0, "1"), Literal("1");
    var sum := Sum(x, 1, false, Number(1, "1"));
    One();
    var t := [one] + [];
    assert Spell(Number(1, "1"), []) == [Whitespace] + t by { assert Sp(1, t) == [Whitespace] + Sp(0, t); }
    var plus := [Punct('+')] + ([Whitespace] + t);
    assert Sp(1, plus) == [Whitespace] + plus by { assert Sp(0, plus) == plus; }
    assert Spell(sum, []) == [one] + ([Whitespace] + plus);
    assert Spell(sum, []) == [one, Whitespace, Punct('+'), Whitespace, one];
    StopsAt(sum, Ternary, 0, []);
    TernarySpelled(sum, []);
    assert Value(sum) == Some(2);
    DropSp(0, [], Eaten(sum, Ternary));
  }

  lemma {:induction false} One()
    ensures LiteralValue("1") == Some(1)
  {
    assert DropSuffix("1", 'l', 'L') == DropSuffix("1", 'u', 'U') == "1";
    assert Decimal("1") == Some(1);
  }

  lemma {:induction false} NoNames(world: World, defs: Defines, a: seq<Token>, b: seq<Token>)
    requires ValidTable(defs) && forall i :: 0 <= i < |a| ==> !a[i].Ident?
    ensures ExpandMacros(world, defs, a + b, Cond) == a + ExpandMacros(world, defs, b, Cond)
    decreases |a|
  {
    if a == [] {
      assert a + b == b;
    } else {
      assert (a + b)[0] == a[0] && (a + b)[1..] == a[1..] + b;
      NoNames(world, defs, a[1..], b);
      assert a == [a[0]] + a[1..];
    }
  }

  /** An include guard works: a group that defines the name it asks for, and does not
      undefine it, leaves nothing in the output the second time. */
  lemma {:induction false} GuardedOnce(world: World, defs: Defines, x: string, line: nat, define: Part, body: seq<Part>)
    requires ValidTable(defs) && Keeps(body, x)
    requires define.Directive? && NameOf(define.name) == "define" && IsName(define.ts, 0, x)
    ensures var guarded := IfElse(NotDefined(x, line), [define] + body, []);
            ExpandGroup(world, defs, [guarded, guarded]) == ExpandGroup(world, defs, [guarded])
  {
    var thn := [define] + body;
    var guarded := IfElse(NotDefined(x, line), thn, []);
    var (out, defs1) := ExpandPart(world, defs, guarded);
    NotDefinedHolds(world, defs, x, line);
    assert x in defs1 by {
      if x in defs {
        assert ExpandPart(world, defs, guarded) == ExpandGroup(world, defs, []);
      } else {
        assert ExpandPart(world, defs, guarded) == ExpandGroup(world, defs, thn);
        assert thn[0] == define && thn[1..] == body;
        var defs0 := Directed(defs, define.name, define.ts).1;
        KeptDefined(world, defs0, body, x);
        assert ExpandGroup(world, defs, thn).1 == ExpandGroup(world, defs0, body).1;
      }
    }
    NotDefinedHolds(world, defs1, x, line);
    assert ExpandPart(world, defs1, guarded) == ([], defs1);
    assert [guarded, guarded][1..] == [guarded] && [guarded][1..] == [];
    assert out + ([] + []) == out + [];
  }
}

/** The preprocessor's fourth phase as the front end has it: an object with the table
    of macros. */
module Expander {
  import opened Wrappers
  import opened PpTokens
  import opened CondParsing
  import opened CondEvaluator
  import opened Macros
  import opened Expansion
  import opened Groups

  method ParseBodyLoop(params: Option<Params>, body: seq<Token>) returns (rs: seq<Replacement>)
    ensures rs == ParseBody(params, [], body, body)
  {
    hide WithVerbatim, DropSpace, TakeLast, EatParam, ConcatRight, EatHashHash;
    rs := [];
    var start, ts := body, body;
    while true
      invariant |ts| <= |start| && AllSound(rs, ArgCount(Counted(params)))
      invariant ParseBody(params, rs, start, ts) == ParseBody(params, [], body, body)
      decreases |ts|
    {
      rs := WithVerbatim(rs, start[..|start| - |ts|]);
      var concat := EatHashHash(ts);
      if concat.Some? {
        var (init, parts) := TakeLast(DropSpace(rs));
        var (part, rest) := ConcatRight(params, concat.value);
        rs := init + [Concat(parts + part)];
        start, ts := rest, rest;
        continue;
      }
      var param := EatParam(params, ts);
      if param.Some? {
        rs := rs + [Param(param.value.0, param.value.1)];
        start, ts := param.value.2, param.value.2;
      } else if ts == [] {
        return;
      } else {
        ts := ts[1..];
      }
    }
  }

  /** One turn of the loop over the tokens. */
  lemma {:induction false} OneToken(world: World, defs: Defines, ts: seq<Token>, outer: Outer, out: seq<Token>)
    requires ValidTable(defs) && Chain(outer, defs) && ts != []
    ensures out + ExpandMacros(world, defs, ts, outer) ==
            if ts[0].Ident? && ts[0].name == "defined" && FromCond(outer) && DefinedArg(ts[1..]).Some? then
              out + [Bit(DefinedArg(ts[1..]).value.0 in defs)] +
              ExpandMacros(world, defs, DefinedArg(ts[1..]).value.1, outer)
            else if ts[0].Ident? && ts[0].name in defs && TryExpand(world, defs, ts[0], outer, ts[1..]).Some? then
              var (more, rest) := TryExpand(world, defs, ts[0], outer, ts[1..]).value;
              out + more + ExpandMacros(world, defs, rest, outer)
            else out + [ts[0]] + ExpandMacros(world, defs, ts[1..], outer)
  {
    hide TryExpand, DefinedArg;
  }

  lemma {:induction false} NoToken(world: World, defs: Defines, outer: Outer, out: seq<Token>)
    requires ValidTable(defs) && Chain(outer, defs)
    ensures out + ExpandMacros(world, defs, [], outer) == out
  {}

  /** One turn of the loop over the parts. */
  lemma {:induction false} OnePart(world: World, defs: Defines, parts: seq<Part>, i: nat, out: seq<Token>)
    requires ValidTable(defs) && i < |parts|
    ensures var (first, defs1) := ExpandPart(world, defs, parts[i]);
            var (more, defs2) := ExpandGroup(world, defs1, parts[i + 1..]);
            ExpandGroup(world, defs, parts[i..]) == (first + more, defs2) && out + first + more == out + (first + more)
  {
    assert parts[i..][0] == parts[i] && parts[i..][1..] == parts[i + 1..];
  }

  class Phase4 {
    const world: World
    var defines: Defines

    constructor (world: World, defines: Defines)
      ensures this.world == world && this.defines == defines
    {
      this.world, this.defines := world, defines;
    }

    ghost predicate Valid()
      reads this
    {
      ValidTable(defines)
    }

    /** Moves over the tokens of one argument and its end. */
    method ScanArgument(ts: seq<Token>, anyComma: bool) returns (r: Option<(nat, bool)>)
      ensures r == ScanArg(ts, 0, anyComma)
    {
      var n: nat, depth: nat := 0, 0;
      while n < |ts|
        invariant n <= |ts|
        invariant ScanArg(ts, 0, anyComma) ==
                  (match ScanArg(ts[n..], depth, anyComma)
                   case None => None
                   case Some((k, closing)) => Some((n + k, closing)))
      {
        var t := ts[n];
        if depth == 0 && (t == Punct(')') || (t == Punct(',') && !anyComma)) {
          return Some((n, t == Punct(')')));
        }
        depth := if t == Punct('(') then depth + 1 else if t == Punct(')') then depth - 1 else depth;
        n := n + 1;
      }
      r := None;
    }

    method CollectArguments(params: (nat, bool), tokens: seq<Token>) returns (r: Option<(Args, seq<Token>)>)
      ensures r == CollectArgs(params, tokens)
    {
      var (open, ts) := Eat(SkipBlank(tokens), Punct('('));
      if !open {
        return None;
      }
      var (count, variadic) := params;
      var expected := ArgCount(Some(params));
      ghost var spec := MoreArgs(params, [], ts);
      var args: Args := [];
      while true
        invariant MoreArgs(params, args, ts) == spec
        decreases |ts|
      {
        ts := SkipBlank(ts);
        if expected == 0 {
          return if ts != [] && ts[0] == Punct(')') then Some(([], ts[1..])) else None;
        }
        var found := ScanArgument(ts, variadic && |args| == count);
        if found.None? {
          return None;
        }
        var (n, closing) := found.value;
        args := args + [TrimEnd(ts[..n])];
        ts := ts[n + 1..];
        if closing {
          if variadic && |args| == count {
            args := args + [[]];
          }
          return if |args| == expected then Some((args, ts)) else None;
        } else if |args| == expected {
          return None;
        }
      }
    }

    method Expand(tokens: seq<Token>, outer: Outer) returns (out: seq<Token>)
      requires Valid() && Chain(outer, defines)
      ensures out == ExpandMacros(world, defines, tokens, outer)
      decreases Free(outer, defines), |tokens|, 0
    {
      hide ExpandMacros, TryExpand, DefinedArg;
      out := [];
      var ts := tokens;
      ghost var spec := ExpandMacros(world, defines, tokens, outer);
      assert [] + spec == spec;
      while ts != []
        invariant |ts| <= |tokens|
        invariant out + ExpandMacros(world, defines, ts, outer) == spec
        decreases |ts|
      {
        var tok := ts[0];
        OneToken(world, defines, ts, outer, out);
        if tok.Ident? {
          if tok.name == "defined" && FromCond(outer) && DefinedArg(ts[1..]).Some? {
            var (arg, rest) := DefinedArg(ts[1..]).value;
            out := out + [Bit(arg in defines)];
            ts := rest;
            continue;
          }
          if tok.name in defines {
            var used := TryExpandMacro(tok, outer, ts[1..]);
            if used.Some? {
              out := out + used.value.0;
              ts := used.value.1;
              continue;
            }
          }
        }
        out := out + [tok];
        ts := ts[1..];
      }
      NoToken(world, defines, outer, out);
    }

    method TryExpandMacro(id: Token, outer: Outer, tokens: seq<Token>) returns (r: Option<(seq<Token>, seq<Token>)>)
      requires Valid() && Chain(outer, defines) && id.Ident? && id.name in defines
      ensures r == TryExpand(world, defines, id, outer, tokens)
      decreases Free(outer, defines), |tokens|, 1
    {
      hide ExpandMacros, ExpandArgs, Substituted, CollectArgs, Digits, StringLiteral, OutermostLine, FromCond;
      if IsExpanding(outer, id.name) {
        return None;
      }
      var m := defines[id.name];
      var args, rest := [], tokens;
      if m.params.Some? {
        var collected := CollectArguments(m.params.value, tokens);
        if collected.None? {
          return None;
        }
        args, rest := collected.value.0, collected.value.1;
      }
      match m.body {
        case BuiltinFile => r := Some(([StringLiteral(world.file)], rest));
        case BuiltinLine =>
          var line := OutermostLine(outer);
          r := Some(([Literal(Digits(if line.Some? then line.value else id.line))], rest));
        case CondOnly(special) =>
          if !FromCond(outer) {
            return None;
          }
          var answer := world.ask(special, args[0]);
          r := if answer.Some? then Some(([Bit(answer.value)], rest)) else None;
        case Regular(rs) =>
          FreeShrinks(outer, defines, id.name, id.line);
          var expanded := ExpandArguments(args, outer, |tokens|);
          var out := Expand(Substituted(world, rs, args, expanded), Within(id.name, id.line, outer));
          r := Some((out, rest));
      }
    }

    method ExpandArguments(args: Args, outer: Outer, limit: nat) returns (expanded: Args)
      requires Valid() && Chain(outer, defines) && Short(args, limit)
      ensures expanded == ExpandArgs(world, defines, args, outer, limit)
      decreases Free(outer, defines), limit, 0, |args|
    {
      if args == [] {
        return [];
      }
      var first := Expand(args[0], outer);
      var more := ExpandArguments(args[1..], outer, limit);
      expanded := [first] + more;
    }

    method ExpandParts(parts: seq<Part>) returns (out: seq<Token>)
      requires Valid()
      modifies this
      ensures Valid() && (out, defines) == ExpandGroup(world, old(defines), parts)
      decreases parts
    {
      out := [];
      var i := 0;
      ghost var spec := ExpandGroup(world, defines, parts);
      assert parts[0..] == parts && [] + spec.0 == spec.0;
      while i < |parts|
        invariant i <= |parts| && Valid()
        invariant var (more, defs) := ExpandGroup(world, defines, parts[i..]); (out + more, defs) == spec
      {
        OnePart(world, defines, parts, i, out);
        var text := ExpandOne(parts[i]);
        out := out + text;
        i := i + 1;
      }
      assert out + [] == out;
    }

    method ExpandOne(part: Part) returns (out: seq<Token>)
      requires Valid()
      modifies this
      ensures Valid() && (out, defines) == ExpandPart(world, old(defines), part)
      decreases part
    {
      match part {
        case Text(ts) => out := Expand(ts, File);
        case Directive(name, ts) =>
          out := [];
          if NameOf(name) == "define" && ts != [] && ts[0].Ident? {
            var params := ParseParams(ts[1..]);
            var names := if params.Some? then Some(params.value.0) else None;
            var rs := ParseBodyLoop(names, SkipSpace(if params.Some? then params.value.1 else ts[1..]));
            defines := defines[ts[0].name := Macro(Counted(names), Regular(rs))];
          } else if NameOf(name) == "undef" && |ts| == 1 && ts[0].Ident? {
            defines := defines - {ts[0].name};
          } else if !(NameOf(name) == "pragma" && HiddenPragma(ts)) {
            out := PassedOn(name, ts);
          }
        case IfElse(cond, thn, els) =>
          var expanded := Expand(cond, Cond);
          var eval := new CondEval(expanded);
          var holds := eval.Eval();
          out := ExpandParts(if holds then thn else els);
      }
    }
  }
}
