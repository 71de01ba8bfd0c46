/** What macro expansion does where no macro with parameters is met: distribution, where
    names can be left over, and agreement with plain substitution. */
module ExpansionTheorems {
  import opened Wrappers
  import opened FiniteSets
  import opened PpTokens
  import opened Macros
  import opened Expansion

  /** A macro that never takes anything from behind its name: one without parameters, or
      one of the questions that only a condition answers. */
  predicate Alone(m: Macro) {
    m.params.None? || m.body.CondOnly?
  }

  predicate AloneAt(defs: Defines, t: Token) {
    t.Ident? && t.name in defs ==> Alone(defs[t.name])
  }

  predicate AllAlone(defs: Defines, ts: seq<Token>) {
    forall i :: 0 <= i < |ts| ==> AloneAt(defs, ts[i])
  }

  /** Outside conditions the first token is expanded by itself. */
  lemma {:induction false} ExpandStep(world: World, defs: Defines, ts: seq<Token>, outer: Outer)
    requires ValidTable(defs) && Chain(outer, defs) && !FromCond(outer) && ts != [] && AloneAt(defs, ts[0])
    ensures ExpandMacros(world, defs, ts, outer) ==
            ExpandMacros(world, defs, [ts[0]], outer) + ExpandMacros(world, defs, ts[1..], outer)
  {
    var t := ts[0];
    assert [t][1..] == [];
    assert ExpandMacros(world, defs, [], outer) == [];
    if t.Ident? && t.name in defs {
      TryAlone(world, defs, t, outer, ts[1..]);
    }
  }

  /** What is tried is the same whatever follows. */
  lemma {:induction false} TryAlone(world: World, defs: Defines, t: Token, outer: Outer, ts: seq<Token>)
    requires ValidTable(defs) && Chain(outer, defs) && !FromCond(outer)
    requires t.Ident? && t.name in defs && Alone(defs[t.name])
    ensures match TryExpand(world, defs, t, outer, [])
            case None => TryExpand(world, defs, t, outer, ts) == None
            case Some((out, rest)) => rest == [] && TryExpand(world, defs, t, outer, ts) == Some((out, ts))
  {
    hide ExpandMacros, Substituted, CollectArgs;
  }

  /** Expansion goes token by token where no macro takes arguments: what stands behind does
      not matter. */
  lemma {:induction false} ExpandAppend(world: World, defs: Defines, a: seq<Token>, b: seq<Token>, outer: Outer)
    requires ValidTable(defs) && Chain(outer, defs) && !FromCond(outer) && AllAlone(defs, a)
    ensures ExpandMacros(world, defs, a + b, outer) ==
            ExpandMacros(world, defs, a, outer) + ExpandMacros(world, defs, b, outer)
    decreases |a|
  {
    hide TryExpand;
    if a == [] {
      assert a + b == b;
      assert ExpandMacros(world, defs, [], outer) == [];
    } else {
      AppendStep(world, defs, a, b, outer);
      ExpandAppend(world, defs, a[1..], b, outer);
    }
  }

  lemma {:induction false} AppendStep(world: World, defs: Defines, a: seq<Token>, b: seq<Token>, outer: Outer)
    requires ValidTable(defs) && Chain(outer, defs) && !FromCond(outer) && a != [] && AloneAt(defs, a[0])
    ensures var first := ExpandMacros(world, defs, [a[0]], outer);
            && ExpandMacros(world, defs, a + b, outer) == first + ExpandMacros(world, defs, a[1..] + b, outer)
            && ExpandMacros(world, defs, a, outer) == first + ExpandMacros(world, defs, a[1..], outer)
  {
    hide ExpandMacros;
    ExpandStep(world, defs, a + b, outer);
    ExpandStep(world, defs, a, outer);
    assert (a + b)[0] == a[0] && (a + b)[1..] == a[1..] + b;
  }

  // ---------- dependencies ----------

  /** The tokens a macro without parameters stands for, `##` already done. */
  function BodyOf(world: World, defs: Defines, n: string): seq<Token>
    requires ValidTable(defs)
  {
    if n in defs && defs[n].params.None? && defs[n].body.Regular? then
      Substituted(world, defs[n].body.replacements, [], [])
    else []
  }

  predicate Uses(ts: seq<Token>, n: string) {
    exists i :: 0 <= i < |ts| && ts[i].Ident? && ts[i].name == n
  }

  /** Everything `ts` uses is in `live`. */
  predicate LiveAll(ts: seq<Token>, live: set<string>) {
    forall i :: 0 <= i < |ts| && ts[i].Ident? ==> ts[i].name in live
  }

  /** `live` is closed: it holds every name its macros lead to, and none of them takes
      arguments. Of other names in the table nothing is asked. */
  predicate Closed(world: World, defs: Defines, live: set<string>)
    requires ValidTable(defs)
  {
    forall n :: n in live && n in defs ==> Alone(defs[n]) && LiveAll(BodyOf(world, defs, n), live)
  }

  /** What is left alone outside a condition: names that are no macros, and questions. */
  predicate Inert(defs: Defines, ts: seq<Token>) {
    forall n :: n in defs && Uses(ts, n) ==> defs[n].body.CondOnly?
  }

  /** `p` goes from macro to macro, each used in the body of the one before. */
  predicate IsPath(world: World, defs: Defines, p: seq<string>)
    requires ValidTable(defs)
  {
    && (forall i :: 0 <= i < |p| ==> p[i] in defs)
    && (forall i :: 0 < i < |p| ==> Uses(BodyOf(world, defs, p[i - 1]), p[i]))
  }

  ghost predicate OnCycle(world: World, defs: Defines, n: string)
    requires ValidTable(defs)
  {
    exists p :: |p| >= 2 && p[0] == n && p[|p| - 1] == n && IsPath(world, defs, p)
  }

  ghost predicate Acyclic(world: World, defs: Defines, live: set<string>)
    requires ValidTable(defs)
  {
    forall n :: n in live ==> !OnCycle(world, defs, n)
  }

  /** The chain as a path, outermost first. */
  function PathOf(outer: Outer): (p: seq<string>)
    ensures forall n :: IsExpanding(outer, n) <==> n in p
  {
    if outer.Within? then PathOf(outer.outer) + [outer.name] else []
  }

  /** Whatever uses a name that its own expansion led to closes a cycle. */
  lemma {:induction false} CycleFound(world: World, defs: Defines, outer: Outer, n: string)
    requires ValidTable(defs) && IsPath(world, defs, PathOf(outer)) && outer.Within?
    requires IsExpanding(outer, n) && Uses(BodyOf(world, defs, outer.name), n)
    ensures OnCycle(world, defs, n)
  {
    hide BodyOf;
    var p := PathOf(outer);
    var i :| 0 <= i < |p| && p[i] == n;
    var q := p[i..] + [n];
    assert p[|p| - 1] == outer.name;
    assert IsPath(world, defs, q) by {
      forall k | 0 < k < |q| ensures Uses(BodyOf(world, defs, q[k - 1]), q[k]) {
        if k < |q| - 1 {
          assert q[k - 1] == p[i + k - 1] && q[k] == p[i + k];
        } else {
          assert q[k - 1] == p[|p| - 1];
        }
      }
    }
  }

  /** Every token of `ts` is live, and comes from the macro being expanded, if one is. */
  predicate From(world: World, defs: Defines, live: set<string>, ts: seq<Token>, outer: Outer)
    requires ValidTable(defs)
  {
    && IsPath(world, defs, PathOf(outer)) && LiveAll(ts, live)
    && (outer.Within? ==> forall i :: 0 <= i < |ts| && ts[i].Ident? ==> Uses(BodyOf(world, defs, outer.name), ts[i].name))
  }

  lemma {:induction false} FromStep(world: World, defs: Defines, live: set<string>, t: Token, outer: Outer)
    requires ValidTable(defs) && Closed(world, defs, live)
    requires t.Ident? && t.name in defs && From(world, defs, live, [t], outer)
    ensures From(world, defs, live, BodyOf(world, defs, t.name), Within(t.name, t.line, outer))
  {
    hide BodyOf;
    assert [t][0] == t;
    var p := PathOf(outer);
    var q := PathOf(Within(t.name, t.line, outer));
    if p != [] {
      assert outer.Within? && p[|p| - 1] == outer.name;
    }
    forall i | 0 < i < |q| ensures Uses(BodyOf(world, defs, q[i - 1]), q[i]) {
      if i < |q| - 1 {
        assert q[i - 1] == p[i - 1] && q[i] == p[i];
      }
    }
  }

  /** What one name becomes that does not take arguments. */
  lemma {:induction false} ExpandName(world: World, defs: Defines, t: Token, outer: Outer)
    requires ValidTable(defs) && Chain(outer, defs) && !FromCond(outer) && t.Ident? && AloneAt(defs, t)
    ensures ExpandMacros(world, defs, [t], outer) ==
            if t.name !in defs || IsExpanding(outer, t.name) then [t]
            else
              match defs[t.name].body
              case BuiltinFile => [StringLiteral(world.file)]
              case BuiltinLine =>
                [Literal(Digits(if OutermostLine(outer).Some? then OutermostLine(outer).value else t.line))]
              case CondOnly(_) => [t]
              case Regular(_) =>
                ExpandMacros(world, defs, BodyOf(world, defs, t.name), Within(t.name, t.line, outer))
  {
    hide Substituted, CollectArgs, Digits, StringLiteral, OutermostLine;
    assert [t][1..] == [];
    assert ExpandMacros(world, defs, [], outer) == [];
  }

  /** A macro's name that is left in the output lies on a cycle of definitions, or is a
      question that only a condition answers. */
  lemma {:induction false} LeftoverOnCycle(world: World, defs: Defines, live: set<string>, ts: seq<Token>, outer: Outer)
    requires ValidTable(defs) && Chain(outer, defs) && !FromCond(outer)
    requires Closed(world, defs, live) && From(world, defs, live, ts, outer)
    ensures forall n :: n in defs && Uses(ExpandMacros(world, defs, ts, outer), n) ==>
              defs[n].body.CondOnly? || OnCycle(world, defs, n)
    decreases Free(outer, defs), |ts|
  {
    hide ExpandMacros, BodyOf, OnCycle, IsPath;
    if ts == [] {
      NothingExpands(world, defs, outer);
    } else {
      assert [ts[0]][0] == ts[0];
      ExpandStep(world, defs, ts, outer);
      LeftoverOnCycle(world, defs, live, ts[1..], outer);
      HeadLeftover(world, defs, live, ts[0], outer);
      var head, rest := ExpandMacros(world, defs, [ts[0]], outer), ExpandMacros(world, defs, ts[1..], outer);
      forall n | n in defs && Uses(head + rest, n) ensures defs[n].body.CondOnly? || OnCycle(world, defs, n) {
        UsesAppend(head, rest, n);
      }
    }
  }

  lemma {:induction false} NothingExpands(world: World, defs: Defines, outer: Outer)
    requires ValidTable(defs) && Chain(outer, defs)
    ensures ExpandMacros(world, defs, [], outer) == []
  {}

  lemma {:induction false} HeadLeftover(world: World, defs: Defines, live: set<string>, t: Token, outer: Outer)
    requires ValidTable(defs) && Chain(outer, defs) && !FromCond(outer)
    requires Closed(world, defs, live) && From(world, defs, live, [t], outer)
    ensures forall n :: n in defs && Uses(ExpandMacros(world, defs, [t], outer), n) ==>
              defs[n].body.CondOnly? || OnCycle(world, defs, n)
    decreases Free(outer, defs), 0
  {
    hide BodyOf, OnCycle, IsPath, Digits, Escaped;
    assert [t][0] == t;
    if !t.Ident? {
      OneExpands(world, defs, t, outer);
    } else {
      ExpandName(world, defs, t, outer);
      if t.name in defs && IsExpanding(outer, t.name) {
        CycleFound(world, defs, outer, t.name);
      } else if t.name in defs && defs[t.name].body.Regular? {
        FromStep(world, defs, live, t, outer);
        FreeShrinks(outer, defs, t.name, t.line);
        LeftoverOnCycle(world, defs, live, BodyOf(world, defs, t.name), Within(t.name, t.line, outer));
      }
    }
  }

  lemma {:induction false} OneExpands(world: World, defs: Defines, t: Token, outer: Outer)
    requires ValidTable(defs) && Chain(outer, defs) && !t.Ident?
    ensures ExpandMacros(world, defs, [t], outer) == [t]
  {
    NothingExpands(world, defs, outer);
    assert [t][1..] == [];
  }

  lemma {:induction false} UsesAppend(a: seq<Token>, b: seq<Token>, n: string)
    ensures Uses(a + b, n) <==> Uses(a, n) || Uses(b, n)
  {
    if Uses(a, n) {
      var i :| 0 <= i < |a| && a[i].Ident? && a[i].name == n;
      assert (a + b)[i] == a[i];
    }
    if Uses(b, n) {
      var i :| 0 <= i < |b| && b[i].Ident? && b[i].name == n;
      assert (a + b)[|a| + i] == b[i];
    }
  }

  /** A name on a cycle is met again inside its own expansion, where it is left over. */
  lemma {:induction false} CycleIsLeft(world: World, defs: Defines, live: set<string>, p: seq<string>, i: nat, t: Token, outer: Outer)
    requires ValidTable(defs) && Chain(outer, defs) && !FromCond(outer) && Closed(world, defs, live)
    requires |p| >= 2 && p[0] == p[|p| - 1] && IsPath(world, defs, p) && i < |p| && t.Ident? && t.name == p[i] && p[i] in live
    requires i > 0 ==> IsExpanding(outer, p[0])
    ensures !Inert(defs, ExpandMacros(world, defs, [t], outer))
    decreases |p| - i
  {
    hide ExpandMacros, BodyOf;
    ExpandName(world, defs, t, outer);
    var out := ExpandMacros(world, defs, [t], outer);
    if IsExpanding(outer, t.name) {
      PathIsRegular(world, defs, p, if i == |p| - 1 then 0 else i);
      assert out[0].Ident? && out[0].name == t.name;
      assert Uses(out, t.name);
    } else {
      PathIsRegular(world, defs, p, i);
      var body := BodyOf(world, defs, t.name);
      var inner := Within(t.name, t.line, outer);
      var k :| 0 <= k < |body| && body[k].Ident? && body[k].name == p[i + 1];
      CycleIsLeft(world, defs, live, p, i + 1, body[k], inner);
      LeftInside(world, defs, body, k, inner);
    }
  }

  lemma {:induction false} PathIsRegular(world: World, defs: Defines, p: seq<string>, i: nat)
    requires ValidTable(defs) && IsPath(world, defs, p) && i + 1 < |p|
    ensures defs[p[i]].body.Regular? && Uses(BodyOf(world, defs, p[i]), p[i + 1])
  {
    var j := i + 1;
    assert Uses(BodyOf(world, defs, p[j - 1]), p[j]);
  }

  /** What one token leaves is left of the whole. */
  lemma {:induction false} LeftInside(world: World, defs: Defines, ts: seq<Token>, k: nat, outer: Outer)
    requires ValidTable(defs) && Chain(outer, defs) && !FromCond(outer) && AllAlone(defs, ts) && k < |ts|
    requires !Inert(defs, ExpandMacros(world, defs, [ts[k]], outer))
    ensures !Inert(defs, ExpandMacros(world, defs, ts, outer))
  {
    hide ExpandMacros;
    var a, b := ts[..k], ts[k..];
    assert a + b == ts && b[0] == ts[k];
    ExpandAppend(world, defs, a, b, outer);
    ExpandStep(world, defs, b, outer);
    var first := ExpandMacros(world, defs, [ts[k]], outer);
    var n :| n in defs && Uses(first, n) && !defs[n].body.CondOnly?;
    var rest := ExpandMacros(world, defs, b[1..], outer);
    UsesAppend(first, rest, n);
    UsesAppend(ExpandMacros(world, defs, a, outer), first + rest, n);
  }

  /** Every live name expands to something inert exactly when none lies on a cycle. */
  lemma {:induction false} InertIffAcyclic(world: World, defs: Defines, live: set<string>)
    requires ValidTable(defs) && Closed(world, defs, live)
    ensures Acyclic(world, defs, live) <==>
            forall n, line | n in live :: Inert(defs, ExpandMacros(world, defs, [Ident(n, line)], File))
  {
    hide ExpandMacros, BodyOf;
    if Acyclic(world, defs, live) {
      forall n, line | n in live ensures Inert(defs, ExpandMacros(world, defs, [Ident(n, line)], File)) {
        AcyclicIsInert(world, defs, live, [Ident(n, line)]);
      }
    } else {
      var n :| n in live && OnCycle(world, defs, n);
      var p :| |p| >= 2 && p[0] == n && p[|p| - 1] == n && IsPath(world, defs, p);
      CycleIsLeft(world, defs, live, p, 0, Ident(n, 0), File);
      assert !Inert(defs, ExpandMacros(world, defs, [Ident(n, 0)], File));
    }
  }

  /** Without cycles nothing is left to expand. */
  lemma {:induction false} AcyclicIsInert(world: World, defs: Defines, live: set<string>, ts: seq<Token>)
    requires ValidTable(defs) && Closed(world, defs, live) && Acyclic(world, defs, live) && LiveAll(ts, live)
    ensures Inert(defs, ExpandMacros(world, defs, ts, File))
  {
    hide ExpandMacros, BodyOf;
    LeftoverOnCycle(world, defs, live, ts, File);
    LeftIsLive(world, defs, live, ts, File);
    var out := ExpandMacros(world, defs, ts, File);
    forall n | n in defs && Uses(out, n) ensures defs[n].body.CondOnly? {
      var i :| 0 <= i < |out| && out[i].Ident? && out[i].name == n;
    }
  }

  /** The output uses only live names. */
  lemma {:induction false} LeftIsLive(world: World, defs: Defines, live: set<string>, ts: seq<Token>, outer: Outer)
    requires ValidTable(defs) && Chain(outer, defs) && !FromCond(outer)
    requires Closed(world, defs, live) && LiveAll(ts, live)
    ensures LiveAll(ExpandMacros(world, defs, ts, outer), live)
    decreases Free(outer, defs), |ts|
  {
    hide ExpandMacros, BodyOf;
    if ts == [] {
      NothingExpands(world, defs, outer);
    } else {
      ExpandStep(world, defs, ts, outer);
      LeftIsLive(world, defs, live, ts[1..], outer);
      HeadIsLive(world, defs, live, ts[0], outer);
    }
  }

  lemma {:induction false} HeadIsLive(world: World, defs: Defines, live: set<string>, t: Token, outer: Outer)
    requires ValidTable(defs) && Chain(outer, defs) && !FromCond(outer)
    requires Closed(world, defs, live) && (t.Ident? ==> t.name in live)
    ensures LiveAll(ExpandMacros(world, defs, [t], outer), live)
    decreases Free(outer, defs), 0
  {
    hide ExpandMacros, BodyOf, Digits, Escaped;
    if !t.Ident? {
      OneExpands(world, defs, t, outer);
    } else {
      ExpandName(world, defs, t, outer);
      if t.name in defs && !IsExpanding(outer, t.name) && defs[t.name].body.Regular? {
        FreeShrinks(outer, defs, t.name, t.line);
        LeftIsLive(world, defs, live, BodyOf(world, defs, t.name), Within(t.name, t.line, outer));
      }
    }
  }

  /** What is inert stays as it is. */
  lemma {:induction false} InertStays(world: World, defs: Defines, ts: seq<Token>, outer: Outer)
    requires ValidTable(defs) && Chain(outer, defs) && !FromCond(outer) && Inert(defs, ts)
    ensures ExpandMacros(world, defs, ts, outer) == ts
    decreases |ts|
  {
    hide ExpandMacros, BodyOf;
    if ts == [] {
      NothingExpands(world, defs, outer);
    } else {
      assert ts == [ts[0]] + ts[1..];
      assert ts[0].Ident? ==> Uses(ts, ts[0].name);
      forall n | n in defs && Uses(ts[1..], n) ensures defs[n].body.CondOnly? { UsesAppend([ts[0]], ts[1..], n); }
      ExpandStep(world, defs, ts, outer);
      if ts[0].Ident? {
        ExpandName(world, defs, ts[0], outer);
      } else {
        OneExpands(world, defs, ts[0], outer);
      }
      InertStays(world, defs, ts[1..], outer);
    }
  }

  /** Without cycles expanding again changes nothing. */
  lemma {:induction false} AcyclicIsIdempotent(world: World, defs: Defines, live: set<string>, ts: seq<Token>)
    requires ValidTable(defs) && Closed(world, defs, live) && Acyclic(world, defs, live) && LiveAll(ts, live)
    ensures var once := ExpandMacros(world, defs, ts, File); ExpandMacros(world, defs, once, File) == once
  {
    AcyclicIsInert(world, defs, live, ts);
    InertStays(world, defs, ExpandMacros(world, defs, ts, File), File);
  }

  /** With a cycle it can: `A` defined as `A x` grows each time. */
  lemma {:induction false} CyclicGrows(world: World, x: Token)
    requires !x.Ident?
    ensures var defs := map["A" := Macro(None, Regular([Verbatim([Ident("A", 0), x])]))];
            && ValidTable(defs)
            && ExpandMacros(world, defs, [Ident("A", 0)], File) == [Ident("A", 0), x]
            && ExpandMacros(world, defs, [Ident("A", 0), x], File) == [Ident("A", 0), x, x]
  {
    var a := Ident("A", 0);
    var defs := map["A" := Macro(None, Regular([Verbatim([a, x])]))];
    assert BodyOf(world, defs, "A") == [a, x] by {
      var rs := [Verbatim([a, x])];
      assert rs[1..] == [] && Substituted(world, [], [], []) == [];
      assert Substituted(world, rs, [], []) == [a, x] + [];
    }
    hide ExpandMacros, BodyOf;
    var inner := Within("A", 0, File);
    assert [a, x][1..] == [x];
    OneExpands(world, defs, x, inner);
    OneExpands(world, defs, x, File);
    ExpandName(world, defs, a, inner);
    ExpandStep(world, defs, [a, x], inner);
    ExpandName(world, defs, a, File);
    ExpandStep(world, defs, [a, x], File);
  }

  // ---------- plain substitution ----------

  /** Replacing names by bodies again and again, `depth` deep, with nothing held back.
      `line` is where the substitution started, if it has. */
  function Naive(world: World, defs: Defines, ts: seq<Token>, depth: nat, line: Option<nat>): seq<Token>
    requires ValidTable(defs)
    decreases depth, |ts|
  {
    if ts == [] then []
    else
      var t := ts[0];
      (if !t.Ident? || t.name !in defs then [t]
       else
         var start := if line.Some? then line.value else t.line;
         match defs[t.name].body
         case BuiltinFile => [StringLiteral(world.file)]
         case BuiltinLine => [Literal(Digits(start))]
         case CondOnly(_) => [t]
         case Regular(_) => if depth == 0 then [t] else Naive(world, defs, BodyOf(world, defs, t.name), depth - 1, Some(start)))
      + Naive(world, defs, ts[1..], depth, line)
  }

  /** Without cycles the chain never holds anything back, and substitution to any depth
      from the number of macros on comes to the same. */
  lemma {:induction false} ExpandIsNaive(world: World, defs: Defines, live: set<string>, ts: seq<Token>, outer: Outer, depth: nat)
    requires ValidTable(defs) && Chain(outer, defs) && !FromCond(outer)
    requires Closed(world, defs, live) && From(world, defs, live, ts, outer)
    requires Acyclic(world, defs, live) && depth >= Free(outer, defs)
    ensures ExpandMacros(world, defs, ts, outer) == Naive(world, defs, ts, depth, OutermostLine(outer))
    decreases depth, |ts|
  {
    hide ExpandMacros, BodyOf, OnCycle, IsPath;
    if ts == [] {
      NothingExpands(world, defs, outer);
    } else {
      assert [ts[0]][0] == ts[0];
      ExpandStep(world, defs, ts, outer);
      ExpandIsNaive(world, defs, live, ts[1..], outer, depth);
      if ts[0].Ident? {
        NameIsNaive(world, defs, live, ts[0], outer, depth);
      } else {
        OneExpands(world, defs, ts[0], outer);
      }
    }
  }

  lemma {:induction false} NameIsNaive(world: World, defs: Defines, live: set<string>, t: Token, outer: Outer, depth: nat)
    requires ValidTable(defs) && Chain(outer, defs) && !FromCond(outer) && t.Ident?
    requires Closed(world, defs, live) && From(world, defs, live, [t], outer)
    requires Acyclic(world, defs, live) && depth >= Free(outer, defs)
    ensures t.name !in defs ==> ExpandMacros(world, defs, [t], outer) == [t]
    ensures t.name in defs ==>
              var start := if OutermostLine(outer).Some? then OutermostLine(outer).value else t.line;
              ExpandMacros(world, defs, [t], outer) ==
                match defs[t.name].body
                case BuiltinFile => [StringLiteral(world.file)]
                case BuiltinLine => [Literal(Digits(start))]
                case CondOnly(_) => [t]
                case Regular(_) =>
                  if depth == 0 then [t] else Naive(world, defs, BodyOf(world, defs, t.name), depth - 1, Some(start))
    decreases depth, 0
  {
    hide ExpandMacros, BodyOf, IsPath, OnCycle, Free, StringLiteral, Digits, Naive;
    assert [t][0] == t;
    ExpandName(world, defs, t, outer);
    if t.name in defs {
      NotExpanding(world, defs, live, t, outer);
      if defs[t.name].body.Regular? {
        FreeShrinks(outer, defs, t.name, t.line);
        FromStep(world, defs, live, t, outer);
        var inner := Within(t.name, t.line, outer);
        ExpandIsNaive(world, defs, live, BodyOf(world, defs, t.name), inner, depth - 1);
      }
    }
  }

  lemma {:induction false} NotExpanding(world: World, defs: Defines, live: set<string>, t: Token, outer: Outer)
    requires ValidTable(defs) && t.Ident? && From(world, defs, live, [t], outer) && Acyclic(world, defs, live)
    ensures !IsExpanding(outer, t.name)
  {
    hide BodyOf, IsPath;
    assert [t][0] == t;
    if IsExpanding(outer, t.name) {
      CycleFound(world, defs, outer, t.name);
      assert false;
    }
  }

  lemma {:induction false} AcyclicIsNaive(world: World, defs: Defines, live: set<string>, ts: seq<Token>, depth: nat)
    requires ValidTable(defs) && Closed(world, defs, live) && Acyclic(world, defs, live) && LiveAll(ts, live)
    requires depth >= |defs|
    ensures ExpandMacros(world, defs, ts, File) == Naive(world, defs, ts, depth, None)
  {
    assert defs.Keys - Names(File) == defs.Keys;
    ExpandIsNaive(world, defs, live, ts, File, depth);
  }

  /** The table a preprocessor starts with: two built-in macros and the questions. */
  const SEEDED: Defines := map[
    "__FILE__" := Macro(None, BuiltinFile), "__LINE__" := Macro(None, BuiltinLine),
    "__has_attribute" := Macro(Some((1, false)), CondOnly(HasAttribute)),
    "__has_builtin" := Macro(Some((1, false)), CondOnly(HasBuiltin)),
    "__has_cpp_attribute" := Macro(Some((1, false)), CondOnly(HasCppAttribute)),
    "__has_feature" := Macro(Some((1, false)), CondOnly(HasFeature)),
    "__has_include" := Macro(Some((1, false)), CondOnly(HasInclude)),
    "__has_include_next" := Macro(Some((1, false)), CondOnly(HasIncludeNext)),
    "__is_identifier" := Macro(Some((1, false)), CondOnly(IsIdentifier))]

  /** Nothing in it takes arguments or lies on a cycle, so every text may be read with it. */
  lemma {:induction false} SeededIsAcyclic(world: World, live: set<string>)
    ensures ValidTable(SEEDED) && Closed(world, SEEDED, live) && Acyclic(world, SEEDED, live)
  {
    assert Seeded(SEEDED);
    SeededAcyclic(world, SEEDED, live);
  }

  predicate Seeded(defs: Defines) {
    forall n :: n in defs ==> WellFormed(defs[n]) && Alone(defs[n]) && !defs[n].body.Regular?
  }

  lemma {:induction false} SeededAcyclic(world: World, defs: Defines, live: set<string>)
    requires Seeded(defs)
    ensures ValidTable(defs) && Closed(world, defs, live) && Acyclic(world, defs, live)
  {
    forall n | n in live ensures !OnCycle(world, defs, n) {
      if OnCycle(world, defs, n) {
        var p :| |p| >= 2 && p[0] == n && p[|p| - 1] == n && IsPath(world, defs, p);
        PathIsRegular(world, defs, p, 0);
      }
    }
  }

  // ---------- any table ----------

  function Depth(outer: Outer): nat {
    if outer.Within? then 1 + Depth(outer.outer) else 0
  }

  /** Expansions nest no deeper than there are macros: no name is on a chain twice. */
  lemma {:induction false} ChainIsShort(outer: Outer, defs: Defines)
    requires Chain(outer, defs)
    ensures Depth(outer) == |Names(outer)| <= |defs| && Names(outer) <= defs.Keys
    decreases outer
  {
    if outer.Within? {
      ChainIsShort(outer.outer, defs);
      assert outer.name !in Names(outer.outer);
    }
    SubsetIsSmaller(Names(outer), defs.Keys);
  }
}
