/** Definitions and calls: which tokens are a call, and what a body keeps of its text. */
module MacroTheorems {
  import opened Wrappers
  import opened PpTokens
  import opened Macros
  import opened Expansion

  // ---------- calls ----------

  predicate AllBlank(ts: seq<Token>) {
    forall i :: 0 <= i < |ts| ==> Blank(ts[i])
  }

  function Trim(ts: seq<Token>): seq<Token> {
    TrimEnd(SkipBlank(ts))
  }

  function Trims(raw: Args): (r: Args)
    ensures |r| == |raw|
  {
    if raw == [] then [] else [Trim(raw[0])] + Trims(raw[1..])
  }

  /** From `depth` parentheses deep, the tokens close every parenthesis they open and no
      other, and no comma stands outside parentheses unless any may. */
  predicate Contained(ts: seq<Token>, depth: nat, anyComma: bool) {
    if ts == [] then depth == 0
    else if ts[0] == Punct('(') then Contained(ts[1..], depth + 1, anyComma)
    else if ts[0] == Punct(')') then depth > 0 && Contained(ts[1..], depth - 1, anyComma)
    else (ts[0] == Punct(',') && depth == 0 ==> anyComma) && Contained(ts[1..], depth, anyComma)
  }

  /** Arguments as written, commas between them, then `)` and `rest`. */
  function SpellArgs(raw: Args, rest: seq<Token>): seq<Token>
    requires raw != []
  {
    if |raw| == 1 then raw[0] + ([Punct(')')] + rest) else raw[0] + ([Punct(',')] + SpellArgs(raw[1..], rest))
  }

  /** `raw`, written after `skip` other arguments, is what `args` was collected from:
      each argument trimmed, the variadic one empty if it is not there. */
  predicate Collected(params: (nat, bool), skip: nat, raw: Args, args: Args) {
    var (count, variadic) := params;
    && raw != []
    && (forall i :: 0 <= i < |raw| ==> Contained(raw[i], 0, variadic && skip + i == count))
    && args == Trims(raw) + (if variadic && skip + |raw| == count then [[]] else [])
    && skip + |args| == ArgCount(Some(params))
  }

  lemma {:induction false} ScanSound(ts: seq<Token>, depth: nat, anyComma: bool)
    requires ScanArg(ts, depth, anyComma).Some?
    ensures var (n, closing) := ScanArg(ts, depth, anyComma).value;
            Contained(ts[..n], depth, anyComma) && (!closing ==> !anyComma)
    decreases |ts|
  {
    var n := ScanArg(ts, depth, anyComma).value.0;
    if n > 0 {
      var inner := if ts[0] == Punct('(') then depth + 1 else if ts[0] == Punct(')') then depth - 1 else depth;
      ScanSound(ts[1..], inner, anyComma);
      assert ts[1..][..n - 1] == ts[..n][1..];
    }
  }

  lemma {:induction false} ScanComplete(arg: seq<Token>, depth: nat, anyComma: bool, after: seq<Token>)
    requires Contained(arg, depth, anyComma) && after != []
    requires after[0] == Punct(')') || (after[0] == Punct(',') && !anyComma)
    ensures ScanArg(arg + after, depth, anyComma) == Some((|arg|, after[0] == Punct(')')))
    decreases |arg|
  {
    if arg == [] {
      assert arg + after == after;
    } else {
      var inner := if arg[0] == Punct('(') then depth + 1 else if arg[0] == Punct(')') then depth - 1 else depth;
      ScanComplete(arg[1..], inner, anyComma, after);
      assert (arg + after)[1..] == arg[1..] + after;
    }
  }

  lemma {:induction false} SkipBlankIs(ts: seq<Token>)
    ensures var n := |ts| - |SkipBlank(ts)|; SkipBlank(ts) == ts[n..] && AllBlank(ts[..n])
    decreases |ts|
  {
    if ts != [] && Blank(ts[0]) {
      SkipBlankIs(ts[1..]);
      var n := |ts| - |SkipBlank(ts)|;
      assert ts[..n] == [ts[0]] + ts[1..][..n - 1];
    }
  }

  lemma {:induction false} SkipBlankAppend(a: seq<Token>, b: seq<Token>)
    requires b != [] ==> !Blank(b[0])
    ensures SkipBlank(a + b) == SkipBlank(a) + b
    decreases |a|
  {
    if a == [] {
      assert a + b == b;
    } else {
      assert (a + b)[1..] == a[1..] + b;
      SkipBlankAppend(a[1..], b);
    }
  }

  lemma {:induction false} BlanksSkipped(a: seq<Token>)
    requires AllBlank(a)
    ensures SkipBlank(a) == []
    decreases |a|
  {
    if a != [] {
      BlanksSkipped(a[1..]);
    }
  }

  /** Leading blanks do not matter to where an argument ends. */
  lemma {:induction false} ContainedSkip(ts: seq<Token>, anyComma: bool)
    ensures Contained(SkipBlank(ts), 0, anyComma) == Contained(ts, 0, anyComma)
    decreases |ts|
  {
    if ts != [] && Blank(ts[0]) {
      ContainedSkip(ts[1..], anyComma);
    }
  }

  /** The first argument of what is left, with the blanks before it. */
  lemma {:induction false} FirstRaw(ts: seq<Token>, n: nat) returns (raw: seq<Token>)
    requires n < |SkipBlank(ts)|
    ensures var t0 := SkipBlank(ts);
            ts == raw + t0[n..] && SkipBlank(raw) == t0[..n] && Trim(raw) == TrimEnd(t0[..n])
  {
    var t0 := SkipBlank(ts);
    var k := |ts| - |t0|;
    SkipBlankIs(ts);
    raw := ts[..k + n];
    assert raw == ts[..k] + t0[..n];
    SkipBlankAppend(ts[..k], t0[..n]);
    BlanksSkipped(ts[..k]);
    assert [] + t0[..n] == t0[..n];
  }

  lemma {:induction false} ArgsSound(params: (nat, bool), done: Args, ts: seq<Token>) returns (raw: Args)
    requires MoreArgs(params, done, ts).Some? && ArgCount(Some(params)) > 0
    ensures var (all, rest) := MoreArgs(params, done, ts).value;
            raw != [] && ts == SpellArgs(raw, rest) && done <= all && Collected(params, |done|, raw, all[|done|..])
    decreases |ts|
  {
    hide Contained, SkipBlank, TrimEnd, Trim, ScanArg, Plain;
    var (count, variadic) := params;
    var any := variadic && |done| == count;
    var t0 := SkipBlank(ts);
    var (n, closing) := ScanArg(t0, 0, any).value;
    var first := FirstRaw(ts, n);
    ScanSound(t0, 0, any);
    ContainedSkip(first, any);
    var t1 := t0[n + 1..];
    assert t0[n..] == [t0[n]] + t1;
    var (all, rest) := MoreArgs(params, done, ts).value;
    if closing {
      raw := [first];
      assert all[|done|..] == [Trim(first)] + (if variadic && |done| + 1 == count then [[]] else []);
    } else {
      var args := done + [Trim(first)];
      var more := ArgsSound(params, args, t1);
      raw := [first] + more;
      CollectedMore(params, |done|, first, more, all[|args|..]);
      assert all[|done|..] == [Trim(first)] + all[|args|..];
    }
  }

  lemma {:induction false} CollectedMore(params: (nat, bool), skip: nat, first: seq<Token>, more: Args, args: Args)
    requires Collected(params, skip + 1, more, args) && Contained(first, 0, params.1 && skip == params.0)
    ensures Collected(params, skip, [first] + more, [Trim(first)] + args)
  {
    var raw := [first] + more;
    assert raw[1..] == more;
    forall i | 0 <= i < |raw| ensures Contained(raw[i], 0, params.1 && skip + i == params.0) {
      if i > 0 {
        assert raw[i] == more[i - 1];
      }
    }
  }

  lemma {:induction false} ArgsComplete(params: (nat, bool), done: Args, raw: Args, args: Args, rest: seq<Token>)
    requires raw != [] && Collected(params, |done|, raw, args) && ArgCount(Some(params)) > 0
    ensures MoreArgs(params, done, SpellArgs(raw, rest)) == Some((done + args, rest))
    decreases |raw|
  {
    if |raw| == 1 {
      assert raw == [raw[0]] && Trims(raw) == [Trim(raw[0])] && Contained(raw[0], 0, params.1 && |done| == params.0);
      LastComplete(params, done, raw[0], args, rest);
    } else {
      FirstComplete(params, done, raw, rest);
      CollectedRest(params, |done|, raw, args);
      ArgsComplete(params, done + [Trim(raw[0])], raw[1..], args[1..], rest);
      OneOver(done, args);
    }
  }

  lemma {:induction false} LastComplete(params: (nat, bool), done: Args, first: seq<Token>, args: Args, rest: seq<Token>)
    requires ArgCount(Some(params)) == |done| + |args| && Contained(first, 0, params.1 && |done| == params.0)
    requires args == [Trim(first)] + (if params.1 && |done| + 1 == params.0 then [[]] else [])
    ensures MoreArgs(params, done, first + ([Punct(')')] + rest)) == Some((done + args, rest))
  {
    hide *;
    var ts := first + ([Punct(')')] + rest);
    FirstRead(ts, first, ')', rest, params.1 && |done| == params.0);
    OneMore(params, done, ts, |SkipBlank(first)|, true);
    LastOver(done, Trim(first), params.1 && |done| + 1 == params.0);
    TrimIs(first);
  }

  lemma {:induction false} TrimIs(ts: seq<Token>)
    ensures Trim(ts) == TrimEnd(SkipBlank(ts))
  {}

  lemma {:induction false} FirstComplete(params: (nat, bool), done: Args, raw: Args, rest: seq<Token>)
    requires |raw| > 1 && ArgCount(Some(params)) > |done| + 1
    requires Contained(raw[0], 0, params.1 && |done| == params.0) && !(params.1 && |done| == params.0)
    ensures MoreArgs(params, done, SpellArgs(raw, rest)) ==
            MoreArgs(params, done + [Trim(raw[0])], SpellArgs(raw[1..], rest))
  {
    hide Contained, SkipBlank, TrimEnd, ScanArg, MoreArgs;
    var ts := SpellArgs(raw, rest);
    FirstRead(ts, raw[0], ',', SpellArgs(raw[1..], rest), false);
    OneMore(params, done, ts, |SkipBlank(raw[0])|, false);
  }

  lemma {:induction false} LastOver(done: Args, last: seq<Token>, andEmpty: bool)
    ensures var args := done + [last];
            done + ([last] + (if andEmpty then [[]] else [])) == if andEmpty then args + [[]] else args
  {}

  lemma {:induction false} OneOver(done: Args, args: Args)
    requires args != []
    ensures done + [args[0]] + args[1..] == done + args
  {}

  lemma {:induction false} FirstRead(ts: seq<Token>, first: seq<Token>, c: char, tail: seq<Token>, any: bool)
    requires ts == first + ([Punct(c)] + tail) && Contained(first, 0, any) && (c == ')' || (c == ',' && !any))
    ensures var t0 := SkipBlank(ts); var n := |SkipBlank(first)|;
            ScanArg(t0, 0, any) == Some((n, c == ')')) && t0[..n] == SkipBlank(first) && t0[n + 1..] == tail
  {
    SkipBlankAppend(first, [Punct(c)] + tail);
    ContainedSkip(first, any);
    ScanComplete(SkipBlank(first), 0, any, [Punct(c)] + tail);
  }

  /** One argument of a call. */
  lemma {:induction false} OneMore(params: (nat, bool), done: Args, ts: seq<Token>, n: nat, closing: bool)
    requires ArgCount(Some(params)) > 0
    requires ScanArg(SkipBlank(ts), 0, params.1 && |done| == params.0) == Some((n, closing))
    ensures var t0 := SkipBlank(ts); var args := done + [TrimEnd(t0[..n])];
            var all := if params.1 && |args| == params.0 then args + [[]] else args;
            MoreArgs(params, done, ts) ==
            if closing then (if |all| == ArgCount(Some(params)) then Some((all, t0[n + 1..])) else None)
            else if |args| == ArgCount(Some(params)) then None
            else MoreArgs(params, args, t0[n + 1..])
  {}

  lemma {:induction false} CollectedRest(params: (nat, bool), skip: nat, raw: Args, args: Args)
    requires Collected(params, skip, raw, args) && |raw| > 1
    ensures args != [] && args[0] == Trim(raw[0]) && args == [args[0]] + args[1..]
    ensures Collected(params, skip + 1, raw[1..], args[1..])
  {
    var (count, variadic) := params;
    assert Trims(raw) == [Trim(raw[0])] + Trims(raw[1..]);
    assert args[1..] == Trims(raw[1..]) + (if variadic && skip + |raw| == count then [[]] else []);
    forall i | 0 <= i < |raw[1..]| ensures Contained(raw[1..][i], 0, variadic && skip + 1 + i == count) {
      assert Contained(raw[i + 1], 0, variadic && skip + (i + 1) == count);
    }
  }

  /** `ts` is a call, blanks allowed before it and around each argument, and `rest`. */
  predicate IsCall(params: (nat, bool), ts: seq<Token>, blanks: seq<Token>, raw: Args, args: Args, rest: seq<Token>) {
    && raw != [] && AllBlank(blanks) && ts == blanks + ([Punct('(')] + SpellArgs(raw, rest))
    && if ArgCount(Some(params)) == 0 then |raw| == 1 && AllBlank(raw[0]) && args == [] else Collected(params, 0, raw, args)
  }

  /** A macro takes exactly the calls with as many arguments as it has parameters. */
  lemma {:induction false} CallsAreTaken(params: (nat, bool), ts: seq<Token>, args: Args, rest: seq<Token>)
    ensures CollectArgs(params, ts) == Some((args, rest)) <==> exists blanks, raw :: IsCall(params, ts, blanks, raw, args, rest)
  {
    if CollectArgs(params, ts) == Some((args, rest)) {
      var blanks, raw := CallFound(params, ts);
    }
    if exists blanks, raw :: IsCall(params, ts, blanks, raw, args, rest) {
      var blanks, raw :| IsCall(params, ts, blanks, raw, args, rest);
      CallTaken(params, ts, blanks, raw, args, rest);
    }
  }

  lemma {:induction false} CallFound(params: (nat, bool), ts: seq<Token>) returns (blanks: seq<Token>, raw: Args)
    requires CollectArgs(params, ts).Some?
    ensures IsCall(params, ts, blanks, raw, CollectArgs(params, ts).value.0, CollectArgs(params, ts).value.1)
  {
    hide Contained, SkipBlank, TrimEnd, ScanArg, MoreArgs;
    SkipBlankIs(ts);
    var t0 := SkipBlank(ts);
    blanks := ts[..|ts| - |t0|];
    var t1 := t0[1..];
    assert ts == blanks + ([Punct('(')] + t1);
    if ArgCount(Some(params)) == 0 {
      var inside := EmptyCall(params, t1);
      raw := [inside];
    } else {
      raw := ArgsSound(params, [], t1);
      var all := MoreArgs(params, [], t1).value.0;
      assert all[0..] == all;
    }
  }

  lemma {:induction false} EmptyCall(params: (nat, bool), ts: seq<Token>) returns (blanks: seq<Token>)
    requires ArgCount(Some(params)) == 0 && MoreArgs(params, [], ts).Some?
    ensures AllBlank(blanks) && MoreArgs(params, [], ts).value.0 == []
    ensures ts == SpellArgs([blanks], MoreArgs(params, [], ts).value.1)
  {
    SkipBlankIs(ts);
    var t0 := SkipBlank(ts);
    blanks := ts[..|ts| - |t0|];
    assert t0 == [Punct(')')] + t0[1..];
  }

  lemma {:induction false} CallTaken(params: (nat, bool), ts: seq<Token>, blanks: seq<Token>, raw: Args, args: Args, rest: seq<Token>)
    requires IsCall(params, ts, blanks, raw, args, rest)
    ensures CollectArgs(params, ts) == Some((args, rest))
  {
    hide Contained, SkipBlank, TrimEnd, ScanArg;
    var t1 := SpellArgs(raw, rest);
    SkipBlankAppend(blanks, [Punct('(')] + t1);
    BlanksSkipped(blanks);
    assert SkipBlank(ts) == [Punct('(')] + t1 && ([Punct('(')] + t1)[1..] == t1;
    if ArgCount(Some(params)) == 0 {
      SkipBlankAppend(raw[0], [Punct(')')] + rest);
      BlanksSkipped(raw[0]);
      assert SkipBlank(t1) == [Punct(')')] + rest && ([Punct(')')] + rest)[1..] == rest;
    } else {
      ArgsComplete(params, [], raw, args, rest);
      assert [] + args == args;
    }
  }

  // ---------- bodies ----------

  function ParamName(p: Params, i: nat): string
    requires i < ArgCount(Counted(Some(p)))
  {
    if i < |p.names| then p.names[i] else "__VA_ARGS__"
  }

  /** The body's tokens with every name's line forgotten. */
  function Plain(ts: seq<Token>): (r: seq<Token>)
    ensures |r| == |ts|
  {
    seq(|ts|, i requires 0 <= i < |ts| => if ts[i].Ident? then Ident(ts[i].name, 0) else ts[i])
  }

  /** A body without `#` put back into tokens. */
  function Unparsed(params: Option<Params>, rs: seq<Replacement>): seq<Token>
    requires AllSound(rs, ArgCount(Counted(params)))
  {
    if rs == [] then []
    else
      Unparsed(params, rs[..|rs| - 1]) +
      match rs[|rs| - 1]
      case Verbatim(ts) => Plain(ts)
      case Param(_, i) => [Ident(ParamName(params.value, i), 0)]
      case Concat(_) => []
  }

  /** The body up to the verbatim run that is still growing. */
  function Finished(rs: seq<Replacement>): seq<Replacement> {
    if rs != [] && rs[|rs| - 1].Verbatim? then rs[..|rs| - 1] else rs
  }

  lemma {:induction false} PlainAppend(a: seq<Token>, b: seq<Token>)
    ensures Plain(a + b) == Plain(a) + Plain(b)
  {}

  lemma {:induction false} PlainSplit(start: seq<Token>, run: seq<Token>, t: Token, after: seq<Token>, before: seq<Token>)
    requires start == run + ([t] + after)
    ensures before + Plain(start) == before + Plain(run) + Plain([t]) + Plain(after)
  {
    PlainAppend(run, [t] + after);
    PlainAppend([t], after);
  }

  lemma {:induction false} BodyKeepsText(params: Option<Params>, rs: seq<Replacement>, start: seq<Token>, ts: seq<Token>)
    requires AllSound(rs, ArgCount(Counted(params)))
    requires |ts| <= |start| && ts == start[|start| - |ts|..] && Punct('#') !in start
    requires rs != [] && rs[|rs| - 1].Verbatim? ==>
               |ts| < |start| && rs[|rs| - 1].ts == start[..|start| - |ts| - 1]
    ensures Unparsed(params, ParseBody(params, rs, start, ts)) == Unparsed(params, Finished(rs)) + Plain(start)
    decreases |ts|
  {
    hide WithVerbatim, Unparsed, Plain, ParseBody, EatParam;
    var run := start[..|start| - |ts|];
    var rs1 := WithVerbatim(rs, run);
    assert start == run + ts;
    assert ts != [] ==> ts[0] in start;
    RunAdded(params, rs, run);
    BodyStep(params, rs, start, ts);
    if EatParam(params, ts).Some? {
      var (mode, i, t1) := EatParam(params, ts).value;
      ParamIs(params, ts);
      ParamAdded(params, rs1, mode, i, ts[0]);
      assert Punct('#') !in t1 && t1 == t1[|t1| - |t1|..] by {
        assert forall t :: t in t1 ==> t in start;
      }
      BodyKeepsText(params, rs1 + [Param(mode, i)], t1, t1);
      PlainSplit(start, run, ts[0], t1, Unparsed(params, Finished(rs)));
    } else if ts == [] {
      assert run == start;
    } else {
      BodyKeepsText(params, rs1, start, ts[1..]);
    }
  }

  lemma {:induction false} ParamAdded(params: Option<Params>, rs: seq<Replacement>, mode: ParamMode, i: nat, t: Token)
    requires AllSound(rs, ArgCount(Counted(params)))
    requires t.Ident? && ParamIndex(params, t.name) == Some(i)
    ensures var rs2 := rs + [Param(mode, i)];
            && AllSound(rs2, ArgCount(Counted(params))) && Finished(rs2) == rs2
            && Unparsed(params, rs2) == Unparsed(params, rs) + Plain([t])
  {
    assert (rs + [Param(mode, i)])[..|rs|] == rs;
  }

  /** One turn of the loop over a body, where no `#` stands. */
  lemma {:induction false} BodyStep(params: Option<Params>, rs: seq<Replacement>, start: seq<Token>, ts: seq<Token>)
    requires |ts| <= |start| && AllSound(rs, ArgCount(Counted(params))) && (ts != [] ==> ts[0] != Punct('#'))
    ensures var rs1 := WithVerbatim(rs, start[..|start| - |ts|]); var found := EatParam(params, ts);
            && AllSound(rs1, ArgCount(Counted(params)))
            && ParseBody(params, rs, start, ts) ==
               if found.Some? then
                 ParseBody(params, rs1 + [Param(found.value.0, found.value.1)], found.value.2, found.value.2)
               else if ts == [] then rs1 else ParseBody(params, rs1, start, ts[1..])
  {
    hide WithVerbatim, DropSpace, TakeLast, EatParam, ConcatRight, Plain, Unparsed;
    assert EatHashHash(ts).None?;
  }

  lemma {:induction false} ParamIs(params: Option<Params>, ts: seq<Token>)
    requires EatParam(params, ts).Some? && ts[0] != Punct('#')
    ensures var found := EatParam(params, ts).value;
            ts[0].Ident? && ParamIndex(params, ts[0].name) == Some(found.1) && ts == [ts[0]] + found.2
  {}

  lemma {:induction false} RunAdded(params: Option<Params>, rs: seq<Replacement>, run: seq<Token>)
    requires AllSound(rs, ArgCount(Counted(params)))
    requires rs != [] && rs[|rs| - 1].Verbatim? ==> run != []
    ensures var rs1 := WithVerbatim(rs, run);
            && Unparsed(params, rs1) == Unparsed(params, Finished(rs)) + Plain(run)
            && (run != [] ==> rs1 != [] && rs1[|rs1| - 1] == Verbatim(run))
            && (run == [] ==> rs1 == rs) && Finished(rs1) == Finished(rs)
  {
    var rs1 := WithVerbatim(rs, run);
    if run != [] {
      assert rs1 == Finished(rs) + [Verbatim(run)];
      assert rs1[..|rs1| - 1] == Finished(rs);
    } else {
      assert Plain(run) == [];
    }
  }

  /** A definition without `#` loses nothing: parameters aside, its body is its text. */
  lemma {:induction false} DefinitionKeepsText(ts: seq<Token>)
    requires Punct('#') !in ts
    ensures var params := ParseParams(ts);
            var names := if params.Some? then Some(params.value.0) else None;
            var body := SkipSpace(if params.Some? then params.value.1 else ts);
            ParseMacro(ts).params == Counted(names) &&
            Unparsed(names, ParseMacro(ts).body.replacements) == Plain(body)
  {
    var params := ParseParams(ts);
    var names := if params.Some? then Some(params.value.0) else None;
    var body := SkipSpace(if params.Some? then params.value.1 else ts);
    ParamsAreSuffix(ts);
    BodyKeepsText(names, [], body, body);
    assert [] + Plain(body) == Plain(body);
  }

  lemma {:induction false} NamesAreSuffix(names: seq<string>, ts: seq<Token>)
    requires Distinct(names) && ParseNames(names, ts).Some?
    ensures forall t :: t in ParseNames(names, ts).value.1 ==> t in ts
    decreases |ts|
  {
    if ts != [] && ts[0].Ident? {
      var (comma, t1) := Eat(SkipSpace(ts[1..]), Punct(','));
      if comma {
        NamesAreSuffix(names + [ts[0].name], SkipSpace(t1));
      }
    }
  }

  lemma {:induction false} ParamsAreSuffix(ts: seq<Token>)
    ensures ParseParams(ts).Some? ==> forall t :: t in ParseParams(ts).value.1 ==> t in ts
  {
    if ParseParams(ts).Some? {
      var t0 := SkipSpace(ts[1..]);
      NamesAreSuffix([], t0);
      var t1 := ParseNames([], t0).value.1;
      assert forall t :: t in ParseParams(ts).value.1 ==> t in t1;
    }
  }

  // ---------- string literals ----------

  /** A string literal's text read back: a backslash takes the next character as it is. */
  function Unescaped(s: string): string {
    if s == "" then ""
    else if s[0] == '\\' && |s| > 1 then [s[1]] + Unescaped(s[2..])
    else [s[0]] + Unescaped(s[1..])
  }

  /** `#` loses nothing of the text it quotes. */
  lemma {:induction false} EscapedReadsBack(s: string)
    ensures Unescaped(Escaped(s)) == s
    decreases |s|
  {
    if s != "" {
      var more := Escaped(s[1..]);
      EscapedReadsBack(s[1..]);
      if s[0] == '\\' || s[0] == '"' {
        assert (['\\', s[0]] + more)[2..] == more;
      } else {
        assert ([s[0]] + more)[1..] == more;
      }
      assert s == [s[0]] + s[1..];
    }
  }
}
