/** Macro expansion as functions of the tokens. */
module Expansion {
  import opened Wrappers
  import opened PpTokens
  import opened Macros

  type Defines = map<string, Macro>

  /** What expansion asks of the outside: the file's name, the `__has_...` questions
      (`None` when the argument is malformed), and the tokenizer `##` hands text to. */
  datatype World = World(file: string, ask: (Special, seq<Token>) -> Option<bool>, retokenize: string -> seq<Token>)

  /** The macros being expanded, innermost first, and where the tokens came from. */
  datatype Outer = File | Cond | Within(name: string, line: nat, outer: Outer)

  predicate IsExpanding(outer: Outer, name: string) {
    outer.Within? && (outer.name == name || IsExpanding(outer.outer, name))
  }

  predicate FromCond(outer: Outer) {
    outer.Cond? || (outer.Within? && FromCond(outer.outer))
  }

  function OutermostLine(outer: Outer): Option<nat> {
    if !outer.Within? then None
    else if OutermostLine(outer.outer).Some? then OutermostLine(outer.outer)
    else Some(outer.line)
  }

  function Names(outer: Outer): (ns: set<string>)
    ensures forall n :: n in ns <==> IsExpanding(outer, n)
  {
    if outer.Within? then {outer.name} + Names(outer.outer) else {}
  }

  /** The macros on a chain are defined, and none is on it twice. */
  predicate Chain(outer: Outer, defs: Defines) {
    outer.Within? ==> outer.name in defs && !IsExpanding(outer.outer, outer.name) && Chain(outer.outer, defs)
  }

  predicate ValidTable(defs: Defines) {
    forall n :: n in defs ==> WellFormed(defs[n])
  }

  /** How many macros a chain can still take. */
  function Free(outer: Outer, defs: Defines): nat {
    |defs.Keys - Names(outer)|
  }

  lemma {:induction false} FreeShrinks(outer: Outer, defs: Defines, name: string, line: nat)
    requires name in defs && !IsExpanding(outer, name)
    ensures Free(Within(name, line, outer), defs) < Free(outer, defs)
  {
    var left := defs.Keys - Names(outer);
    assert defs.Keys - Names(Within(name, line, outer)) == left - {name};
    assert name in left;
  }

  // ---------- arguments ----------

  predicate Blank(t: Token) {
    t == Whitespace || t == Newline
  }

  function SkipBlank(ts: seq<Token>): (r: seq<Token>)
    ensures |r| <= |ts| && (r != [] ==> !Blank(r[0]))
  {
    if ts != [] && Blank(ts[0]) then SkipBlank(ts[1..]) else ts
  }

  function TrimEnd(ts: seq<Token>): (r: seq<Token>)
    ensures |r| <= |ts| && r == ts[..|r|] && (r != [] ==> !Blank(r[|r| - 1]))
  {
    if ts != [] && Blank(ts[|ts| - 1]) then TrimEnd(ts[..|ts| - 1]) else ts
  }

  /** The end of an argument: how many tokens it has, and whether a parenthesis closes
      it. A comma ends it only outside parentheses, and not at all in the variadic
      argument. */
  function ScanArg(ts: seq<Token>, depth: nat, anyComma: bool): (r: Option<(nat, bool)>)
    ensures r.Some? ==> r.value.0 < |ts| && ts[r.value.0] == Punct(if r.value.1 then ')' else ',')
  {
    if ts == [] then None
    else if depth == 0 && ts[0] == Punct(')') then Some((0, true))
    else if depth == 0 && ts[0] == Punct(',') && !anyComma then Some((0, false))
    else
      var inner := if ts[0] == Punct('(') then depth + 1 else if ts[0] == Punct(')') then depth - 1 else depth;
      match ScanArg(ts[1..], inner, anyComma)
      case None => None
      case Some((n, closing)) => Some((n + 1, closing))
  }

  type Args = seq<seq<Token>>

  predicate Short(args: Args, limit: nat) {
    forall i :: 0 <= i < |args| ==> |args[i]| < limit
  }

  /** The arguments after the opening parenthesis. */
  function MoreArgs(params: (nat, bool), done: Args, ts: seq<Token>): (r: Option<(Args, seq<Token>)>)
    ensures r.Some? ==> |r.value.0| == ArgCount(Some(params)) && |r.value.1| < |ts|
    ensures r.Some? ==> forall limit :: |ts| < limit && Short(done, limit) ==> Short(r.value.0, limit)
    decreases |ts|
  {
    var (count, variadic) := params;
    var expected := ArgCount(Some(params));
    var t0 := SkipBlank(ts);
    if expected == 0 then
      var (close, t1) := Eat(t0, Punct(')'));
      if close then Some(([], t1)) else None
    else
      match ScanArg(t0, 0, variadic && |done| == count)
      case None => None
      case Some((n, closing)) =>
        var args := done + [TrimEnd(t0[..n])];
        var t1 := t0[n + 1..];
        if closing then
          var all := if variadic && |args| == count then args + [[]] else args;
          if |all| == expected then Some((all, t1)) else None
        else if |args| == expected then None
        else MoreArgs(params, args, t1)
  }

  function CollectArgs(params: (nat, bool), ts: seq<Token>): (r: Option<(Args, seq<Token>)>)
    ensures r.Some? ==> |r.value.0| == ArgCount(Some(params)) && |r.value.1| < |ts| && Short(r.value.0, |ts|)
  {
    var (open, t1) := Eat(SkipBlank(ts), Punct('('));
    if !open then None else MoreArgs(params, [], t1)
  }

  function ArgsOf(m: Macro, ts: seq<Token>): (r: Option<(Args, seq<Token>)>)
    ensures r.Some? ==> |r.value.0| == ArgCount(m.params) && |r.value.1| <= |ts| && Short(r.value.0, |ts|)
  {
    if m.params.None? then Some(([], ts)) else CollectArgs(m.params.value, ts)
  }

  // ---------- substitution ----------

  function Show(t: Token): string {
    match t
    case Newline => "\n"
    case Whitespace => " "
    case Punct(c) => [c]
    case Error(c) => [c]
    case Ident(name, _) => name
    case Literal(text) => text
  }

  function Digits(n: nat): string {
    if n < 10 then [(n + '0' as int) as char] else Digits(n / 10) + [(n % 10 + '0' as int) as char]
  }

  function Escaped(s: string): string {
    if s == "" then ""
    else (if s[0] == '\\' || s[0] == '"' then ['\\', s[0]] else [s[0]]) + Escaped(s[1..])
  }

  function StringLiteral(s: string): Token {
    Literal("\"" + Escaped(s) + "\"")
  }

  /** Blanks become spaces, and a space after a space goes. */
  function Text(done: string, arg: seq<Token>): string
    decreases |arg|
  {
    if arg == [] then done
    else if !Blank(arg[0]) then Text(done + Show(arg[0]), arg[1..])
    else Text(if done != "" && done[|done| - 1] == ' ' then done else done + " ", arg[1..])
  }

  function Stringified(arg: seq<Token>): Token {
    StringLiteral(Text("", arg))
  }

  function Flattened(ts: seq<Token>): (r: seq<Token>)
    ensures |r| == |ts|
  {
    seq(|ts|, i requires 0 <= i < |ts| => if ts[i] == Newline then Whitespace else ts[i])
  }

  /** Of adjacent spaces only the first stays. */
  function Dedup(ts: seq<Token>): seq<Token>
    decreases |ts|
  {
    if |ts| < 2 then ts
    else if ts[0] == Whitespace && ts[1] == Whitespace then Dedup([ts[0]] + ts[2..])
    else [ts[0]] + Dedup(ts[1..])
  }

  /** Joins two tokens. Anything but two names is tokenized again; all but the last of
      what comes out is finished. */
  function Paste(world: World, lhs: Option<Token>, rhs: Option<Token>): (seq<Token>, Option<Token>) {
    if lhs.None? then ([], rhs)
    else if rhs.None? then ([], lhs)
    else if lhs.value.Ident? && rhs.value.Ident? then
      ([], Some(Ident(lhs.value.name + rhs.value.name, lhs.value.line)))
    else
      var ts := world.retokenize(Show(lhs.value) + Show(rhs.value));
      if ts == [] then ([], None) else (ts[..|ts| - 1], Some(ts[|ts| - 1]))
  }

  function ConcatFirst(part: ConcatPart, args: Args): (seq<Token>, Option<Token>)
    requires part.ParamPart? ==> part.i < |args|
  {
    match part
    case TokenPart(t) => ([], Some(t))
    case ParamPart(Stringify, i) => ([], Some(Stringified(args[i])))
    case ParamPart(Normal, i) =>
      var n := |args[i]|;
      if n == 0 then ([], None) else (args[i][..n - 1], Some(args[i][n - 1]))
  }

  function ConcatRest(world: World, parts: seq<ConcatPart>, args: Args, out: seq<Token>, tok: Option<Token>): seq<Token>
    requires Sound(Concat(parts), |args|)
    decreases |parts|
  {
    if parts == [] then out + Slot(tok)
    else
      var rhs := match parts[0] {
        case TokenPart(t) => Some(t)
        case ParamPart(Stringify, i) => Some(Stringified(args[i]))
        case ParamPart(Normal, i) => if args[i] == [] then None else Some(args[i][0])
      };
      var (more, joined) := Paste(world, tok, rhs);
      if parts[0].ParamPart? && parts[0].mode == Normal && |args[parts[0].i]| >= 2 then
        var arg := args[parts[0].i];
        var n := |arg|;
        ConcatRest(world, parts[1..], args, out + more + Slot(joined) + arg[1..n - 1], Some(arg[n - 1]))
      else ConcatRest(world, parts[1..], args, out + more, joined)
  }

  function Slot(t: Option<Token>): seq<Token> {
    if t.Some? then [t.value] else []
  }

  /** The body with the arguments in it; `expanded` is the arguments after expansion. */
  function Substituted(world: World, rs: seq<Replacement>, args: Args, expanded: Args): seq<Token>
    requires AllSound(rs, |args|) && |expanded| == |args|
  {
    if rs == [] then []
    else
      (match rs[0]
       case Verbatim(ts) => ts
       case Param(Normal, i) => Dedup(Flattened(expanded[i]))
       case Param(Stringify, i) => [Stringified(args[i])]
       case Concat(parts) =>
         if parts == [] then []
         else
           var (out, tok) := ConcatFirst(parts[0], args);
           ConcatRest(world, parts[1..], args, out, tok))
      + Substituted(world, rs[1..], args, expanded)
  }

  // ---------- expansion ----------

  /** The name `defined` asks about: `X` or `(X)`. */
  function DefinedArg(ts: seq<Token>): (r: Option<(string, seq<Token>)>)
    ensures r.Some? ==> |r.value.1| < |ts|
  {
    var t1 := SkipSpace(ts);
    if t1 == [] then None
    else if t1[0].Ident? then Some((t1[0].name, t1[1..]))
    else if t1[0] != Punct('(') then None
    else
      var t2 := SkipSpace(t1[1..]);
      if t2 == [] || !t2[0].Ident? then None
      else
        var (close, t3) := Eat(SkipSpace(t2[1..]), Punct(')'));
        if close then Some((t2[0].name, t3)) else None
  }

  function Bit(b: bool): Token {
    Literal(if b then "1" else "0")
  }

  function ExpandMacros(world: World, defs: Defines, ts: seq<Token>, outer: Outer): seq<Token>
    requires ValidTable(defs) && Chain(outer, defs)
    decreases Free(outer, defs), |ts|, 0
  {
    if ts == [] then []
    else if !ts[0].Ident? then [ts[0]] + ExpandMacros(world, defs, ts[1..], outer)
    else
      var name := ts[0].name;
      if name == "defined" && FromCond(outer) && DefinedArg(ts[1..]).Some? then
        var (arg, rest) := DefinedArg(ts[1..]).value;
        [Bit(arg in defs)] + ExpandMacros(world, defs, rest, outer)
      else if name !in defs then [ts[0]] + ExpandMacros(world, defs, ts[1..], outer)
      else
        match TryExpand(world, defs, ts[0], outer, ts[1..])
        case Some((out, rest)) => out + ExpandMacros(world, defs, rest, outer)
        case None => [ts[0]] + ExpandMacros(world, defs, ts[1..], outer)
  }

  /** One use of the macro `id` names. A use that fails consumes nothing. */
  function TryExpand(world: World, defs: Defines, id: Token, outer: Outer, ts: seq<Token>):
      (r: Option<(seq<Token>, seq<Token>)>)
    requires ValidTable(defs) && Chain(outer, defs) && id.Ident? && id.name in defs
    ensures r.Some? ==> |r.value.1| <= |ts| && !IsExpanding(outer, id.name)
    decreases Free(outer, defs), |ts|, 1
  {
    var m := defs[id.name];
    if IsExpanding(outer, id.name) then None
    else
      match ArgsOf(m, ts)
      case None => None
      case Some((args, rest)) =>
        match m.body
        case BuiltinFile => Some(([StringLiteral(world.file)], rest))
        case BuiltinLine =>
          var line := if OutermostLine(outer).Some? then OutermostLine(outer).value else id.line;
          Some(([Literal(Digits(line))], rest))
        case CondOnly(special) =>
          if !FromCond(outer) || world.ask(special, args[0]).None? then None
          else Some(([Bit(world.ask(special, args[0]).value)], rest))
        case Regular(rs) =>
          FreeShrinks(outer, defs, id.name, id.line);
          var inner := Within(id.name, id.line, outer);
          var expanded := ExpandArgs(world, defs, args, outer, |ts|);
          Some((ExpandMacros(world, defs, Substituted(world, rs, args, expanded), inner), rest))
  }

  /** The arguments, each expanded on the chain of the use itself. */
  function ExpandArgs(world: World, defs: Defines, args: Args, outer: Outer, limit: nat): (r: Args)
    requires ValidTable(defs) && Chain(outer, defs) && Short(args, limit)
    ensures |r| == |args|
    decreases Free(outer, defs), limit, 0, |args|
  {
    if args == [] then []
    else [ExpandMacros(world, defs, args[0], outer)] + ExpandArgs(world, defs, args[1..], outer, limit)
  }
}
