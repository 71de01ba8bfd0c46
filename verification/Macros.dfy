/** Macro definitions: how a `#define` is read. */
module Macros {
  import opened Wrappers
  import opened PpTokens

  datatype ParamMode = Normal | Stringify

  datatype ConcatPart = TokenPart(t: Token) | ParamPart(mode: ParamMode, i: nat)

  datatype Replacement = Verbatim(ts: seq<Token>) | Param(mode: ParamMode, i: nat) | Concat(parts: seq<ConcatPart>)

  datatype Special = HasAttribute | HasBuiltin | HasCppAttribute | HasFeature | HasInclude | HasIncludeNext | IsIdentifier

  datatype Body = BuiltinFile | BuiltinLine | CondOnly(special: Special) | Regular(replacements: seq<Replacement>)

  /** `params` is how many parameters there are and whether `...` follows them. */
  datatype Macro = Macro(params: Option<(nat, bool)>, body: Body)

  function ArgCount(params: Option<(nat, bool)>): nat {
    match params
    case None => 0
    case Some((count, variadic)) => count + if variadic then 1 else 0
  }

  /** No use of the macro can index past its arguments or take the end of nothing. */
  predicate WellFormed(m: Macro) {
    match m.body
    case CondOnly(_) => m.params == Some((1, false))
    case Regular(rs) => forall i :: 0 <= i < |rs| ==> Sound(rs[i], ArgCount(m.params))
    case _ => true
  }

  predicate Sound(r: Replacement, args: nat) {
    match r
    case Verbatim(ts) => ts != []
    case Param(_, i) => i < args
    case Concat(parts) => forall j :: 0 <= j < |parts| ==> parts[j].ParamPart? ==> parts[j].i < args
  }

  predicate AllSound(rs: seq<Replacement>, args: nat) {
    forall i :: 0 <= i < |rs| ==> Sound(rs[i], args)
  }

  // ---------- eating ----------

  function Eat(ts: seq<Token>, t: Token): (r: (bool, seq<Token>))
    ensures |r.1| <= |ts| && (r.0 ==> |r.1| < |ts|)
  {
    if ts != [] && ts[0] == t then (true, ts[1..]) else (false, ts)
  }

  function SkipSpace(ts: seq<Token>): (r: seq<Token>)
    ensures |r| <= |ts|
  {
    Eat(ts, Whitespace).1
  }

  // ---------- parameters ----------

  datatype Params = Params(names: seq<string>, variadic: bool)

  predicate Distinct(names: seq<string>) {
    forall i, j :: 0 <= i < j < |names| ==> names[i] != names[j]
  }

  /** The names up to the first that is not followed by a comma; `None` when one comes
      twice. */
  function ParseNames(names: seq<string>, ts: seq<Token>): (r: Option<(seq<string>, seq<Token>)>)
    requires Distinct(names)
    ensures r.Some? ==> Distinct(r.value.0) && |r.value.1| <= |ts|
    decreases |ts|
  {
    if ts == [] || !ts[0].Ident? then Some((names, ts))
    else if ts[0].name in names then None
    else
      var more := names + [ts[0].name];
      var (comma, t1) := Eat(SkipSpace(ts[1..]), Punct(','));
      if comma then ParseNames(more, SkipSpace(t1)) else Some((more, t1))
  }

  function ParseParams(ts: seq<Token>): (r: Option<(Params, seq<Token>)>)
    ensures r.Some? ==> Distinct(r.value.0.names) && |r.value.1| < |ts|
  {
    var (open, t0) := Eat(ts, Punct('('));
    if !open then None
    else
      match ParseNames([], SkipSpace(t0))
      case None => None
      case Some((names, t1)) =>
        var (dot, t2) := Eat(t1, Punct('.'));
        var (dot2, t3) := Eat(t2, Punct('.'));
        var (dot3, t4) := Eat(t3, Punct('.'));
        if dot && !(dot2 && dot3) then None
        else
          var (close, t5) := Eat(if dot then SkipSpace(t4) else t2, Punct(')'));
          if close then Some((Params(names, dot), t5)) else None
  }

  function IndexIn(names: seq<string>, name: string): (r: Option<nat>)
    ensures match r
            case Some(i) => i < |names| && names[i] == name
            case None => name !in names
  {
    if names == [] then None
    else if names[0] == name then Some(0)
    else
      match IndexIn(names[1..], name)
      case None => None
      case Some(i) => Some(i + 1)
  }

  function ParamIndex(params: Option<Params>, name: string): (r: Option<nat>)
    ensures r.Some? ==> r.value < ArgCount(Counted(params))
  {
    match params
    case None => None
    case Some(p) => if p.variadic && name == "__VA_ARGS__" then Some(|p.names|) else IndexIn(p.names, name)
  }

  function Counted(params: Option<Params>): Option<(nat, bool)> {
    if params.Some? then Some((|params.value.names|, params.value.variadic)) else None
  }

  // ---------- the body ----------

  /** What the tokens since `start` add to the body: the run of verbatim tokens so far. */
  function WithVerbatim(rs: seq<Replacement>, run: seq<Token>): (r: seq<Replacement>)
    ensures forall args :: AllSound(rs, args) ==> AllSound(r, args)
  {
    if run == [] then rs
    else if rs != [] && rs[|rs| - 1].Verbatim? then rs[..|rs| - 1] + [Verbatim(run)]
    else rs + [Verbatim(run)]
  }

  /** A space before `##` goes. */
  function DropSpace(rs: seq<Replacement>): (r: seq<Replacement>)
    ensures forall args :: AllSound(rs, args) ==> AllSound(r, args)
  {
    var n := |rs|;
    if n > 0 && rs[n - 1].Verbatim? && rs[n - 1].ts != [] && rs[n - 1].ts[|rs[n - 1].ts| - 1] == Whitespace then
      var ts := rs[n - 1].ts;
      if |ts| == 1 then rs[..n - 1] else rs[..n - 1] + [Verbatim(ts[..|ts| - 1])]
    else rs
  }

  /** What stands to the left of `##`, taken off the body. */
  function TakeLast(rs: seq<Replacement>): (r: (seq<Replacement>, seq<ConcatPart>))
    requires forall i :: 0 <= i < |rs| ==> rs[i].Verbatim? ==> rs[i].ts != []
    ensures forall args :: AllSound(rs, args) ==> AllSound(r.0, args) && Sound(Concat(r.1), args)
  {
    if rs == [] then ([], [])
    else
      var init := rs[..|rs| - 1];
      match rs[|rs| - 1]
      case Verbatim(ts) =>
        var n := |ts| - 1;
        (if n == 0 then init else init + [Verbatim(ts[..n])], [TokenPart(ts[n])])
      case Param(mode, i) => (init, [ParamPart(mode, i)])
      case Concat(parts) => (init, parts)
  }

  /** A parameter, or `#` and a parameter. */
  function EatParam(params: Option<Params>, ts: seq<Token>): (r: Option<(ParamMode, nat, seq<Token>)>)
    ensures r.Some? ==> r.value.1 < ArgCount(Counted(params)) && |r.value.2| < |ts|
  {
    var (hash, t0) := Eat(ts, Punct('#'));
    var t1 := if hash then SkipSpace(t0) else ts;
    if t1 == [] || !t1[0].Ident? || ParamIndex(params, t1[0].name).None? then None
    else Some((if hash then Stringify else Normal, ParamIndex(params, t1[0].name).value, t1[1..]))
  }

  function EatHashHash(ts: seq<Token>): (r: Option<seq<Token>>)
    ensures r.Some? ==> |r.value| < |ts|
  {
    var (hash, t0) := Eat(ts, Punct('#'));
    var (hash2, t1) := Eat(t0, Punct('#'));
    if hash && hash2 then Some(SkipSpace(t1)) else None
  }

  /** The body from `ts` on; `start` is where the current verbatim run began. */
  function ParseBody(params: Option<Params>, rs: seq<Replacement>, start: seq<Token>, ts: seq<Token>): (r: seq<Replacement>)
    requires |ts| <= |start| && AllSound(rs, ArgCount(Counted(params)))
    ensures AllSound(r, ArgCount(Counted(params)))
    decreases |ts|
  {
    var rs1 := WithVerbatim(rs, start[..|start| - |ts|]);
    match EatHashHash(ts)
    case Some(t1) =>
      var (init, parts) := TakeLast(DropSpace(rs1));
      var (part, t2) := ConcatRight(params, t1);
      assert Sound(Concat(parts + part), ArgCount(Counted(params)));
      ParseBody(params, init + [Concat(parts + part)], t2, t2)
    case None =>
      match EatParam(params, ts)
      case Some((mode, i, t1)) => ParseBody(params, rs1 + [Param(mode, i)], t1, t1)
      case None => if ts == [] then rs1 else ParseBody(params, rs1, start, ts[1..])
  }

  /** What stands to the right of `##`: a parameter, any other token, or nothing. */
  function ConcatRight(params: Option<Params>, ts: seq<Token>): (r: (seq<ConcatPart>, seq<Token>))
    ensures |r.1| <= |ts|
    ensures Sound(Concat(r.0), ArgCount(Counted(params)))
  {
    match EatParam(params, ts)
    case Some((mode, i, t1)) => ([ParamPart(mode, i)], t1)
    case None => if ts == [] then ([], []) else ([TokenPart(ts[0])], ts[1..])
  }

  /** The definition after the macro's name. */
  function ParseMacro(ts: seq<Token>): (m: Macro)
    ensures WellFormed(m)
  {
    var params := ParseParams(ts);
    var body := SkipSpace(if params.Some? then params.value.1 else ts);
    var names := if params.Some? then Some(params.value.0) else None;
    Macro(Counted(names), Regular(ParseBody(names, [], body, body)))
  }
}
