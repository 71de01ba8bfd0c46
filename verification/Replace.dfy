/** The other macro engine: a worklist of pending tokens and one set of the names that
    have been replaced in this call. */
module Replacement {
  import opened Wrappers
  import opened FiniteSets

  /** `Quoted` is what `#` makes of an argument; `Error` is an error from the lexer or of
      the replacer itself. */
  datatype Tok =
    | Id(name: string) | LeftParen | RightParen | Comma | Hash | Space | Other(n: nat)
    | Quoted(text: seq<Tok>) | Error(n: nat)

  datatype Definition = Object(body: seq<Tok>) | Function(params: seq<string>, body: seq<Tok>)

  type Definitions = map<string, Definition>

  const TOO_FEW_ARGUMENTS: nat := 0
  const HASH_MISSING_PARAMETER: nat := 1

  // ---------- calls of function macros ----------

  datatype Found = NotACall(result: seq<Tok>, used: nat) | ACall(errors: seq<Tok>, used: nat)

  /** Whether a parenthesis follows the name; at most one space may stand before it. What
      has been read in vain is given back behind the name. */
  function FindCall(id: string, ts: seq<Tok>, errors: seq<Tok>): (r: Found)
    ensures r.used <= |ts|
    decreases |ts|
  {
    if ts == [] then NotACall(errors + [Id(id)], 0)
    else
      match ts[0]
      case Error(_) =>
        (match FindCall(id, ts[1..], errors + [ts[0]])
         case NotACall(result, used) => NotACall(result, used + 1)
         case ACall(errs, used) => ACall(errs, used + 1))
      case LeftParen => ACall(errors, 1)
      case Space => if |ts| > 1 && ts[1] == LeftParen then ACall(errors, 2) else NotACall(errors + [Id(id), Space], 1)
      case _ => NotACall(errors + [Id(id), ts[0]], 1)
  }

  /** A space at either end goes; a second one there is a failed assertion. */
  function Strip(arg: seq<Tok>): Option<seq<Tok>> {
    var a := if arg != [] && arg[|arg| - 1] == Space then arg[..|arg| - 1] else arg;
    if a != [] && a[|a| - 1] == Space then None
    else
      var b := if a != [] && a[0] == Space then a[1..] else a;
      if b != [] && b[0] == Space then None else Some(b)
  }

  datatype Taken = Unfinished(errors: seq<Tok>) | Args(args: seq<seq<Tok>>, errors: seq<Tok>, used: nat) | Failed

  function TakeArgs(ts: seq<Tok>, depth: nat, current: seq<Tok>, args: seq<seq<Tok>>, errors: seq<Tok>): (r: Taken)
    requires depth > 0
    ensures r.Args? ==> r.used <= |ts|
    decreases |ts|
  {
    if ts == [] then Unfinished(errors)
    else if ts[0].Error? then One(TakeArgs(ts[1..], depth, current, args, errors + [ts[0]]))
    else if ts[0] == Comma && depth == 1 then
      if Strip(current).None? then Failed
      else One(TakeArgs(ts[1..], depth, [], args + [Strip(current).value], errors))
    else if ts[0] == RightParen && depth == 1 then
      if Strip(current).None? then Failed else Args(args + [Strip(current).value], errors, 1)
    else
      var inner := if ts[0] == RightParen then depth - 1 else if ts[0] == LeftParen then depth + 1 else depth;
      One(TakeArgs(ts[1..], inner, current + [ts[0]], args, errors))
  }

  function One(r: Taken): Taken {
    if r.Args? then r.(used := r.used + 1) else r
  }

  function IndexOf(params: seq<string>, name: string): (r: Option<nat>)
    ensures r.Some? ==> r.value < |params|
  {
    if params == [] then None
    else if params[0] == name then Some(0)
    else if IndexOf(params[1..], name).None? then None
    else Some(IndexOf(params[1..], name).value + 1)
  }

  /** The body with the arguments in it; `None` when `#` stands before anything but a
      parameter. */
  function Substituted(params: seq<string>, body: seq<Tok>, args: seq<seq<Tok>>, hash: bool): Option<seq<Tok>>
    requires |params| <= |args|
    decreases |body|
  {
    if body == [] then Some([])
    else
      var t := body[0];
      if t.Id? && IndexOf(params, t.name).Some? then
        var arg := args[IndexOf(params, t.name).value];
        Prefixed(if hash then [Quoted(arg)] else arg, Substituted(params, body[1..], args, false))
      else if t == Hash then Substituted(params, body[1..], args, true)
      else if t == Space then Prefixed(if hash then [] else [Space], Substituted(params, body[1..], args, hash))
      else if hash then None
      else Prefixed([t], Substituted(params, body[1..], args, false))
  }

  function Prefixed(ts: seq<Tok>, r: Option<seq<Tok>>): Option<seq<Tok>> {
    if r.Some? then Some(ts + r.value) else None
  }

  datatype Called = Called(result: seq<Tok>, used: nat) | CallFailed

  /** What stands for `id` and how many of the tokens after it are used up. */
  function ReplaceFunction(id: string, params: seq<string>, body: seq<Tok>, ts: seq<Tok>): (r: Called)
    ensures r.Called? ==> r.used <= |ts|
  {
    match FindCall(id, ts, [])
    case NotACall(result, used) => Called(result, used)
    case ACall(errors, start) =>
      match TakeArgs(ts[start..], 1, [], [], errors)
      case Unfinished(errs) => Called(errs, |ts|)
      case Failed => CallFailed
      case Args(args, errs, used) =>
        if |args| != |params| && !(|args| == 1 && params == [] && args[0] == []) then
          Called([Error(TOO_FEW_ARGUMENTS)], start + used)
        else if Substituted(params, body, args, false).None? then Called([Error(HASH_MISSING_PARAMETER)], start + used)
        else Called(errs + Substituted(params, body, args, false).value, start + used)
  }

  // ---------- the worklist ----------

  /** The tokens that stand for the first one, what is left of the underlying stream, and
      the names replaced on the way. */
  datatype Outcome = Done(out: seq<Tok>, inner: seq<Tok>, replaced: seq<string>) | Panic

  function Distinct(names: seq<string>): bool {
    forall i, j :: 0 <= i < j < |names| ==> names[i] != names[j]
  }

  function NamesOf(names: seq<string>): set<string> {
    set n | n in names
  }

  function Free(defs: Definitions, replaced: seq<string>): nat {
    |defs.Keys - NamesOf(replaced)|
  }

  lemma {:induction false} FreeShrinks(defs: Definitions, replaced: seq<string>, name: string)
    requires name in defs && name !in replaced
    ensures Free(defs, replaced + [name]) < Free(defs, replaced)
  {
    var left := defs.Keys - NamesOf(replaced);
    assert defs.Keys - NamesOf(replaced + [name]) == left - {name};
    assert name in left;
  }

  /** `pending` comes before what is left of the underlying stream. No name is replaced
      twice, and a name in the output is no macro or has been replaced. */
  function Replace(defs: Definitions, pending: seq<Tok>, inner: seq<Tok>, replaced: seq<string>, out: seq<Tok>): (r: Outcome)
    requires Distinct(replaced) && NamesOf(replaced) <= defs.Keys
    requires forall t :: t in out && t.Id? ==> t.name !in defs || t.name in replaced
    ensures r.Done? ==> replaced <= r.replaced && Distinct(r.replaced) && NamesOf(r.replaced) <= defs.Keys
    ensures r.Done? ==> out <= r.out && forall t :: t in r.out && t.Id? ==> t.name !in defs || t.name in r.replaced
    decreases Free(defs, replaced), |pending|
  {
    if pending == [] then Done(out, inner, replaced)
    else
      var t, rest := pending[0], pending[1..];
      if t.Id? && t.name in defs && t.name !in replaced then
        FreeShrinks(defs, replaced, t.name);
        match defs[t.name]
        case Object(body) => Replace(defs, body + rest, inner, replaced + [t.name], out)
        case Function(params, body) =>
          match ReplaceFunction(t.name, params, body, rest + inner)
          case CallFailed => Panic
          case Called(result, used) =>
            Replace(defs, result + rest[Min(used, |rest|)..], inner[used - Min(used, |rest|)..], replaced + [t.name], out)
      else Replace(defs, rest, inner, replaced, out + [t])
  }

  function Min(a: nat, b: nat): nat {
    if a <= b then a else b
  }

  /** The replacement of one token. */
  function ReplaceToken(defs: Definitions, token: Tok, inner: seq<Tok>): (r: Outcome)
    ensures r.Done? ==> Distinct(r.replaced) && forall t :: t in r.out && t.Id? ==> t.name !in defs || t.name in r.replaced
  {
    Replace(defs, [token], inner, [], [])
  }

  // ---------- object macros ----------

  predicate ObjectsOnly(defs: Definitions) {
    forall n :: n in defs ==> defs[n].Object?
  }

  function BodiesLength(defs: Definitions, names: seq<string>): nat
    requires forall n :: n in names ==> n in defs
  {
    if names == [] then 0 else BodiesLength(defs, names[..|names| - 1]) + |defs[names[|names| - 1]].body|
  }

  /** Each replacement takes a name away and puts its body there, so that the length of
      the output is known from the names replaced. */
  lemma {:induction false} ObjectLength(defs: Definitions, pending: seq<Tok>, inner: seq<Tok>, replaced: seq<string>, out: seq<Tok>)
    requires ObjectsOnly(defs) && Distinct(replaced) && NamesOf(replaced) <= defs.Keys
    requires forall t :: t in out && t.Id? ==> t.name !in defs || t.name in replaced
    ensures var r := Replace(defs, pending, inner, replaced, out);
            && r.Done? && r.inner == inner && (forall n :: n in r.replaced ==> n in NamesOf(r.replaced))
            && |r.out| + |r.replaced| + BodiesLength(defs, replaced) ==
               |out| + |pending| + |replaced| + BodiesLength(defs, r.replaced)
    decreases Free(defs, replaced), |pending|
  {
    if pending != [] {
      var t, rest := pending[0], pending[1..];
      if t.Id? && t.name in defs && t.name !in replaced {
        FreeShrinks(defs, replaced, t.name);
        var more := replaced + [t.name];
        assert more[..|more| - 1] == replaced;
        ObjectLength(defs, defs[t.name].body + rest, inner, more, out);
      } else {
        ObjectLength(defs, rest, inner, replaced, out + [t]);
      }
    }
  }

  /** With object macros alone the output is one token and the bodies of the names
      replaced, less those names; the underlying stream is not touched. */
  lemma {:induction false} ObjectOutputLength(defs: Definitions, token: Tok, inner: seq<Tok>)
    requires ObjectsOnly(defs)
    ensures var r := ReplaceToken(defs, token, inner);
            && r.Done? && r.inner == inner && (forall n :: n in r.replaced ==> n in defs)
            && |r.out| + |r.replaced| == 1 + BodiesLength(defs, r.replaced) && |r.out| <= 1 + BodiesLength(defs, r.replaced)
  {
    ObjectLength(defs, [token], inner, [], []);
    var r := ReplaceToken(defs, token, inner);
    assert forall n :: n in r.replaced ==> n in NamesOf(r.replaced);
  }

  /** Depth first: a name's body is replaced to its end before what follows the name, and
      the names replaced in it stay as they are from then on. */
  function DepthFirst(defs: Definitions, ts: seq<Tok>, replaced: seq<string>): (r: (seq<Tok>, seq<string>))
    requires ObjectsOnly(defs)
    ensures replaced <= r.1
    decreases Free(defs, replaced), |ts|
  {
    if ts == [] then ([], replaced)
    else
      var t := ts[0];
      if t.Id? && t.name in defs && t.name !in replaced then
        FreeShrinks(defs, replaced, t.name);
        var (first, seen) := DepthFirst(defs, defs[t.name].body, replaced + [t.name]);
        FreeMonotone(defs, replaced + [t.name], seen);
        var (more, seen') := DepthFirst(defs, ts[1..], seen);
        (first + more, seen')
      else
        var (more, seen) := DepthFirst(defs, ts[1..], replaced);
        ([t] + more, seen)
  }

  lemma {:induction false} FreeMonotone(defs: Definitions, a: seq<string>, b: seq<string>)
    requires a <= b
    ensures Free(defs, b) <= Free(defs, a)
  {
    assert forall n :: n in a ==> n in b by { assert forall i :: 0 <= i < |a| ==> a[i] == b[i]; }
    SubsetIsSmaller(defs.Keys - NamesOf(b), defs.Keys - NamesOf(a));
  }

  lemma {:induction false} DepthFirstAppend(defs: Definitions, a: seq<Tok>, b: seq<Tok>, replaced: seq<string>)
    requires ObjectsOnly(defs)
    ensures var (first, seen) := DepthFirst(defs, a, replaced);
            var (more, seen') := DepthFirst(defs, b, seen);
            DepthFirst(defs, a + b, replaced) == (first + more, seen')
    decreases Free(defs, replaced), |a|
  {
    hide DepthFirst;
    if a == [] {
      assert a + b == b;
      DepthFirstNothing(defs, b, replaced);
    } else {
      var t := a[0];
      var tail := a[1..] + b;
      assert (a + b)[0] == t && (a + b)[1..] == tail;
      DepthFirstStep(defs, a, replaced);
      DepthFirstStep(defs, a + b, replaced);
      if Replaceable(defs, t, replaced) {
        FreeShrinks(defs, replaced, t.name);
        var (first, seen) := DepthFirst(defs, defs[t.name].body, replaced + [t.name]);
        FreeMonotone(defs, replaced + [t.name], seen);
        DepthFirstAppend(defs, a[1..], b, seen);
        Reassociate(first, DepthFirst(defs, a[1..], seen).0, DepthFirst(defs, b, DepthFirst(defs, a[1..], seen).1).0);
      } else {
        DepthFirstAppend(defs, a[1..], b, replaced);
        Reassociate([t], DepthFirst(defs, a[1..], replaced).0, DepthFirst(defs, b, DepthFirst(defs, a[1..], replaced).1).0);
      }
    }
  }

  lemma {:induction false} Reassociate(a: seq<Tok>, b: seq<Tok>, c: seq<Tok>)
    ensures a + (b + c) == a + b + c
  {}

  predicate Replaceable(defs: Definitions, t: Tok, replaced: seq<string>) {
    t.Id? && t.name in defs && t.name !in replaced
  }

  lemma {:induction false} DepthFirstNothing(defs: Definitions, b: seq<Tok>, replaced: seq<string>)
    requires ObjectsOnly(defs)
    ensures DepthFirst(defs, [], replaced) == ([], replaced) && [] + DepthFirst(defs, b, replaced).0 == DepthFirst(defs, b, replaced).0
  {}

  lemma {:induction false} DepthFirstStep(defs: Definitions, ts: seq<Tok>, replaced: seq<string>)
    requires ObjectsOnly(defs) && ts != []
    ensures DepthFirst(defs, ts, replaced) ==
            if Replaceable(defs, ts[0], replaced) then
              var (first, seen) := DepthFirst(defs, defs[ts[0].name].body, replaced + [ts[0].name]);
              var (more, seen') := DepthFirst(defs, ts[1..], seen);
              (first + more, seen')
            else
              var (more, seen) := DepthFirst(defs, ts[1..], replaced);
              ([ts[0]] + more, seen)
  {}

  /** The worklist does what the recursion says. */
  lemma {:induction false} WorklistIsDepthFirst(defs: Definitions, pending: seq<Tok>, inner: seq<Tok>, replaced: seq<string>, out: seq<Tok>)
    requires ObjectsOnly(defs) && Distinct(replaced) && NamesOf(replaced) <= defs.Keys
    requires forall t :: t in out && t.Id? ==> t.name !in defs || t.name in replaced
    ensures var (more, seen) := DepthFirst(defs, pending, replaced);
            Replace(defs, pending, inner, replaced, out) == Done(out + more, inner, seen)
    decreases Free(defs, replaced), |pending|
  {
    hide DepthFirst;
    if pending == [] {
      DepthFirstNothing(defs, [], replaced);
      assert out + [] == out;
    } else {
      var t, rest := pending[0], pending[1..];
      DepthFirstStep(defs, pending, replaced);
      if Replaceable(defs, t, replaced) {
        FreeShrinks(defs, replaced, t.name);
        var body := defs[t.name].body;
        WorklistIsDepthFirst(defs, body + rest, inner, replaced + [t.name], out);
        DepthFirstAppend(defs, body, rest, replaced + [t.name]);
      } else {
        WorklistIsDepthFirst(defs, rest, inner, replaced, out + [t]);
        Reassociate(out, [t], DepthFirst(defs, rest, replaced).0);
      }
    }
  }

  // ---------- names that come twice ----------

  /** Every name replaced by its body wherever it is met, `depth` deep. */
  function Plain(defs: Definitions, ts: seq<Tok>, depth: nat): seq<Tok>
    requires ObjectsOnly(defs)
    decreases depth, |ts|
  {
    if ts == [] then []
    else
      (if IsMacro(defs, ts[0]) && depth > 0 then Plain(defs, defs[ts[0].name].body, depth - 1) else [ts[0]])
      + Plain(defs, ts[1..], depth)
  }

  /** The names that are met on the way, in order. */
  function Met(defs: Definitions, ts: seq<Tok>, depth: nat): seq<string>
    requires ObjectsOnly(defs)
    decreases depth, |ts|
  {
    if ts == [] then []
    else
      (if IsMacro(defs, ts[0]) && depth > 0 then [ts[0].name] + Met(defs, defs[ts[0].name].body, depth - 1) else [])
      + Met(defs, ts[1..], depth)
  }

  predicate IsMacro(defs: Definitions, t: Tok) {
    t.Id? && t.name in defs
  }

  predicate MacroFree(defs: Definitions, ts: seq<Tok>) {
    forall i :: 0 <= i < |ts| ==> !IsMacro(defs, ts[i])
  }

  /** With object macros a replacement leaves no macro's name exactly when the full
      substitution meets no name twice; and then it is the full substitution. A name on a
      cycle of definitions is met again before the substitution is as deep as the table. */
  lemma {:induction false} RepeatedNamesStay(defs: Definitions, token: Tok, inner: seq<Tok>, depth: nat)
    requires ObjectsOnly(defs) && depth > |defs|
    ensures var r := ReplaceToken(defs, token, inner); var met := Met(defs, [token], depth);
            && r.Done? && (MacroFree(defs, r.out) <==> Distinct(met))
            && (Distinct(met) ==> r.out == Plain(defs, [token], depth) && r.replaced == met)
  {
    assert defs.Keys - NamesOf([]) == defs.Keys;
    WorklistIsDepthFirst(defs, [token], inner, [], []);
    assert [] + DepthFirst(defs, [token], []).0 == DepthFirst(defs, [token], []).0;
    assert [] + Met(defs, [token], depth) == Met(defs, [token], depth);
    if Distinct(Met(defs, [token], depth)) {
      DistinctIsPlain(defs, [token], [], depth);
    }
    if MacroFree(defs, DepthFirst(defs, [token], []).0) {
      FreeIsDistinct(defs, [token], [], depth);
    }
  }

  lemma {:induction false} DistinctIsPlain(defs: Definitions, ts: seq<Tok>, replaced: seq<string>, depth: nat)
    requires ObjectsOnly(defs) && Distinct(replaced + Met(defs, ts, depth)) && depth > Free(defs, replaced)
    ensures DepthFirst(defs, ts, replaced) == (Plain(defs, ts, depth), replaced + Met(defs, ts, depth))
    ensures MacroFree(defs, Plain(defs, ts, depth))
    decreases Free(defs, replaced), |ts|
  {
    hide DepthFirst, Distinct, Free;
    if ts == [] {
      DepthFirstNothing(defs, [], replaced);
      assert replaced + [] == replaced;
    } else {
      var t, rest := ts[0], ts[1..];
      DepthFirstStep(defs, ts, replaced);
      if IsMacro(defs, t) {
        MetIsFresh(defs, ts, replaced, depth);
        FreeShrinks(defs, replaced, t.name);
        var inside, after := Met(defs, defs[t.name].body, depth - 1), Met(defs, rest, depth);
        var first := replaced + [t.name];
        SplitMet(replaced, t.name, inside, after);
        DistinctIsPlain(defs, defs[t.name].body, first, depth - 1);
        FreeMonotone(defs, first, first + inside);
        DistinctIsPlain(defs, rest, first + inside, depth);
        FreeApart(defs, Plain(defs, defs[t.name].body, depth - 1), Plain(defs, rest, depth));
      } else {
        assert [] + Met(defs, rest, depth) == Met(defs, rest, depth);
        DistinctIsPlain(defs, rest, replaced, depth);
        FreeApart(defs, [t], Plain(defs, rest, depth));
      }
    }
  }

  lemma {:induction false} MetIsFresh(defs: Definitions, ts: seq<Tok>, replaced: seq<string>, depth: nat)
    requires ObjectsOnly(defs) && ts != [] && IsMacro(defs, ts[0]) && depth > 0
    requires Distinct(replaced + Met(defs, ts, depth))
    ensures ts[0].name !in replaced
  {
    var all := replaced + Met(defs, ts, depth);
    assert all[|replaced|] == ts[0].name;
    assert forall i :: 0 <= i < |replaced| ==> all[i] == replaced[i];
  }

  lemma {:induction false} SplitMet(replaced: seq<string>, name: string, inside: seq<string>, after: seq<string>)
    ensures var all := replaced + ([name] + inside + after);
            && all == replaced + [name] + inside + after
            && (Distinct(all) ==> Distinct(replaced + [name] + inside))
  {
    var all := replaced + ([name] + inside + after);
    assert all == replaced + [name] + inside + after;
    var first := replaced + [name] + inside;
    assert forall i :: 0 <= i < |first| ==> first[i] == all[i];
  }

  lemma {:induction false} FreeIsDistinct(defs: Definitions, ts: seq<Tok>, replaced: seq<string>, depth: nat)
    requires ObjectsOnly(defs) && Distinct(replaced) && depth > Free(defs, replaced)
    requires MacroFree(defs, DepthFirst(defs, ts, replaced).0)
    ensures Distinct(replaced + Met(defs, ts, depth))
    decreases Free(defs, replaced), |ts|
  {
    hide DepthFirst, Distinct, Met, Plain, MacroFree, Free;
    MetStep(defs, ts, depth);
    if ts == [] {
      assert replaced + [] == replaced;
    } else {
      var t, rest := ts[0], ts[1..];
      DepthFirstStep(defs, ts, replaced);
      if IsMacro(defs, t) {
        if t.name in replaced {
          FreeApart(defs, [t], DepthFirst(defs, rest, replaced).0);
          NotFree(defs, t);
          assert false;
        }
        FreeShrinks(defs, replaced, t.name);
        var inside, after := Met(defs, defs[t.name].body, depth - 1), Met(defs, rest, depth);
        var first := replaced + [t.name];
        var (out, seen) := DepthFirst(defs, defs[t.name].body, first);
        var more := DepthFirst(defs, rest, seen).0;
        FreeApart(defs, out, more);
        DistinctMore(replaced, t.name);
        FreeIsDistinct(defs, defs[t.name].body, first, depth - 1);
        DistinctIsPlain(defs, defs[t.name].body, first, depth - 1);
        FreeMonotone(defs, first, seen);
        FreeIsDistinct(defs, rest, seen, depth);
        SplitMet(replaced, t.name, inside, after);
      } else {
        FreeApart(defs, [t], DepthFirst(defs, rest, replaced).0);
        FreeIsDistinct(defs, rest, replaced, depth);
      }
    }
  }

  lemma {:induction false} MetStep(defs: Definitions, ts: seq<Tok>, depth: nat)
    requires ObjectsOnly(defs)
    ensures ts == [] ==> Met(defs, ts, depth) == []
    ensures ts != [] && IsMacro(defs, ts[0]) && depth > 0 ==>
              Met(defs, ts, depth) == [ts[0].name] + Met(defs, defs[ts[0].name].body, depth - 1) + Met(defs, ts[1..], depth)
    ensures ts != [] && !IsMacro(defs, ts[0]) ==> Met(defs, ts, depth) == Met(defs, ts[1..], depth)
  {}

  lemma {:induction false} NotFree(defs: Definitions, t: Tok)
    ensures MacroFree(defs, [t]) <==> !IsMacro(defs, t)
  {
    assert [t][0] == t;
  }

  lemma {:induction false} DistinctMore(names: seq<string>, name: string)
    requires Distinct(names) && name !in names
    ensures Distinct(names + [name])
  {}

  lemma {:induction false} FreeApart(defs: Definitions, a: seq<Tok>, b: seq<Tok>)
    ensures MacroFree(defs, a + b) <==> MacroFree(defs, a) && MacroFree(defs, b)
  {
    assert forall i :: 0 <= i < |a| ==> (a + b)[i] == a[i];
    assert forall i :: 0 <= i < |b| ==> (a + b)[|a| + i] == b[i];
  }

  /** A name that comes twice is replaced only the first time: with `B` defined as `x`,
      `A` defined as `B B` becomes `x B`. */
  lemma {:induction false} SecondTimeStays(x: Tok)
    requires !x.Id?
    ensures var defs := map["A" := Object([Id("B"), Id("B")]), "B" := Object([x])];
            ReplaceToken(defs, Id("A"), []) == Done([x, Id("B")], [], ["A", "B"])
  {
    hide DepthFirst, Replace;
    var bb := [Id("B"), Id("B")];
    var defs := map["A" := Object(bb), "B" := Object([x])];
    var a, ab := ["A"], ["A", "B"];
    assert defs["A"] == Object(bb) && defs["B"] == Object([x]) && "B" !in a && [] + ["A"] == a && a + ["B"] == ab;
    assert bb[1..] == [Id("B")] && [Id("B")][1..] == [] && [x][1..] == [] && [Id("A")][1..] == [];
    WorklistIsDepthFirst(defs, [Id("A")], [], [], []);
    NamesReplaced(defs, x, bb, a, ab);
    DepthFirstStep(defs, [Id("A")], []);
    DepthFirstNothing(defs, [], ab);
    assert DepthFirst(defs, [Id("A")], []) == ([x, Id("B")] + [], ab);
  }

  lemma {:induction false} NamesReplaced(defs: Definitions, x: Tok, bb: seq<Tok>, a: seq<string>, ab: seq<string>)
    requires ObjectsOnly(defs) && !x.Id? && bb == [Id("B"), Id("B")] && a == ["A"] && ab == ["A", "B"]
    requires "B" in defs && defs["B"] == Object([x])
    ensures DepthFirst(defs, bb, a) == ([x, Id("B")], ab)
  {
    hide DepthFirst;
    DepthFirstNothing(defs, [], ab);
    DepthFirstStep(defs, [x], ab);
    assert [x][1..] == [] && [x] + [] == [x];
    DepthFirstStep(defs, [Id("B")], ab);
    assert [Id("B")][1..] == [] && [Id("B")] + [] == [Id("B")] && "B" in ab by { assert ab[1] == "B"; }
    DepthFirstStep(defs, bb, a);
    assert bb[0] == Id("B") && "B" !in a by { assert |"A"| == 1 && "A"[0] != "B"[0]; }
    assert bb[1..] == [Id("B")] && a + ["B"] == ab;
    assert [x] + [Id("B")] == [x, Id("B")];
  }

  // ---------- failed assertions ----------

  /** Two spaces at the end, or two at the start that are not all there is. */
  predicate Spaced(arg: seq<Tok>) {
    || (|arg| >= 2 && arg[|arg| - 1] == Space && arg[|arg| - 2] == Space)
    || (|arg| > 2 && arg[0] == Space && arg[1] == Space)
  }

  /** Stripping fails exactly on such an argument; otherwise it takes at most one space
      from each end, and none is left there. */
  lemma {:induction false} TwoSpacesFail(arg: seq<Tok>)
    ensures Strip(arg).None? <==> Spaced(arg)
    ensures Strip(arg).Some? ==>
              exists before, after ::
                && arg == Maybe(before) + Strip(arg).value + Maybe(after)
                && var b := Strip(arg).value; b != [] ==> b[0] != Space && b[|b| - 1] != Space
  {
    if Strip(arg).Some? {
      var after := arg != [] && arg[|arg| - 1] == Space;
      var a := if after then arg[..|arg| - 1] else arg;
      var before := a != [] && a[0] == Space;
      var b := if before then a[1..] else a;
      EndsApart(arg);
      EndsApart(a);
      assert arg == Maybe(before) + b + Maybe(after);
    }
  }

  lemma {:induction false} EndsApart(a: seq<Tok>)
    ensures a != [] ==> a == [a[0]] + a[1..] && a == a[..|a| - 1] + [a[|a| - 1]]
    ensures a == [] + a && a == a + []
  {}

  function Maybe(sp: bool): seq<Tok> {
    if sp then [Space] else []
  }

  /** The arguments as they stand, up to the parenthesis that closes them or as far as the
      tokens go; one that nothing ends is not among them. */
  function RawArgs(ts: seq<Tok>, depth: nat, current: seq<Tok>): seq<seq<Tok>>
    requires depth > 0
    decreases |ts|
  {
    if ts == [] then []
    else if ts[0].Error? then RawArgs(ts[1..], depth, current)
    else if ts[0] == Comma && depth == 1 then [current] + RawArgs(ts[1..], depth, [])
    else if ts[0] == RightParen && depth == 1 then [current]
    else
      var inner := if ts[0] == RightParen then depth - 1 else if ts[0] == LeftParen then depth + 1 else depth;
      RawArgs(ts[1..], inner, current + [ts[0]])
  }

  predicate AnySpaced(args: seq<seq<Tok>>) {
    exists i :: 0 <= i < |args| && Spaced(args[i])
  }

  lemma {:induction false} ArgsFail(ts: seq<Tok>, depth: nat, current: seq<Tok>, args: seq<seq<Tok>>, errors: seq<Tok>)
    requires depth > 0
    ensures TakeArgs(ts, depth, current, args, errors).Failed? <==> AnySpaced(RawArgs(ts, depth, current))
    decreases |ts|
  {
    hide Spaced, Strip;
    if ts != [] {
      TwoSpacesFail(current);
      if ts[0].Error? {
        ArgsFail(ts[1..], depth, current, args, errors + [ts[0]]);
      } else if ts[0] == Comma && depth == 1 {
        var more := RawArgs(ts[1..], depth, []);
        var all := [current] + more;
        assert all[0] == current;
        if Strip(current).Some? {
          ArgsFail(ts[1..], depth, [], args + [Strip(current).value], errors);
          assert forall i :: 0 <= i < |more| ==> all[i + 1] == more[i];
          assert forall i :: 0 < i < |all| ==> all[i] == more[i - 1];
        }
      } else if ts[0] == RightParen && depth == 1 {
        assert RawArgs(ts, depth, current)[0] == current;
      } else {
        var inner := if ts[0] == RightParen then depth - 1 else if ts[0] == LeftParen then depth + 1 else depth;
        ArgsFail(ts[1..], inner, current + [ts[0]], args, errors);
      }
    }
  }

  /** A use fails an assertion exactly when it is a call and one of its arguments, as it
      stands, has two spaces at an end. */
  lemma {:induction false} CallFailsOnSpaces(id: string, params: seq<string>, body: seq<Tok>, ts: seq<Tok>)
    ensures ReplaceFunction(id, params, body, ts) == CallFailed <==>
            FindCall(id, ts, []).ACall? && AnySpaced(RawArgs(ts[FindCall(id, ts, []).used..], 1, []))
  {
    var found := FindCall(id, ts, []);
    if found.ACall? {
      ArgsFail(ts[found.used..], 1, [], [], found.errors);
    }
  }

  /** Such an argument comes about: with `f(x)` defined as `x` and `g(a,b)` as `f(a b )`,
      the use `g(,)` fails. */
  lemma {:induction false} EmptyArgumentsPanic()
    ensures var defs := map["f" := Function(["x"], [Id("x")]),
                            "g" := Function(["a", "b"], [Id("f"), LeftParen, Id("a"), Space, Id("b"), Space, RightParen])];
            ReplaceToken(defs, Id("g"), [LeftParen, Comma, RightParen]) == Panic
  {
    hide ReplaceFunction, Free, TakeArgs, Strip, FindCall;
    var body := [Id("f"), LeftParen, Id("a"), Space, Id("b"), Space, RightParen];
    var defs := map["f" := Function(["x"], [Id("x")]), "g" := Function(["a", "b"], body)];
    var use := [LeftParen, Comma, RightParen];
    var call := [Id("f"), LeftParen, Space, Space, RightParen];
    OuterUse(body, use, call);
    InnerUse(call[1..]);
    assert [Id("g")][1..] == [] && [] + use == use && [] + ["g"] == ["g"];
    var rest: seq<Tok> := [];
    assert "f" !in ["g"] by { assert ["g"][0] == "g" && "f"[0] != "g"[0]; }
    assert Replace(defs, call, [], ["g"], []) == Panic by {
      assert call[0] == Id("f") && call[1..] + [] == call[1..];
    }
    assert rest[Min(3, 0)..] == [] && call + [] == call && use[3..] == [];
    assert Replace(defs, [Id("g")], use, [], []) == Replace(defs, call, [], ["g"], []);
  }

  /** What `g(,)` becomes: both arguments are empty. */
  lemma {:induction false} OuterUse(body: seq<Tok>, use: seq<Tok>, call: seq<Tok>)
    requires body == [Id("f"), LeftParen, Id("a"), Space, Id("b"), Space, RightParen]
    requires use == [LeftParen, Comma, RightParen] && call == [Id("f"), LeftParen, Space, Space, RightParen]
    ensures ReplaceFunction("g", ["a", "b"], body, use) == Called(call, 3)
  {
    var none: seq<Tok> := [];
    var args := [none, none];
    var noArgs: seq<seq<Tok>> := [];
    assert use[1..] == [Comma, RightParen] && [Comma, RightParen][1..] == [RightParen];
    assert noArgs + [none] == [none] && [none] + [none] == args;
    assert TakeArgs([RightParen], 1, [], [none], []) == Args(args, [], 1);
    assert TakeArgs([Comma, RightParen], 1, [], [], []) == Args(args, [], 2);
    GBody(body, args, call);
    assert [] + call == call;
  }

  lemma {:induction false} GBody(body: seq<Tok>, args: seq<seq<Tok>>, out: seq<Tok>)
    requires body == [Id("f"), LeftParen, Id("a"), Space, Id("b"), Space, RightParen] && args == [[], []]
    requires out == [Id("f"), LeftParen, Space, Space, RightParen]
    ensures Substituted(["a", "b"], body, args, false) == Some(out)
  {
    hide Substituted, IndexOf;
    var params := ["a", "b"];
    Parameters();
    NothingSubstituted(params, args);
    var b0: seq<Tok> := [];
    var b1 := [RightParen] + b0;
    OneSubstituted(params, RightParen, b0, args);
    var b2 := [Space] + b1;
    OneSubstituted(params, Space, b1, args);
    var b3 := [Id("b")] + b2;
    OneSubstituted(params, Id("b"), b2, args);
    var b4 := [Space] + b3;
    OneSubstituted(params, Space, b3, args);
    var b5 := [Id("a")] + b4;
    OneSubstituted(params, Id("a"), b4, args);
    var b6 := [LeftParen] + b5;
    OneSubstituted(params, LeftParen, b5, args);
    var b7 := [Id("f")] + b6;
    OneSubstituted(params, Id("f"), b6, args);
    assert body == b7 && Substituted(params, b7, args, false).value == out;
  }

  lemma {:induction false} NothingSubstituted(params: seq<string>, args: seq<seq<Tok>>)
    requires |params| <= |args|
    ensures Substituted(params, [], args, false) == Some([])
  {}

  lemma {:induction false} OneSubstituted(params: seq<string>, t: Tok, more: seq<Tok>, args: seq<seq<Tok>>)
    requires |params| <= |args| && t != Hash && Substituted(params, more, args, false).Some?
    ensures Substituted(params, [t] + more, args, false) ==
            Some((if t.Id? && IndexOf(params, t.name).Some? then args[IndexOf(params, t.name).value] else [t]) +
                 Substituted(params, more, args, false).value)
  {
    assert ([t] + more)[1..] == more;
  }

  lemma {:induction false} Parameters()
    ensures IndexOf(["a", "b"], "a") == Some(0) && IndexOf(["a", "b"], "b") == Some(1) && IndexOf(["a", "b"], "f") == None
  {
    assert "a"[0] != "b"[0] && "f"[0] != "a"[0] && "f"[0] != "b"[0];
    assert ["a", "b"][1..] == ["b"] && ["b"][1..] == [];
    assert IndexOf(["b"], "b") == Some(0) && IndexOf(["b"], "f") == None;
  }

  lemma {:induction false} InnerUse(use: seq<Tok>)
    requires use == [LeftParen, Space, Space, RightParen]
    ensures ReplaceFunction("f", ["x"], [Id("x")], use) == CallFailed
  {
    var t := use[1..];
    assert t[1..][1..] == [RightParen] && [] + [Space] + [Space] == [Space, Space];
    assert RawArgs([RightParen], 1, [Space, Space]) == [[Space, Space]];
    assert RawArgs(t, 1, []) == [[Space, Space]];
    assert Spaced([[Space, Space]][0]);
    CallFailsOnSpaces("f", ["x"], [Id("x")], use);
  }
}

/** The replacer as the front end has it: loops over a queue, an underlying stream and a
    set of names. */
module Replacer {
  import opened Wrappers
  import opened Replacement

  /** The stream `replace` may read on in. */
  class Stream {
    var items: seq<Tok>

    constructor (items: seq<Tok>)
      ensures this.items == items
    {
      this.items := items;
    }
  }

  /** The queue and the stream without their first `used` tokens. */
  function Behind(pending: seq<Tok>, items: seq<Tok>, used: nat): (seq<Tok>, seq<Tok>)
    requires used <= |pending| + |items|
  {
    (pending[Min(used, |pending|)..], items[used - Min(used, |pending|)..])
  }

  lemma {:induction false} BehindStep(pending: seq<Tok>, items: seq<Tok>, used: nat)
    requires used <= |pending| + |items|
    ensures var (p, i) := Behind(pending, items, used);
            && p + i == (pending + items)[used..]
            && (p != [] ==> Behind(pending, items, used + 1) == (p[1..], i))
            && (p == [] && i != [] ==> Behind(pending, items, used + 1) == ([], i[1..]))
  {
    var (p, i) := Behind(pending, items, used);
    if p != [] {
      assert pending[used..][1..] == pending[used + 1..];
    } else if i != [] {
      assert pending[|pending|..] == [] && items[used - |pending|..][1..] == items[used + 1 - |pending|..];
    }
  }

  lemma {:induction false} BehindNothing(pending: seq<Tok>, items: seq<Tok>)
    ensures Behind(pending, items, 0) == (pending, items)
  {}

  lemma {:induction false} BehindAll(pending: seq<Tok>, items: seq<Tok>, used: nat)
    requires used <= |pending| + |items| && Behind(pending, items, used) == ([], [])
    ensures used == |pending| + |items|
  {}

  lemma {:induction false} BehindMore(pending: seq<Tok>, items: seq<Tok>, a: nat, b: nat)
    requires a + b <= |pending| + |items|
    ensures var (p, i) := Behind(pending, items, a); b <= |p| + |i| && Behind(p, i, b) == Behind(pending, items, a + b)
  {}

  class Queue {
    var pending: seq<Tok>
    const inner: Stream

    constructor (pending: seq<Tok>, inner: Stream)
      ensures this.pending == pending && this.inner == inner
    {
      this.pending, this.inner := pending, inner;
    }

    ghost function All(): seq<Tok>
      reads this, inner
    {
      pending + inner.items
    }

    method Front() returns (t: Option<Tok>)
      ensures t == if All() == [] then None else Some(All()[0])
    {
      t := if pending != [] then Some(pending[0]) else if inner.items != [] then Some(inner.items[0]) else None;
    }

    /** Takes from the queue, and when that is empty from the stream. */
    method Pop() returns (t: Option<Tok>)
      modifies this`pending, inner
      ensures t == if old(All()) == [] then None else Some(old(All())[0])
      ensures All() == if old(All()) == [] then [] else old(All())[1..]
      ensures if old(pending) != [] then pending == old(pending)[1..] && inner.items == old(inner.items)
              else pending == [] && inner.items == (if old(inner.items) == [] then [] else old(inner.items)[1..])
    {
      if pending != [] {
        t := Some(pending[0]);
        pending := pending[1..];
      } else if inner.items != [] {
        t := Some(inner.items[0]);
        inner.items := inner.items[1..];
      } else {
        t := None;
      }
    }

    /** The queue and the stream are what they were without their first `used` tokens. */
    twostate predicate Used(used: nat)
      reads this, inner
    {
      used <= |old(pending)| + |old(inner.items)| && (pending, inner.items) == Behind(old(pending), old(inner.items), used)
    }

    method FindCallLoop(id: string) returns (r: Found)
      modifies this`pending, inner
      ensures r == FindCall(id, old(All()), []) && Used(r.used)
    {
      hide FindCall, Behind;
      var errors: seq<Tok> := [];
      var used := 0;
      ghost var spec := FindCall(id, All(), []);
      BehindNothing(pending, inner.items);
      NothingLater(spec);
      while true
        invariant Used(used) && spec == Later(FindCall(id, All(), errors), used)
        decreases |All()|
      {
        FindStep(id, All(), errors, used);
        BehindStep(old(pending), old(inner.items), used);
        var t := Pop();
        if t.None? {
          return NotACall(errors + [Id(id)], used);
        }
        used := used + 1;
        if t.value.Error? {
          errors := errors + [t.value];
        } else if t.value == LeftParen {
          return ACall(errors, used);
        } else if t.value == Space {
          var second := Front();
          if second == Some(LeftParen) {
            BehindStep(old(pending), old(inner.items), used);
            var _ := Pop();
            return ACall(errors, used + 1);
          }
          return NotACall(errors + [Id(id), Space], used);
        } else {
          return NotACall(errors + [Id(id), t.value], used);
        }
      }
    }

    static lemma {:induction false} NothingLater(r: Found)
      ensures Later(r, 0) == r
    {}

    /** One turn of the loop that looks for the parenthesis. */
    static lemma {:induction false} FindStep(id: string, ts: seq<Tok>, errors: seq<Tok>, used: nat)
      ensures var r := Later(FindCall(id, ts, errors), used);
              if ts == [] then r == NotACall(errors + [Id(id)], used)
              else match ts[0]
                   case Error(_) => r == Later(FindCall(id, ts[1..], errors + [ts[0]]), used + 1)
                   case LeftParen => r == ACall(errors, used + 1)
                   case Space =>
                     r == if ts[1..] != [] && ts[1..][0] == LeftParen then ACall(errors, used + 2)
                          else NotACall(errors + [Id(id), Space], used + 1)
                   case _ => r == NotACall(errors + [Id(id), ts[0]], used + 1)
    {}

    static ghost function Later(r: Found, used: nat): Found {
      match r
      case NotACall(result, n) => NotACall(result, used + n)
      case ACall(errors, n) => ACall(errors, used + n)
    }

    static ghost function LaterArgs(r: Taken, used: nat): Taken {
      if r.Args? then r.(used := used + r.used) else r
    }

    method TakeArgsLoop(start: seq<Tok>) returns (r: Taken)
      modifies this`pending, inner
      ensures r == TakeArgs(old(All()), 1, [], [], start)
      ensures r.Args? ==> Used(r.used)
      ensures r.Unfinished? ==> Used(|old(All())|)
    {
      hide TakeArgs, Strip, Behind;
      var errors, args: seq<seq<Tok>>, current: seq<Tok>, depth, used := start, [], [], 1, 0;
      ghost var spec := TakeArgs(All(), 1, [], [], start);
      BehindNothing(pending, inner.items);
      NothingLaterArgs(spec);
      while true
        invariant depth > 0 && Used(used)
        invariant spec == LaterArgs(TakeArgs(All(), depth, current, args, errors), used)
        decreases |All()|
      {
        TakeStep(All(), depth, current, args, errors, used);
        BehindStep(old(pending), old(inner.items), used);
        var t := Pop();
        if t.None? {
          BehindAll(old(pending), old(inner.items), used);
          return Unfinished(errors);
        }
        used := used + 1;
        if t.value.Error? {
          errors := errors + [t.value];
        } else if (t.value == Comma || t.value == RightParen) && depth == 1 {
          var arg := Strip(current);
          if arg.None? {
            return Failed;
          }
          args, current := args + [arg.value], [];
          if t.value == RightParen {
            return Args(args, errors, used);
          }
        } else {
          depth := if t.value == RightParen then depth - 1 else if t.value == LeftParen then depth + 1 else depth;
          current := current + [t.value];
        }
      }
    }

    static lemma {:induction false} NothingLaterArgs(r: Taken)
      ensures LaterArgs(r, 0) == r
    {}

    /** One turn of the loop over the arguments. */
    static lemma {:induction false} TakeStep(ts: seq<Tok>, depth: nat, current: seq<Tok>, args: seq<seq<Tok>>,
                                             errors: seq<Tok>, used: nat)
      requires depth > 0
      ensures var r := LaterArgs(TakeArgs(ts, depth, current, args, errors), used);
              if ts == [] then r == Unfinished(errors)
              else if ts[0].Error? then r == LaterArgs(TakeArgs(ts[1..], depth, current, args, errors + [ts[0]]), used + 1)
              else if (ts[0] == Comma || ts[0] == RightParen) && depth == 1 then
                if Strip(current).None? then r == Failed
                else if ts[0] == RightParen then r == Args(args + [Strip(current).value], errors, used + 1)
                else r == LaterArgs(TakeArgs(ts[1..], depth, [], args + [Strip(current).value], errors), used + 1)
              else
                var inner := if ts[0] == RightParen then depth - 1 else if ts[0] == LeftParen then depth + 1 else depth;
                r == LaterArgs(TakeArgs(ts[1..], inner, current + [ts[0]], args, errors), used + 1)
    {
      hide Strip;
    }

    /** The queue after a call of `id` has been replaced. */
    method ReplaceFunctionCall(id: string, params: seq<string>, body: seq<Tok>) returns (r: Option<seq<Tok>>)
      modifies this`pending, inner
      ensures match ReplaceFunction(id, params, body, old(All()))
              case CallFailed => r == None
              case Called(result, used) => r == Some(result) && Used(used)
    {
      hide FindCall, TakeArgs, Strip, Substituted, Behind;
      var found := FindCallLoop(id);
      if found.NotACall? {
        return Some(found.result);
      }
      BehindStep(old(pending), old(inner.items), found.used);
      ghost var p, i := pending, inner.items;
      var taken := TakeArgsLoop(found.errors);
      if taken.Args? {
        BehindMore(old(pending), old(inner.items), found.used, taken.used);
      } else if taken.Unfinished? {
        BehindMore(old(pending), old(inner.items), found.used, |p| + |i|);
      }
      match taken {
        case Failed => r := None;
        case Unfinished(errs) => r := Some(errs);
        case Args(args, errs, used) =>
          if |args| != |params| && !(|args| == 1 && params == [] && args[0] == []) {
            return Some([Error(TOO_FEW_ARGUMENTS)]);
          }
          var result := SubstituteLoop(params, body, args);
          r := if result.None? then Some([Error(HASH_MISSING_PARAMETER)]) else Some(errs + result.value);
      }
    }

    static method SubstituteLoop(params: seq<string>, body: seq<Tok>, args: seq<seq<Tok>>) returns (r: Option<seq<Tok>>)
      requires |params| <= |args|
      ensures r == Replacement.Substituted(params, body, args, false)
    {
      var out: seq<Tok>, hash, i := [], false, 0;
      assert body[0..] == body;
      NothingBefore(Replacement.Substituted(params, body, args, false));
      while i < |body|
        invariant i <= |body|
        invariant Prefixed(out, Replacement.Substituted(params, body[i..], args, hash)) ==
                  Replacement.Substituted(params, body, args, false)
      {
        var t := body[i];
        assert body[i..][0] == t && body[i..][1..] == body[i + 1..];
        var index := if t.Id? then IndexOf(params, t.name) else None;
        if index.Some? {
          var arg := if hash then [Quoted(args[index.value])] else args[index.value];
          MoreBefore(out, arg, Replacement.Substituted(params, body[i + 1..], args, false));
          out, hash := out + arg, false;
        } else if t == Hash {
          hash := true;
        } else if t == Space {
          MoreBefore(out, if hash then [] else [Space], Replacement.Substituted(params, body[i + 1..], args, hash));
          out := out + (if hash then [] else [Space]);
        } else if hash {
          return None;
        } else {
          MoreBefore(out, [t], Replacement.Substituted(params, body[i + 1..], args, false));
          out := out + [t];
        }
        i := i + 1;
      }
      assert out + [] == out;
      r := Some(out);
    }

    static lemma {:induction false} NothingBefore(r: Option<seq<Tok>>)
      ensures Prefixed([], r) == r
    {
      if r.Some? {
        assert [] + r.value == r.value;
      }
    }

    static lemma {:induction false} MoreBefore(a: seq<Tok>, b: seq<Tok>, r: Option<seq<Tok>>)
      ensures Prefixed(a, Prefixed(b, r)) == Prefixed(a + b, r)
    {
      if r.Some? {
        assert a + (b + r.value) == a + b + r.value;
      }
    }
  }

  /** Replaces one token; `None` stands for the failed assertion. */
  method ReplaceLoop(defs: Definitions, token: Tok, inner: Stream) returns (r: Option<seq<Tok>>, replaced: seq<string>)
    modifies inner
    ensures match ReplaceToken(defs, token, old(inner.items))
            case Panic => r == None
            case Done(out, rest, names) => r == Some(out) && inner.items == rest && replaced == names
  {
    hide Replace, ReplaceFunction, Behind;
    var queue := new Queue([token], inner);
    var out: seq<Tok> := [];
    replaced := [];
    ghost var spec := ReplaceToken(defs, token, inner.items);
    while queue.pending != []
      invariant fresh(queue) && queue.inner == inner && Ready(defs, replaced, out)
      invariant Replace(defs, queue.pending, inner.items, replaced, out) == spec
      decreases Free(defs, replaced), |queue.pending|
    {
      ReplaceStep(defs, queue.pending, inner.items, replaced, out);
      var t := queue.pending[0];
      queue.pending := queue.pending[1..];
      if Replaceable(defs, t, replaced) {
        FreeShrinks(defs, replaced, t.name);
        match defs[t.name] {
          case Object(body) => queue.pending := body + queue.pending;
          case Function(params, body) =>
            var result := queue.ReplaceFunctionCall(t.name, params, body);
            if result.None? {
              return None, replaced;
            }
            queue.pending := result.value + queue.pending;
        }
        replaced := replaced + [t.name];
      } else {
        out := out + [t];
      }
    }
    NothingPending(defs, inner.items, replaced, out);
    r := Some(out);
  }

  /** What `Replace` asks of the names replaced and the output so far. */
  predicate Ready(defs: Definitions, replaced: seq<string>, out: seq<Tok>) {
    && Distinct(replaced) && NamesOf(replaced) <= defs.Keys
    && forall t :: t in out && t.Id? ==> t.name !in defs || t.name in replaced
  }

  lemma {:induction false} NothingPending(defs: Definitions, items: seq<Tok>, replaced: seq<string>, out: seq<Tok>)
    requires Ready(defs, replaced, out)
    ensures Replace(defs, [], items, replaced, out) == Done(out, items, replaced)
  {}

  /** One turn of the loop over the queue. */
  lemma {:induction false} ReplaceStep(defs: Definitions, pending: seq<Tok>, items: seq<Tok>, replaced: seq<string>, out: seq<Tok>)
    requires Ready(defs, replaced, out) && pending != []
    ensures var t, rest := pending[0], pending[1..];
            if Replaceable(defs, t, replaced) then
              Ready(defs, replaced + [t.name], out) &&
              Replace(defs, pending, items, replaced, out) ==
                match defs[t.name]
                case Object(body) => Replace(defs, body + rest, items, replaced + [t.name], out)
                case Function(params, body) =>
                  match ReplaceFunction(t.name, params, body, rest + items)
                  case CallFailed => Panic
                  case Called(result, used) =>
                    var (p, i) := Behind(rest, items, used); Replace(defs, result + p, i, replaced + [t.name], out)
            else
              Ready(defs, replaced, out + [t]) &&
              Replace(defs, pending, items, replaced, out) == Replace(defs, rest, items, replaced, out + [t])
  {}
}
