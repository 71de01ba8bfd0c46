/** The tokens of the preprocessor. */
module PpTokens {
  datatype Token =
    | Newline
    | Whitespace
    | Punct(c: char)
    | Ident(name: string, line: nat)
    | Literal(text: string)
    | Error(c: char)
}

/** The conditions of `#if`: trees, how they are written, and what they are worth. */
module Conditions {
  import opened Wrappers
  import opened Integers
  import opened PpTokens

  datatype CompareOp = Equal | NotEqual | LessEqual | GreaterEqual | Less | Greater

  /** `sp` says how many whitespace tokens stand before the token it belongs to. */
  datatype Cond =
    | Name(sp: nat, name: string, line: nat)
    | Number(sp: nat, text: string)
    | Group(sp: nat, inner: Cond, sp2: nat)
    | Not(sp: nat, operand: Cond)
    | Sum(left: Cond, sp: nat, minus: bool, right: Cond)
    | Shift(left: Cond, sp: nat, toRight: bool, right: Cond)
    | Compare(left: Cond, sp: nat, op: CompareOp, right: Cond)
    | Both(left: Cond, sp: nat, right: Cond)
    | Either(left: Cond, sp: nat, right: Cond)
    | Choice(left: Cond, sp: nat, thn: Cond, sp2: nat, els: Cond)

  function Sp(n: nat, rest: seq<Token>): seq<Token> {
    if n == 0 then rest else [Whitespace] + Sp(n - 1, rest)
  }

  /** The punctuation of a comparison: one token a character. */
  function CompareTokens(op: CompareOp, rest: seq<Token>): seq<Token> {
    match op
    case Equal => [Punct('='), Punct('=')] + rest
    case NotEqual => [Punct('!'), Punct('=')] + rest
    case LessEqual => [Punct('<'), Punct('=')] + rest
    case GreaterEqual => [Punct('>'), Punct('=')] + rest
    case Less => [Punct('<')] + rest
    case Greater => [Punct('>')] + rest
  }

  /** The tokens of `e`, and then `rest`. */
  function Spell(e: Cond, rest: seq<Token>): seq<Token> {
    match e
    case Name(sp, name, line) => Sp(sp, [Ident(name, line)] + rest)
    case Number(sp, text) => Sp(sp, [Literal(text)] + rest)
    case Group(sp, inner, sp2) => Sp(sp, [Punct('(')] + Spell(inner, Sp(sp2, [Punct(')')] + rest)))
    case Not(sp, x) => Sp(sp, [Punct('!')] + Spell(x, rest))
    case Sum(l, sp, minus, r) => Spell(l, Sp(sp, [Punct(if minus then '-' else '+')] + Spell(r, rest)))
    case Shift(l, sp, toRight, r) =>
      var c := Punct(if toRight then '>' else '<');
      Spell(l, Sp(sp, [c, c] + Spell(r, rest)))
    case Compare(l, sp, op, r) => Spell(l, Sp(sp, CompareTokens(op, Spell(r, rest))))
    case Both(l, sp, r) => Spell(l, Sp(sp, [Punct('&'), Punct('&')] + Spell(r, rest)))
    case Either(l, sp, r) => Spell(l, Sp(sp, [Punct('|'), Punct('|')] + Spell(r, rest)))
    case Choice(c, sp, t, sp2, f) =>
      Spell(c, Sp(sp, [Punct('?')] + Spell(t, Sp(sp2, [Punct(':')] + Spell(f, rest)))))
  }

  // ---------- values ----------

  const TWO_TO_THE_127: int := 0x8000_0000_0000_0000_0000_0000_0000_0000

  predicate IsI128(v: int) {
    -TWO_TO_THE_127 <= v < TWO_TO_THE_127
  }

  /** The only arithmetic that can fail is what does not fit. */
  function Checked(v: int): Option<int> {
    if IsI128(v) then Some(v) else None
  }

  function ShiftLeft(v: int, n: int): Option<int> {
    if 0 <= n < 128 then
      Some((v * Pow2(n) + TWO_TO_THE_127) % (2 * TWO_TO_THE_127) - TWO_TO_THE_127)
    else None
  }

  /** Dafny's division rounds down for a positive divisor, as an arithmetic shift does. */
  function ShiftRight(v: int, n: int): Option<int> {
    if 0 <= n < 128 then Some(v / Pow2(n)) else None
  }

  function CompareValues(op: CompareOp, v: int, w: int): int {
    Truth(match op
          case Equal => v == w
          case NotEqual => v != w
          case LessEqual => v <= w
          case GreaterEqual => v >= w
          case Less => v < w
          case Greater => v > w)
  }

  predicate IsDigit(c: char) {
    '0' <= c <= '9'
  }

  function Decimal(s: string): Option<nat> {
    if s == "" || !IsDigit(s[|s| - 1]) then None
    else if |s| == 1 then Some((s[0] as int - '0' as int) as nat)
    else
      match Decimal(s[..|s| - 1])
      case None => None
      case Some(n) => Some(10 * n + (s[|s| - 1] as int - '0' as int) as nat)
  }

  function DropSuffix(s: string, a: char, b: char): string {
    if s != "" && (s[|s| - 1] == a || s[|s| - 1] == b) then s[..|s| - 1] else s
  }

  /** Decimal only: a prefix `0` would mean another base. At most one `l` and before
      it one `u` are dropped. */
  function LiteralValue(text: string): Option<int> {
    if text == "" || !IsDigit(text[0]) then None
    else if text[0] == '0' && |text| > 1 && IsDigit(text[1]) then None
    else
      match Decimal(DropSuffix(DropSuffix(text, 'l', 'L'), 'u', 'U'))
      case None => None
      case Some(n) => Checked(n)
  }

  /** Every operand is evaluated, even where C would not need it. */
  function Value(e: Cond): Option<int> {
    match e
    case Name(_, name, _) => Some(Truth(name == "true"))
    case Number(_, text) => LiteralValue(text)
    case Group(_, inner, _) => Value(inner)
    case Not(_, x) => if Value(x).None? then None else Some(Truth(Value(x).value == 0))
    case Choice(c, _, t, _, f) =>
      if Value(c).None? || Value(t).None? || Value(f).None? then None
      else if Value(c).value != 0 then Value(t) else Value(f)
    case _ =>
      if Value(e.left).None? || Value(e.right).None? then None
      else Apply(e, Value(e.left).value, Value(e.right).value)
  }

  /** What the outermost operator of `e` makes of two values. */
  function Apply(e: Cond, v: int, w: int): Option<int>
    requires e.Sum? || e.Shift? || e.Compare? || e.Both? || e.Either?
  {
    match e
    case Sum(_, _, minus, _) => Checked(if minus then v - w else v + w)
    case Shift(_, _, toRight, _) => if toRight then ShiftRight(v, w) else ShiftLeft(v, w)
    case Compare(_, _, op, _) => Some(CompareValues(op, v, w))
    case Both(_, _, _) => Some(Truth(v != 0 && w != 0))
    case Either(_, _, _) => Some(Truth(v != 0 || w != 0))
  }

  // ---------- the grammar ----------

  datatype Level = Ternary | Or | And | Relation | Shifting | Additive | Unary

  function Rank(k: Level): nat {
    match k
    case Ternary => 0 case Or => 1 case And => 2 case Relation => 3
    case Shifting => 4 case Additive => 5 case Unary => 6
  }

  function LevelOf(e: Cond): Level {
    match e
    case Sum(_, _, _, _) => Additive
    case Shift(_, _, _, _) => Shifting
    case Compare(_, _, _, _) => Relation
    case Both(_, _, _) => And
    case Either(_, _, _) => Or
    case Choice(_, _, _, _, _) => Ternary
    case _ => Unary
  }

  predicate Binds(e: Cond, k: Level) {
    Rank(LevelOf(e)) >= Rank(k)
  }

  /** Parentheses stand wherever the grammar needs them. Shifts, comparisons and
      `?:` do not associate. */
  predicate Respects(e: Cond) {
    match e
    case Name(_, _, _) => true
    case Number(_, _) => true
    case Group(_, inner, _) => Respects(inner)
    case Not(_, x) => Respects(x) && Binds(x, Unary)
    case Sum(l, _, _, r) => Respects(l) && Respects(r) && Binds(l, Additive) && Binds(r, Unary)
    case Shift(l, _, _, r) => Respects(l) && Respects(r) && Binds(l, Additive) && Binds(r, Additive)
    case Compare(l, _, _, r) => Respects(l) && Respects(r) && Binds(l, Shifting) && Binds(r, Shifting)
    case Both(l, _, r) => Respects(l) && Respects(r) && Binds(l, And) && Binds(r, Relation)
    case Either(l, _, r) => Respects(l) && Respects(r) && Binds(l, Or) && Binds(r, And)
    case Choice(c, _, t, _, f) =>
      Respects(c) && Respects(t) && Respects(f) && Binds(c, Or) && Binds(t, Or) && Binds(f, Or)
  }

  // ---------- spaces ----------

  /** How many spaces behind `e` are gone when everything of level `k` or above that could
      go on from it has been looked for in vain: each time one is. A shift, a comparison or
      a choice is not looked for a second time. */
  function Eaten(e: Cond, k: Level): nat
    decreases e, 6 - Rank(k)
  {
    match k
    case Unary => 0
    case Additive => 2
    case Shifting => if e.Shift? then 2 else 4
    case Relation => if e.Compare? then Eaten(e.right, Shifting) else Eaten(e, Shifting) + 6
    case And => Eaten(if e.Both? then e.right else e, Relation) + 1
    case Or => Eaten(if e.Either? then e.right else e, And) + 1
    case Ternary => if e.Choice? then Eaten(e.els, Or) else Eaten(e, Or) + 1
  }

  /** The order in which the comparisons are looked for. */
  function Order(op: CompareOp): nat {
    match op
    case Equal => 1
    case NotEqual => 2
    case LessEqual => 3
    case GreaterEqual => 4
    case Less => 5
    case Greater => 6
  }

  /** No more spaces stand before a token than are gone when it is looked for. */
  predicate Fits(e: Cond) {
    match e
    case Not(sp, x) => sp <= 1 && Fits(x)
    case Group(sp, inner, sp2) => sp <= 2 && Fits(inner) && sp2 <= Eaten(inner, Ternary) + 1
    case Name(sp, _, _) => sp <= 3
    case Number(sp, _) => sp <= 4
    case Sum(l, sp, minus, r) => Fits(l) && Fits(r) && sp <= (if minus then 2 else 1)
    case Shift(l, sp, toRight, r) => Fits(l) && Fits(r) && sp <= Eaten(l, Additive) + (if toRight then 2 else 1)
    case Compare(l, sp, op, r) => Fits(l) && Fits(r) && sp <= Eaten(l, Shifting) + Order(op)
    case Both(l, sp, r) => Fits(l) && Fits(r) && sp <= Eaten(l, And)
    case Either(l, sp, r) => Fits(l) && Fits(r) && sp <= Eaten(l, Or)
    case Choice(c, sp, t, sp2, f) =>
      Fits(c) && Fits(t) && Fits(f) && sp <= Eaten(c, Or) + 1 && sp2 <= Eaten(t, Or) + 1
  }
}

/** The evaluator as functions of the tokens still to be read. */
module CondParsing {
  import opened Wrappers
  import opened Integers
  import opened PpTokens
  import opened Conditions

  type Reading = Option<(int, seq<Token>)>

  /** Without the space at the front, if there is one. */
  function Skip(ts: seq<Token>): seq<Token> {
    if ts != [] && ts[0] == Whitespace then ts[1..] else ts
  }

  /** A whitespace token goes even when the operator is not there. */
  function EatOp(ts: seq<Token>, c: char): (r: (bool, seq<Token>))
    ensures |r.1| <= |ts| && (r.0 ==> |r.1| < |ts|)
  {
    var s := Skip(ts);
    if s != [] && s[0] == Punct(c) then (true, s[1..]) else (false, s)
  }

  function EatOp2(ts: seq<Token>, a: char, b: char): (r: (bool, seq<Token>))
    ensures |r.1| <= |ts| && (r.0 ==> |r.1| < |ts|)
  {
    var s := Skip(ts);
    if |s| >= 2 && s[0] == Punct(a) && s[1] == Punct(b) then (true, s[2..]) else (false, s)
  }

  function EatIdent(ts: seq<Token>): (r: (Option<string>, seq<Token>))
    ensures |r.1| <= |ts| && (r.0.Some? ==> |r.1| < |ts|)
  {
    var s := Skip(ts);
    if s != [] && s[0].Ident? then (Some(s[0].name), s[1..]) else (None, s)
  }

  function EatLit(ts: seq<Token>): (r: (Option<string>, seq<Token>))
    ensures |r.1| <= |ts| && (r.0.Some? ==> |r.1| < |ts|)
  {
    var s := Skip(ts);
    if s != [] && s[0].Literal? then (Some(s[0].text), s[1..]) else (None, s)
  }

  function ReadPrimary(ts: seq<Token>): (r: Reading)
    ensures r.Some? ==> |r.value.1| < |ts|
    decreases |ts|, 0
  {
    var (open, t1) := EatOp(ts, '(');
    if open then
      match ReadTernary(t1)
      case None => None
      case Some((v, t2)) =>
        var (close, t3) := EatOp(t2, ')');
        if close then Some((v, t3)) else None
    else
      var (name, t2) := EatIdent(t1);
      if name.Some? then Some((Truth(name.value == "true"), t2))
      else
        var (lit, t3) := EatLit(t2);
        if lit.None? || LiteralValue(lit.value).None? then None
        else Some((LiteralValue(lit.value).value, t3))
  }

  function ReadUnary(ts: seq<Token>): (r: Reading)
    ensures r.Some? ==> |r.value.1| < |ts|
    decreases |ts|, 1
  {
    var (bang, t1) := EatOp(ts, '!');
    if bang then
      match ReadUnary(t1)
      case None => None
      case Some((v, t2)) => Some((Truth(v == 0), t2))
    else ReadPrimary(t1)
  }

  function ReadAdditive(ts: seq<Token>): (r: Reading)
    ensures r.Some? ==> |r.value.1| < |ts|
    decreases |ts|, 2
  {
    match ReadUnary(ts)
    case None => None
    case Some((v, t1)) => MoreTerms(v, t1)
  }

  function EatSign(ts: seq<Token>): (r: (Option<bool>, seq<Token>))
    ensures |r.1| <= |ts| && (r.0.Some? ==> |r.1| < |ts|)
  {
    var (plus, t1) := EatOp(ts, '+');
    if plus then (Some(false), t1)
    else
      var (minus, t2) := EatOp(t1, '-');
      (if minus then Some(true) else None, t2)
  }

  function MoreTerms(v: int, ts: seq<Token>): (r: Reading)
    ensures r.Some? ==> |r.value.1| <= |ts|
    decreases |ts|, 2
  {
    var (sign, t1) := EatSign(ts);
    if sign.None? then Some((v, t1))
    else
      match ReadUnary(t1)
      case None => None
      case Some((w, t2)) =>
        match Checked(if sign.value then v - w else v + w)
        case None => None
        case Some(x) => MoreTerms(x, t2)
  }

  function EatShift(ts: seq<Token>): (r: (Option<bool>, seq<Token>))
    ensures |r.1| <= |ts| && (r.0.Some? ==> |r.1| < |ts|)
  {
    var (left, t1) := EatOp2(ts, '<', '<');
    if left then (Some(false), t1)
    else
      var (right, t2) := EatOp2(t1, '>', '>');
      (if right then Some(true) else None, t2)
  }

  function ReadShift(ts: seq<Token>): (r: Reading)
    ensures r.Some? ==> |r.value.1| < |ts|
    decreases |ts|, 3
  {
    match ReadAdditive(ts)
    case None => None
    case Some((v, t1)) =>
      var (toRight, t2) := EatShift(t1);
      if toRight.None? then Some((v, t2))
      else
        match ReadAdditive(t2)
        case None => None
        case Some((n, t3)) =>
          match (if toRight.value then ShiftRight(v, n) else ShiftLeft(v, n))
          case None => None
          case Some(x) => Some((x, t3))
  }

  function EatCompare(ts: seq<Token>): (r: (Option<CompareOp>, seq<Token>))
    ensures |r.1| <= |ts| && (r.0.Some? ==> |r.1| < |ts|)
  {
    var (eq, t1) := EatOp2(ts, '=', '=');
    if eq then (Some(Equal), t1)
    else
      var (ne, t2) := EatOp2(t1, '!', '=');
      if ne then (Some(NotEqual), t2)
      else
        var (le, t3) := EatOp2(t2, '<', '=');
        if le then (Some(LessEqual), t3)
        else
          var (ge, t4) := EatOp2(t3, '>', '=');
          if ge then (Some(GreaterEqual), t4)
          else
            var (lt, t5) := EatOp(t4, '<');
            if lt then (Some(Less), t5)
            else
              var (gt, t6) := EatOp(t5, '>');
              (if gt then Some(Greater) else None, t6)
  }

  function ReadRelational(ts: seq<Token>): (r: Reading)
    ensures r.Some? ==> |r.value.1| < |ts|
    decreases |ts|, 4
  {
    match ReadShift(ts)
    case None => None
    case Some((v, t1)) =>
      var (op, t2) := EatCompare(t1);
      if op.None? then Some((v, t2))
      else
        match ReadShift(t2)
        case None => None
        case Some((w, t3)) => Some((CompareValues(op.value, v, w), t3))
  }

  function ReadAnd(ts: seq<Token>): (r: Reading)
    ensures r.Some? ==> |r.value.1| < |ts|
    decreases |ts|, 5
  {
    match ReadRelational(ts)
    case None => None
    case Some((v, t1)) => MoreAnds(v, t1)
  }

  function MoreAnds(v: int, ts: seq<Token>): (r: Reading)
    ensures r.Some? ==> |r.value.1| <= |ts|
    decreases |ts|, 5
  {
    var (more, t1) := EatOp2(ts, '&', '&');
    if !more then Some((v, t1))
    else
      match ReadRelational(t1)
      case None => None
      case Some((w, t2)) => MoreAnds(Truth(v != 0 && w != 0), t2)
  }

  function ReadOr(ts: seq<Token>): (r: Reading)
    ensures r.Some? ==> |r.value.1| < |ts|
    decreases |ts|, 6
  {
    match ReadAnd(ts)
    case None => None
    case Some((v, t1)) => MoreOrs(v, t1)
  }

  function MoreOrs(v: int, ts: seq<Token>): (r: Reading)
    ensures r.Some? ==> |r.value.1| <= |ts|
    decreases |ts|, 6
  {
    var (more, t1) := EatOp2(ts, '|', '|');
    if !more then Some((v, t1))
    else
      match ReadAnd(t1)
      case None => None
      case Some((w, t2)) => MoreOrs(Truth(v != 0 || w != 0), t2)
  }

  function ReadTernary(ts: seq<Token>): (r: Reading)
    ensures r.Some? ==> |r.value.1| < |ts|
    decreases |ts|, 7
  {
    match ReadOr(ts)
    case None => None
    case Some((v, t1)) =>
      var (question, t2) := EatOp(t1, '?');
      if !question then Some((v, t2))
      else
        match ReadOr(t2)
        case None => None
        case Some((thn, t3)) =>
          var (colon, t4) := EatOp(t3, ':');
          if !colon then None
          else
            match ReadOr(t4)
            case None => None
            case Some((els, t5)) => Some((if v != 0 then thn else els, t5))
  }

  /** Whether the condition holds: it must have a value other than 0 and be all there is. */
  predicate Holds(ts: seq<Token>) {
    match ReadTernary(ts)
    case None => false
    case Some((v, rest)) => v != 0 && rest == []
  }
}

/** The evaluator as the preprocessor has it: an object that moves along the tokens.
    Every method does what the function of the same purpose in `CondParsing` says. */
module CondEvaluator {
  import opened Wrappers
  import opened Integers
  import opened PpTokens
  import opened Conditions
  import opened CondParsing

  class CondEval {
    var tokens: seq<Token>

    constructor (ts: seq<Token>)
      ensures tokens == ts
    {
      tokens := ts;
    }

    /** What a method that can fail has done; after a failure nothing is said of the
        tokens left. */
    ghost predicate Did(v: Option<int>, spec: Reading)
      reads this
    {
      match v
      case None => spec == None
      case Some(x) => spec == Some((x, tokens))
    }

    method Eat(t: Token) returns (ok: bool)
      modifies this
      ensures ok == (old(tokens) != [] && old(tokens)[0] == t)
      ensures tokens == if ok then old(tokens)[1..] else old(tokens)
    {
      ok := tokens != [] && tokens[0] == t;
      if ok {
        tokens := tokens[1..];
      }
    }

    method EatOperator(c: char) returns (ok: bool)
      modifies this
      ensures (ok, tokens) == EatOp(old(tokens), c)
    {
      var _ := Eat(Whitespace);
      ok := Eat(Punct(c));
    }

    method EatOperator2(a: char, b: char) returns (ok: bool)
      modifies this
      ensures (ok, tokens) == EatOp2(old(tokens), a, b)
    {
      var _ := Eat(Whitespace);
      ok := |tokens| >= 2 && tokens[0] == Punct(a) && tokens[1] == Punct(b);
      if ok {
        tokens := tokens[2..];
      }
    }

    method EatName() returns (name: Option<string>)
      modifies this
      ensures (name, tokens) == EatIdent(old(tokens))
    {
      var _ := Eat(Whitespace);
      if tokens != [] && tokens[0].Ident? {
        name := Some(tokens[0].name);
        tokens := tokens[1..];
      } else {
        name := None;
      }
    }

    method EatLiteral() returns (lit: Option<string>)
      modifies this
      ensures (lit, tokens) == EatLit(old(tokens))
    {
      var _ := Eat(Whitespace);
      if tokens != [] && tokens[0].Literal? {
        lit := Some(tokens[0].text);
        tokens := tokens[1..];
      } else {
        lit := None;
      }
    }

    method Primary() returns (v: Option<int>)
      modifies this
      ensures Did(v, ReadPrimary(old(tokens)))
      decreases |tokens|, 0
    {
      var open := EatOperator('(');
      if open {
        v := TernaryExpr();
        if v.Some? {
          var close := EatOperator(')');
          v := if close then v else None;
        }
        return;
      }
      var name := EatName();
      if name.Some? {
        return Some(if name.value == "true" then 1 else 0);
      }
      var lit := EatLiteral();
      v := if lit.Some? then LiteralValue(lit.value) else None;
    }

    method UnaryExpr() returns (v: Option<int>)
      modifies this
      ensures Did(v, ReadUnary(old(tokens)))
      decreases |tokens|, 1
    {
      var bang := EatOperator('!');
      if bang {
        v := UnaryExpr();
        v := if v.Some? then Some(Truth(v.value == 0)) else None;
      } else {
        v := Primary();
      }
    }

    method AdditiveExpr() returns (v: Option<int>)
      modifies this
      ensures Did(v, ReadAdditive(old(tokens)))
      decreases |tokens|, 2
    {
      ghost var spec := ReadAdditive(tokens);
      v := UnaryExpr();
      while v.Some?
        invariant v.Some? ==> |tokens| < |old(tokens)| && spec == MoreTerms(v.value, tokens)
        invariant v.None? ==> spec == None
        decreases |tokens|, v.Some?
      {
        var plus := EatOperator('+');
        var minus := false;
        if !plus {
          minus := EatOperator('-');
          if !minus {
            return;
          }
        }
        var w := UnaryExpr();
        v := if w.None? then None else Checked(if minus then v.value - w.value else v.value + w.value);
        if v.None? {
          return;
        }
      }
    }

    method ShiftExpr() returns (v: Option<int>)
      modifies this
      ensures Did(v, ReadShift(old(tokens)))
      decreases |tokens|, 3
    {
      v := AdditiveExpr();
      if v.None? {
        return;
      }
      var left := EatOperator2('<', '<');
      var right := false;
      if !left {
        right := EatOperator2('>', '>');
      }
      if left || right {
        var n := AdditiveExpr();
        v := if n.None? then None
             else if left then ShiftLeft(v.value, n.value) else ShiftRight(v.value, n.value);
      }
    }

    method CompareOperator() returns (op: Option<CompareOp>)
      modifies this
      ensures (op, tokens) == EatCompare(old(tokens))
    {
      var ok := EatOperator2('=', '=');
      if ok { return Some(Equal); }
      ok := EatOperator2('!', '=');
      if ok { return Some(NotEqual); }
      ok := EatOperator2('<', '=');
      if ok { return Some(LessEqual); }
      ok := EatOperator2('>', '=');
      if ok { return Some(GreaterEqual); }
      ok := EatOperator('<');
      if ok { return Some(Less); }
      ok := EatOperator('>');
      op := if ok then Some(Greater) else None;
    }

    method RelationalExpr() returns (v: Option<int>)
      modifies this
      ensures Did(v, ReadRelational(old(tokens)))
      decreases |tokens|, 4
    {
      v := ShiftExpr();
      if v.None? {
        return;
      }
      var op := CompareOperator();
      if op.Some? {
        var w := ShiftExpr();
        v := if w.None? then None else Some(CompareValues(op.value, v.value, w.value));
      }
    }

    method LogicalAnd() returns (v: Option<int>)
      modifies this
      ensures Did(v, ReadAnd(old(tokens)))
      decreases |tokens|, 5
    {
      ghost var spec := ReadAnd(tokens);
      v := RelationalExpr();
      while v.Some?
        invariant v.Some? ==> |tokens| < |old(tokens)| && spec == MoreAnds(v.value, tokens)
        invariant v.None? ==> spec == None
        decreases |tokens|, v.Some?
      {
        var more := EatOperator2('&', '&');
        if !more {
          return;
        }
        var w := RelationalExpr();
        v := if w.None? then None else Some(Truth(v.value != 0 && w.value != 0));
        if v.None? {
          return;
        }
      }
    }

    method LogicalOr() returns (v: Option<int>)
      modifies this
      ensures Did(v, ReadOr(old(tokens)))
      decreases |tokens|, 6
    {
      ghost var spec := ReadOr(tokens);
      v := LogicalAnd();
      while v.Some?
        invariant v.Some? ==> |tokens| < |old(tokens)| && spec == MoreOrs(v.value, tokens)
        invariant v.None? ==> spec == None
        decreases |tokens|, v.Some?
      {
        var more := EatOperator2('|', '|');
        if !more {
          return;
        }
        var w := LogicalAnd();
        v := if w.None? then None else Some(Truth(v.value != 0 || w.value != 0));
        if v.None? {
          return;
        }
      }
    }

    method TernaryExpr() returns (v: Option<int>)
      modifies this
      ensures Did(v, ReadTernary(old(tokens)))
      decreases |tokens|, 7
    {
      v := LogicalOr();
      if v.None? {
        return;
      }
      var question := EatOperator('?');
      if question {
        var thn := LogicalOr();
        if thn.None? {
          return None;
        }
        var colon := EatOperator(':');
        if !colon {
          return None;
        }
        var els := LogicalOr();
        v := if els.None? then None else Some(if v.value != 0 then thn.value else els.value);
      }
    }

    method Eval() returns (holds: bool)
      modifies this
      ensures holds == Holds(old(tokens))
    {
      var v := TernaryExpr();
      holds := v.Some? && v.value != 0 && tokens == [];
    }
  }
}
