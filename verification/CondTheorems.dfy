/** The `#if` evaluator computes the value of the condition it reads, and reads exactly
    the conditions with few enough spaces in them. */
module CondTheorems {
  import opened Wrappers
  import opened Integers
  import opened PpTokens
  import opened Conditions
  import opened CondParsing

  // ---------- spaces ----------

  /** How many spaces stand at the front. */
  function Lead(ts: seq<Token>): (n: nat)
    ensures n <= |ts|
  {
    if ts != [] && ts[0] == Whitespace then 1 + Lead(ts[1..]) else 0
  }

  function Bare(ts: seq<Token>): seq<Token> {
    ts[Lead(ts)..]
  }

  /** Without its first spaces, at most `n` of them. */
  function Drop(ts: seq<Token>, n: nat): seq<Token> {
    ts[if n <= Lead(ts) then n else Lead(ts)..]
  }

  function Left(n: nat, gone: nat): nat {
    if n <= gone then 0 else n - gone
  }

  predicate Firm(s: seq<Token>) {
    s != [] ==> s[0] != Whitespace
  }

  lemma {:induction false} BareIsFirm(ts: seq<Token>)
    ensures Firm(Bare(ts)) && ts == Sp(Lead(ts), Bare(ts))
    decreases |ts|
  {
    if Lead(ts) > 0 {
      BareIsFirm(ts[1..]);
      assert ts == [Whitespace] + ts[1..];
    }
  }

  lemma {:induction false} SpLead(n: nat, s: seq<Token>)
    requires Firm(s)
    ensures Lead(Sp(n, s)) == n && Bare(Sp(n, s)) == s
    decreases n
  {
    if n > 0 {
      SpLead(n - 1, s);
      assert Sp(n, s)[1..] == Sp(n - 1, s);
    }
  }

  lemma {:induction false} LeadBehind(ts: seq<Token>, k: nat)
    requires k <= Lead(ts)
    ensures Lead(ts[k..]) == Lead(ts) - k && Bare(ts[k..]) == Bare(ts)
    decreases k
  {
    if k > 0 {
      LeadBehind(ts[1..], k - 1);
      assert ts[1..][k - 1..] == ts[k..];
    }
  }

  lemma {:induction false} DropIs(ts: seq<Token>, n: nat)
    ensures Lead(Drop(ts, n)) == Left(Lead(ts), n) && Bare(Drop(ts, n)) == Bare(ts)
  {
    LeadBehind(ts, if n <= Lead(ts) then n else Lead(ts));
  }

  lemma {:induction false} DropDrop(ts: seq<Token>, a: nat, b: nat)
    ensures Drop(Drop(ts, a), b) == Drop(ts, a + b)
  {
    DropIs(ts, a);
  }

  lemma {:induction false} DropSp(n: nat, s: seq<Token>, k: nat)
    requires Firm(s)
    ensures Drop(Sp(n, s), k) == Sp(Left(n, k), s)
  {
    SpLead(n, s);
    DropIs(Sp(n, s), k);
    BareIsFirm(Drop(Sp(n, s), k));
  }

  // ---------- what is seen behind how many spaces ----------

  predicate Op1(s: seq<Token>, c: char) {
    s != [] && s[0] == Punct(c)
  }

  predicate Op2(s: seq<Token>, a: char, b: char) {
    |s| >= 2 && s[0] == Punct(a) && s[1] == Punct(b)
  }

  predicate OpAt(ts: seq<Token>, c: char) {
    Lead(ts) <= 1 && Op1(Bare(ts), c)
  }

  predicate PairAt(ts: seq<Token>, a: char, b: char) {
    Lead(ts) <= 1 && Op2(Bare(ts), a, b)
  }

  function SignAt(ts: seq<Token>): Option<bool> {
    if Lead(ts) <= 1 && Op1(Bare(ts), '+') then Some(false)
    else if Lead(ts) <= 2 && Op1(Bare(ts), '-') then Some(true)
    else None
  }

  function ShiftAt(ts: seq<Token>): Option<bool> {
    if Lead(ts) <= 1 && Op2(Bare(ts), '<', '<') then Some(false)
    else if Lead(ts) <= 2 && Op2(Bare(ts), '>', '>') then Some(true)
    else None
  }

  function CompareAt(ts: seq<Token>): Option<CompareOp> {
    if Lead(ts) <= 1 && Op2(Bare(ts), '=', '=') then Some(Equal)
    else if Lead(ts) <= 2 && Op2(Bare(ts), '!', '=') then Some(NotEqual)
    else if Lead(ts) <= 3 && Op2(Bare(ts), '<', '=') then Some(LessEqual)
    else if Lead(ts) <= 4 && Op2(Bare(ts), '>', '=') then Some(GreaterEqual)
    else if Lead(ts) <= 5 && Op1(Bare(ts), '<') then Some(Less)
    else if Lead(ts) <= 6 && Op1(Bare(ts), '>') then Some(Greater)
    else None
  }

  function Width(op: CompareOp): nat {
    if op == Less || op == Greater then 1 else 2
  }

  lemma {:induction false} SkipIs(ts: seq<Token>)
    ensures Skip(ts) == Drop(ts, 1)
    ensures Lead(ts) <= 1 ==> Skip(ts) == Bare(ts)
    ensures Lead(ts) > 1 ==> Skip(ts) != [] && Skip(ts)[0] == Whitespace
  {
    if ts != [] && ts[0] == Whitespace {
      assert Lead(ts) == 1 + Lead(ts[1..]);
    }
  }

  lemma {:induction false} EatOpIs(ts: seq<Token>, c: char)
    ensures EatOp(ts, c) == (OpAt(ts, c), if OpAt(ts, c) then Bare(ts)[1..] else Drop(ts, 1))
  {
    SkipIs(ts);
  }

  lemma {:induction false} EatOp2Is(ts: seq<Token>, a: char, b: char)
    ensures EatOp2(ts, a, b) == (PairAt(ts, a, b), if PairAt(ts, a, b) then Bare(ts)[2..] else Drop(ts, 1))
  {
    SkipIs(ts);
  }

  lemma {:induction false} EatSignIs(ts: seq<Token>)
    ensures EatSign(ts) == (SignAt(ts), if SignAt(ts).Some? then Bare(ts)[1..] else Drop(ts, 2))
  {
    hide EatOp, Lead, Bare, Drop;
    EatOpIs(ts, '+');
    EatOpIs(Drop(ts, 1), '-');
    DropIs(ts, 1);
    DropDrop(ts, 1, 1);
  }

  lemma {:induction false} EatShiftIs(ts: seq<Token>)
    ensures EatShift(ts) == (ShiftAt(ts), if ShiftAt(ts).Some? then Bare(ts)[2..] else Drop(ts, 2))
  {
    hide EatOp2, Lead, Bare, Drop;
    EatOp2Is(ts, '<', '<');
    EatOp2Is(Drop(ts, 1), '>', '>');
    DropIs(ts, 1);
    DropDrop(ts, 1, 1);
  }

  lemma {:induction false} EatCompareIs(ts: seq<Token>)
    ensures EatCompare(ts) == (CompareAt(ts), if CompareAt(ts).Some? then Bare(ts)[Width(CompareAt(ts).value)..] else Drop(ts, 6))
  {
    hide EatOp, EatOp2, Lead, Bare, Drop;
    EatOp2Is(ts, '=', '=');
    Dropped(ts, 1);
    EatOp2Is(Drop(ts, 1), '!', '=');
    Dropped(ts, 2);
    EatOp2Is(Drop(ts, 2), '<', '=');
    Dropped(ts, 3);
    EatOp2Is(Drop(ts, 3), '>', '=');
    Dropped(ts, 4);
    EatOpIs(Drop(ts, 4), '<');
    Dropped(ts, 5);
    EatOpIs(Drop(ts, 5), '>');
    Dropped(ts, 6);
  }

  lemma {:induction false} Dropped(ts: seq<Token>, n: nat)
    ensures Lead(Drop(ts, n)) == Left(Lead(ts), n) && Bare(Drop(ts, n)) == Bare(ts)
    ensures n > 0 ==> Drop(Drop(ts, n - 1), 1) == Drop(ts, n)
  {
    DropIs(ts, n);
    if n > 0 {
      DropDrop(ts, n - 1, 1);
    }
  }

  /** An operator behind few enough spaces is taken. */
  lemma {:induction false} OpTaken(n: nat, c: char, t: seq<Token>)
    requires n <= 1
    ensures EatOp(Sp(n, [Punct(c)] + t), c) == (true, t)
  {
    SpLead(n, [Punct(c)] + t);
    EatOpIs(Sp(n, [Punct(c)] + t), c);
  }

  lemma {:induction false} PairTaken(n: nat, a: char, b: char, t: seq<Token>)
    requires n <= 1
    ensures EatOp2(Sp(n, [Punct(a), Punct(b)] + t), a, b) == (true, t)
  {
    SpLead(n, [Punct(a), Punct(b)] + t);
    EatOp2Is(Sp(n, [Punct(a), Punct(b)] + t), a, b);
  }

  lemma {:induction false} SignTaken(n: nat, minus: bool, t: seq<Token>)
    requires n <= if minus then 2 else 1
    ensures EatSign(Sp(n, [Punct(if minus then '-' else '+')] + t)) == (Some(minus), t)
  {
    var s := [Punct(if minus then '-' else '+')] + t;
    SpLead(n, s);
    EatSignIs(Sp(n, s));
  }

  lemma {:induction false} ShiftTaken(n: nat, toRight: bool, t: seq<Token>)
    requires n <= if toRight then 2 else 1
    ensures var c := Punct(if toRight then '>' else '<'); EatShift(Sp(n, [c, c] + t)) == (Some(toRight), t)
  {
    var c := Punct(if toRight then '>' else '<');
    SpLead(n, [c, c] + t);
    EatShiftIs(Sp(n, [c, c] + t));
  }

  lemma {:induction false} CompareTaken(n: nat, op: CompareOp, t: seq<Token>)
    requires n <= Order(op) && !Op1(t, '=')
    ensures EatCompare(Sp(n, CompareTokens(op, t))) == (Some(op), t)
  {
    hide EatCompare;
    var s := CompareTokens(op, t);
    assert s[Width(op)..] == t;
    SpLead(n, s);
    EatCompareIs(Sp(n, s));
  }

  // ---------- what stops a condition ----------

  /** Nothing behind `e` is taken by what looks for operators of level `k` or above. */
  predicate Stops(e: Cond, k: Level, rest: seq<Token>)
    decreases e, 6 - Rank(k)
  {
    match k
    case Unary => true
    case Additive => SignAt(rest).None?
    case Shifting => SignAt(rest).None? && (!e.Shift? ==> ShiftAt(Drop(rest, 2)).None?)
    case Relation =>
      if e.Compare? then Stops(e.right, Shifting, rest)
      else Stops(e, Shifting, rest) && CompareAt(Drop(rest, Eaten(e, Shifting))).None?
    case And =>
      var last := if e.Both? then e.right else e;
      Stops(last, Relation, rest) && !PairAt(Drop(rest, Eaten(last, Relation)), '&', '&')
    case Or =>
      var last := if e.Either? then e.right else e;
      Stops(last, And, rest) && !PairAt(Drop(rest, Eaten(last, And)), '|', '|')
    case Ternary =>
      if e.Choice? then Stops(e.els, Or, rest)
      else Stops(e, Or, rest) && !OpAt(Drop(rest, Eaten(e, Or)), '?')
  }

  /** `s` does not start with an operator of level `k` or above. */
  predicate Foreign(s: seq<Token>, k: Level) {
    && !Op1(s, '+') && !Op1(s, '-')
    && (Rank(k) <= Rank(Shifting) ==> !Op2(s, '<', '<') && !Op2(s, '>', '>'))
    && (Rank(k) <= Rank(Relation) ==> !Op2(s, '=', '=') && !Op2(s, '!', '=') && !Op1(s, '<') && !Op1(s, '>'))
    && (Rank(k) <= Rank(And) ==> !Op2(s, '&', '&'))
    && (Rank(k) <= Rank(Or) ==> !Op2(s, '|', '|'))
    && (Rank(k) <= Rank(Ternary) ==> !Op1(s, '?'))
  }

  lemma {:induction false} ForeignStops(e: Cond, k: Level, rest: seq<Token>)
    requires Foreign(Bare(rest), k)
    ensures Stops(e, k, rest)
    decreases e, 6 - Rank(k)
  {
    hide Lead, Bare, Drop, Eaten;
    match k
    case Unary =>
    case Additive =>
    case Shifting => DropIs(rest, 2);
    case Relation =>
      if e.Compare? {
        ForeignStops(e.right, Shifting, rest);
      } else {
        ForeignStops(e, Shifting, rest);
        DropIs(rest, Eaten(e, Shifting));
      }
    case And =>
      var last := if e.Both? then e.right else e;
      ForeignStops(last, Relation, rest);
      DropIs(rest, Eaten(last, Relation));
    case Or =>
      var last := if e.Either? then e.right else e;
      ForeignStops(last, And, rest);
      DropIs(rest, Eaten(last, And));
    case Ternary =>
      if e.Choice? {
        ForeignStops(e.els, Or, rest);
      } else {
        ForeignStops(e, Or, rest);
        DropIs(rest, Eaten(e, Or));
      }
  }

  /** In front of a foreign `s`, whatever the spaces. */
  lemma {:induction false} StopsAt(e: Cond, k: Level, n: nat, s: seq<Token>)
    requires Firm(s) && Foreign(s, k)
    ensures Stops(e, k, Sp(n, s))
  {
    SpLead(n, s);
    ForeignStops(e, k, Sp(n, s));
  }

  /** What reading `e` should give when `rest` is left. */
  function Meaning(e: Cond, rest: seq<Token>): Reading {
    if Value(e).None? then None else Some((Value(e).value, rest))
  }

  predicate Start(s: seq<Token>) {
    s != [] && (s[0] == Punct('(') || s[0] == Punct('!') || s[0].Ident? || s[0].Literal?)
  }

  /** An expression starts with `(`, `!`, a name or a literal. */
  lemma {:induction false} StartOf(e: Cond, rest: seq<Token>)
    ensures Start(Bare(Spell(e, rest)))
    decreases e
  {
    match e
    case Sum(l, sp, minus, r) => StartOf(l, Sp(sp, [Punct(if minus then '-' else '+')] + Spell(r, rest)));
    case Shift(l, sp, toRight, r) =>
      var c := Punct(if toRight then '>' else '<');
      StartOf(l, Sp(sp, [c, c] + Spell(r, rest)));
    case Compare(l, sp, op, r) => StartOf(l, Sp(sp, CompareTokens(op, Spell(r, rest))));
    case Both(l, sp, r) => StartOf(l, Sp(sp, [Punct('&'), Punct('&')] + Spell(r, rest)));
    case Either(l, sp, r) => StartOf(l, Sp(sp, [Punct('|'), Punct('|')] + Spell(r, rest)));
    case Choice(c, sp, t, sp2, f) =>
      StartOf(c, Sp(sp, [Punct('?')] + Spell(t, Sp(sp2, [Punct(':')] + Spell(f, rest)))));
    case Not(sp, x) => SpLead(sp, [Punct('!')] + Spell(x, rest));
    case Group(sp, inner, sp2) => SpLead(sp, [Punct('(')] + Spell(inner, Sp(sp2, [Punct(')')] + rest)));
    case Name(sp, name, line) => SpLead(sp, [Ident(name, line)] + rest);
    case Number(sp, text) => SpLead(sp, [Literal(text)] + rest);
  }

  /** So its first token is no operator. */
  lemma {:induction false} FirstOf(e: Cond, rest: seq<Token>)
    ensures var s := Spell(e, rest); s != [] && (s[0] == Whitespace || Start(s))
  {
    StartOf(e, rest);
    if Lead(Spell(e, rest)) > 0 {
    }
  }

  // ---------- every condition is read for its value ----------

  lemma {:induction false} UnarySpelled(e: Cond, rest: seq<Token>)
    requires Respects(e) && Fits(e) && Binds(e, Unary)
    ensures ReadUnary(Spell(e, rest)) == Meaning(e, rest)
    decreases e, 0
  {
    hide ReadTernary, LiteralValue, EatOp, Lead, Bare, Drop, Sp;
    var ts := Spell(e, rest);
    if e.Not? {
      UnarySpelled(e.operand, rest);
      OpTaken(e.sp, '!', Spell(e.operand, rest));
    } else if e.Group? {
      var after := Sp(e.sp2, [Punct(')')] + rest);
      StopsAt(e.inner, Ternary, e.sp2, [Punct(')')] + rest);
      TernarySpelled(e.inner, after);
      DropSp(e.sp2, [Punct(')')] + rest, Eaten(e.inner, Ternary));
      OpTaken(Left(e.sp2, Eaten(e.inner, Ternary)), ')', rest);
      NoBang(e.sp, [Punct('(')] + Spell(e.inner, after));
      OpTaken(Left(e.sp, 1), '(', Spell(e.inner, after));
      GroupRead(e, ts, Spell(e.inner, after), Drop(after, Eaten(e.inner, Ternary)), rest);
    } else {
      AtomRead(e, rest);
    }
  }

  lemma {:induction false} NoBang(n: nat, s: seq<Token>)
    requires Firm(s) && !Op1(s, '!')
    ensures EatOp(Sp(n, s), '!') == (false, Sp(Left(n, 1), s))
  {
    SpLead(n, s);
    EatOpIs(Sp(n, s), '!');
    DropSp(n, s, 1);
  }

  lemma {:induction false} GroupRead(e: Cond, ts: seq<Token>, inside: seq<Token>, after: seq<Token>, rest: seq<Token>)
    requires e.Group? && !EatOp(ts, '!').0 && EatOp(EatOp(ts, '!').1, '(') == (true, inside)
    requires ReadTernary(inside) == Meaning(e.inner, after) && EatOp(after, ')') == (true, rest)
    ensures ReadUnary(ts) == Meaning(e, rest)
  {
    hide ReadTernary, EatOp;
  }

  lemma {:induction false} AtomRead(e: Cond, rest: seq<Token>)
    requires Fits(e) && (e.Name? || e.Number?)
    ensures ReadUnary(Spell(e, rest)) == Meaning(e, rest)
  {
    hide EatOp, Lead, Bare, Drop, Sp, LiteralValue;
    var s := [if e.Name? then Ident(e.name, e.line) else Literal(e.text)] + rest;
    assert s[1..] == rest;
    NoBang(e.sp, s);
    var n := Left(e.sp, 1);
    SpLead(n, s);
    EatOpIs(Sp(n, s), '(');
    DropSp(n, s, 1);
    var m := Left(n, 1);
    SpLead(m, s);
    SkipIs(Sp(m, s));
    DropSp(m, s, 1);
    var k := Left(m, 1);
    SpLead(k, s);
    SkipIs(Sp(k, s));
  }

  lemma {:induction false} AdditiveSpelled(e: Cond, rest: seq<Token>)
    requires Respects(e) && Fits(e) && Binds(e, Additive)
    ensures ReadAdditive(Spell(e, rest)) == if Value(e).None? then None else MoreTerms(Value(e).value, rest)
    decreases e, 1
  {
    if e.Sum? {
      var tail := [Punct(if e.minus then '-' else '+')] + Spell(e.right, rest);
      AdditiveSpelled(e.left, Sp(e.sp, tail));
      UnarySpelled(e.right, rest);
      SignTaken(e.sp, e.minus, Spell(e.right, rest));
      SumRead(e, Spell(e, rest), Sp(e.sp, tail), Spell(e.right, rest), rest);
    } else {
      UnarySpelled(e, rest);
    }
  }

  lemma {:induction false} SumRead(e: Cond, ts: seq<Token>, after: seq<Token>, t1: seq<Token>, rest: seq<Token>)
    requires e.Sum? && EatSign(after) == (Some(e.minus), t1)
    requires ReadAdditive(ts) == if Value(e.left).None? then None else MoreTerms(Value(e.left).value, after)
    requires ReadUnary(t1) == Meaning(e.right, rest)
    ensures ReadAdditive(ts) == if Value(e).None? then None else MoreTerms(Value(e).value, rest)
  {
    hide ReadUnary, ReadAdditive, EatSign;
  }

  lemma {:induction false} SumsSpelled(e: Cond, rest: seq<Token>)
    requires Respects(e) && Fits(e) && Binds(e, Additive) && Stops(e, Additive, rest)
    ensures ReadAdditive(Spell(e, rest)) == Meaning(e, Drop(rest, 2))
    decreases e, 2
  {
    hide EatSign, Drop, Lead;
    AdditiveSpelled(e, rest);
    EatSignIs(rest);
  }

  lemma {:induction false} ShiftSpelled(e: Cond, rest: seq<Token>)
    requires Respects(e) && Fits(e) && Binds(e, Shifting) && Stops(e, Shifting, rest)
    ensures ReadShift(Spell(e, rest)) == Meaning(e, Drop(rest, Eaten(e, Shifting)))
    decreases e, 3
  {
    hide ReadAdditive, LiteralValue, ShiftLeft, ShiftRight, EatShift, Drop, Lead, Bare, Sp;
    if e.Shift? {
      var c := Punct(if e.toRight then '>' else '<');
      var tail := [c, c] + Spell(e.right, rest);
      StopsAt(e.left, Additive, e.sp, tail);
      SumsSpelled(e.left, Sp(e.sp, tail));
      SumsSpelled(e.right, rest);
      DropSp(e.sp, tail, 2);
      ShiftTaken(Left(e.sp, 2), e.toRight, Spell(e.right, rest));
    } else {
      SumsSpelled(e, rest);
      EatShiftIs(Drop(rest, 2));
      DropDrop(rest, 2, 2);
    }
  }

  lemma {:induction false} RelationalSpelled(e: Cond, rest: seq<Token>)
    requires Respects(e) && Fits(e) && Binds(e, Relation) && Stops(e, Relation, rest)
    ensures ReadRelational(Spell(e, rest)) == Meaning(e, Drop(rest, Eaten(e, Relation)))
    decreases e, 4
  {
    hide ReadShift, LiteralValue, EatCompare, Drop, Lead, Bare, Sp;
    if e.Compare? {
      var right := Spell(e.right, rest);
      var tail := CompareTokens(e.op, right);
      FirstOf(e.right, rest);
      StopsAt(e.left, Shifting, e.sp, tail);
      ShiftSpelled(e.left, Sp(e.sp, tail));
      ShiftSpelled(e.right, rest);
      DropSp(e.sp, tail, Eaten(e.left, Shifting));
      CompareTaken(Left(e.sp, Eaten(e.left, Shifting)), e.op, right);
    } else {
      ShiftSpelled(e, rest);
      EatCompareIs(Drop(rest, Eaten(e, Shifting)));
      DropDrop(rest, Eaten(e, Shifting), 6);
    }
  }

  function LastAnd(e: Cond): Cond {
    if e.Both? then e.right else e
  }

  lemma {:induction false} AndSpelled(e: Cond, rest: seq<Token>)
    requires Respects(e) && Fits(e) && Binds(e, And) && Stops(LastAnd(e), Relation, rest)
    ensures ReadAnd(Spell(e, rest)) ==
            if Value(e).None? then None else MoreAnds(Value(e).value, Drop(rest, Eaten(LastAnd(e), Relation)))
    decreases e, 5
  {
    hide ReadRelational, LiteralValue, EatOp2, Drop, Lead, Bare, Sp, Stops;
    if e.Both? {
      var tail := [Punct('&'), Punct('&')] + Spell(e.right, rest);
      StopsAt(LastAnd(e.left), Relation, e.sp, tail);
      AndSpelled(e.left, Sp(e.sp, tail));
      RelationalSpelled(e.right, rest);
      var gone := Eaten(LastAnd(e.left), Relation);
      DropSp(e.sp, tail, gone);
      PairTaken(Left(e.sp, gone), '&', '&', Spell(e.right, rest));
    } else {
      RelationalSpelled(e, rest);
    }
  }

  lemma {:induction false} AndsSpelled(e: Cond, rest: seq<Token>)
    requires Respects(e) && Fits(e) && Binds(e, And) && Stops(e, And, rest)
    ensures ReadAnd(Spell(e, rest)) == Meaning(e, Drop(rest, Eaten(e, And)))
    decreases e, 6
  {
    hide EatOp2, Drop, Lead;
    AndSpelled(e, rest);
    var gone := Eaten(LastAnd(e), Relation);
    EatOp2Is(Drop(rest, gone), '&', '&');
    DropDrop(rest, gone, 1);
  }

  function LastOr(e: Cond): Cond {
    if e.Either? then e.right else e
  }

  lemma {:induction false} OrSpelled(e: Cond, rest: seq<Token>)
    requires Respects(e) && Fits(e) && Binds(e, Or) && Stops(LastOr(e), And, rest)
    ensures ReadOr(Spell(e, rest)) ==
            if Value(e).None? then None else MoreOrs(Value(e).value, Drop(rest, Eaten(LastOr(e), And)))
    decreases e, 7
  {
    hide ReadAnd, LiteralValue, EatOp2, Drop, Lead, Bare, Sp, Stops;
    if e.Either? {
      var tail := [Punct('|'), Punct('|')] + Spell(e.right, rest);
      StopsAt(LastOr(e.left), And, e.sp, tail);
      OrSpelled(e.left, Sp(e.sp, tail));
      AndsSpelled(e.right, rest);
      var gone := Eaten(LastOr(e.left), And);
      DropSp(e.sp, tail, gone);
      PairTaken(Left(e.sp, gone), '|', '|', Spell(e.right, rest));
    } else {
      AndsSpelled(e, rest);
    }
  }

  lemma {:induction false} OrsSpelled(e: Cond, rest: seq<Token>)
    requires Respects(e) && Fits(e) && Binds(e, Or) && Stops(e, Or, rest)
    ensures ReadOr(Spell(e, rest)) == Meaning(e, Drop(rest, Eaten(e, Or)))
    decreases e, 8
  {
    hide EatOp2, Drop, Lead;
    OrSpelled(e, rest);
    var gone := Eaten(LastOr(e), And);
    EatOp2Is(Drop(rest, gone), '|', '|');
    DropDrop(rest, gone, 1);
  }

  /** The evaluator reads a condition to its end, leaves what follows but for a number of
      spaces, and returns its value; it fails exactly when there is no value. */
  lemma {:induction false} TernarySpelled(e: Cond, rest: seq<Token>)
    requires Respects(e) && Fits(e) && Stops(e, Ternary, rest)
    ensures ReadTernary(Spell(e, rest)) == Meaning(e, Drop(rest, Eaten(e, Ternary)))
    decreases e, 9
  {
    hide ReadOr, LiteralValue, EatOp, Drop, Lead, Bare, Sp;
    if e.Choice? {
      var els := [Punct(':')] + Spell(e.els, rest);
      var thn := [Punct('?')] + Spell(e.thn, Sp(e.sp2, els));
      StopsAt(e.left, Or, e.sp, thn);
      OrsSpelled(e.left, Sp(e.sp, thn));
      StopsAt(e.thn, Or, e.sp2, els);
      OrsSpelled(e.thn, Sp(e.sp2, els));
      OrsSpelled(e.els, rest);
      var gone, gone2 := Eaten(e.left, Or), Eaten(e.thn, Or);
      DropSp(e.sp, thn, gone);
      OpTaken(Left(e.sp, gone), '?', Spell(e.thn, Sp(e.sp2, els)));
      DropSp(e.sp2, els, gone2);
      OpTaken(Left(e.sp2, gone2), ':', Spell(e.els, rest));
      ChoiceRead(e, Spell(e, rest), Sp(Left(e.sp, gone), thn), Spell(e.thn, Sp(e.sp2, els)),
                 Sp(Left(e.sp2, gone2), els), Spell(e.els, rest), Drop(rest, Eaten(e.els, Or)));
    } else {
      OrsSpelled(e, rest);
      EatOpIs(Drop(rest, Eaten(e, Or)), '?');
      DropDrop(rest, Eaten(e, Or), 1);
    }
  }

  lemma {:induction false} ChoiceRead(e: Cond, ts: seq<Token>, t1: seq<Token>, thn: seq<Token>, t2: seq<Token>,
                                      els: seq<Token>, rest: seq<Token>)
    requires e.Choice? && ReadOr(ts) == Meaning(e.left, t1) && EatOp(t1, '?') == (true, thn)
    requires ReadOr(thn) == Meaning(e.thn, t2) && EatOp(t2, ':') == (true, els)
    requires ReadOr(els) == Meaning(e.els, rest)
    ensures ReadTernary(ts) == Meaning(e, rest)
  {
    hide ReadOr, EatOp;
  }

  // ---------- whatever is read was a condition with that value ----------

  /** `ts` is `e` as written, with few enough spaces, and what is left of it is `mid`. */
  predicate Wrote(e: Cond, k: Level, ts: seq<Token>, mid: seq<Token>, v: int) {
    ts == Spell(e, mid) && Respects(e) && Fits(e) && Binds(e, k) && Value(e) == Some(v)
  }

  lemma {:induction false} Longer(e: Cond, rest: seq<Token>)
    ensures |Spell(e, rest)| > |rest|
    decreases e
  {
    match e
    case Sum(l, sp, minus, r) =>
      var tail := [Punct(if minus then '-' else '+')] + Spell(r, rest);
      Longer(r, rest);
      SpLonger(sp, tail);
      Longer(l, Sp(sp, tail));
    case Shift(l, sp, toRight, r) =>
      var c := Punct(if toRight then '>' else '<');
      Longer(r, rest);
      SpLonger(sp, [c, c] + Spell(r, rest));
      Longer(l, Sp(sp, [c, c] + Spell(r, rest)));
    case Compare(l, sp, op, r) =>
      Longer(r, rest);
      SpLonger(sp, CompareTokens(op, Spell(r, rest)));
      Longer(l, Sp(sp, CompareTokens(op, Spell(r, rest))));
    case Both(l, sp, r) =>
      var tail := [Punct('&'), Punct('&')] + Spell(r, rest);
      Longer(r, rest);
      SpLonger(sp, tail);
      Longer(l, Sp(sp, tail));
    case Either(l, sp, r) =>
      var tail := [Punct('|'), Punct('|')] + Spell(r, rest);
      Longer(r, rest);
      SpLonger(sp, tail);
      Longer(l, Sp(sp, tail));
    case Choice(c, sp, t, sp2, f) =>
      var els := Sp(sp2, [Punct(':')] + Spell(f, rest));
      Longer(f, rest);
      SpLonger(sp2, [Punct(':')] + Spell(f, rest));
      Longer(t, els);
      SpLonger(sp, [Punct('?')] + Spell(t, els));
      Longer(c, Sp(sp, [Punct('?')] + Spell(t, els)));
    case Not(sp, x) =>
      Longer(x, rest);
      SpLonger(sp, [Punct('!')] + Spell(x, rest));
    case Group(sp, inner, sp2) =>
      var after := Sp(sp2, [Punct(')')] + rest);
      SpLonger(sp2, [Punct(')')] + rest);
      Longer(inner, after);
      SpLonger(sp, [Punct('(')] + Spell(inner, after));
    case Name(sp, name, line) => SpLonger(sp, [Ident(name, line)] + rest);
    case Number(sp, text) => SpLonger(sp, [Literal(text)] + rest);
  }

  lemma {:induction false} SpLonger(n: nat, s: seq<Token>)
    ensures |Sp(n, s)| == n + |s|
    decreases n
  {
    if n > 0 {
      SpLonger(n - 1, s);
    }
  }

  /** What stands behind the spaces and the token at the front. */
  lemma {:induction false} Opened(ts: seq<Token>, c: char)
    requires Op1(Bare(ts), c)
    ensures ts == Sp(Lead(ts), [Punct(c)] + Bare(ts)[1..]) && |Bare(ts)[1..]| < |ts|
  {
    BareIsFirm(ts);
    assert Bare(ts) == [Punct(c)] + Bare(ts)[1..];
  }

  lemma {:induction false} PairOpened(ts: seq<Token>, a: char, b: char)
    requires Op2(Bare(ts), a, b)
    ensures ts == Sp(Lead(ts), [Punct(a), Punct(b)] + Bare(ts)[2..]) && |Bare(ts)[2..]| < |ts|
  {
    BareIsFirm(ts);
    assert Bare(ts) == [Punct(a), Punct(b)] + Bare(ts)[2..];
  }

  lemma {:induction false} UnarySound(ts: seq<Token>) returns (e: Cond)
    requires ReadUnary(ts).Some?
    ensures Wrote(e, Unary, ts, ReadUnary(ts).value.1, ReadUnary(ts).value.0)
    decreases |ts|, 1
  {
    hide Lead, Bare, Drop, EatOp, Sp, LiteralValue;
    EatOpIs(ts, '!');
    if OpAt(ts, '!') {
      Opened(ts, '!');
      var x := UnarySound(Bare(ts)[1..]);
      e := Not(Lead(ts), x);
    } else {
      DropIs(ts, 1);
      EatOpIs(Drop(ts, 1), '(');
      if OpAt(Drop(ts, 1), '(') {
        e := GroupSound(ts);
      } else {
        e := AtomSound(ts);
      }
    }
  }

  lemma {:induction false} GroupSound(ts: seq<Token>) returns (e: Cond)
    requires !OpAt(ts, '!') && OpAt(Drop(ts, 1), '(') && ReadUnary(ts).Some?
    ensures Wrote(e, Unary, ts, ReadUnary(ts).value.1, ReadUnary(ts).value.0)
    decreases |ts|, 0
  {
    hide Lead, Bare, Drop, EatOp, Sp, ReadTernary, LiteralValue;
    EatOpIs(ts, '!');
    DropIs(ts, 1);
    EatOpIs(Drop(ts, 1), '(');
    Opened(ts, '(');
    var inside := Bare(ts)[1..];
    var inner, mid := TernarySound(inside);
    var gone := Eaten(inner, Ternary);
    EatOpIs(Drop(mid, gone), ')');
    DropIs(mid, gone);
    Opened(mid, ')');
    e := Group(Lead(ts), inner, Lead(mid));
  }

  lemma {:induction false} AtomSound(ts: seq<Token>) returns (e: Cond)
    requires !OpAt(ts, '!') && !OpAt(Drop(ts, 1), '(') && ReadUnary(ts).Some?
    ensures Wrote(e, Unary, ts, ReadUnary(ts).value.1, ReadUnary(ts).value.0)
  {
    hide Lead, Bare, Drop, EatOp, Sp, ReadTernary, LiteralValue;
    EatOpIs(ts, '!');
    Dropped(ts, 1);
    EatOpIs(Drop(ts, 1), '(');
    Dropped(ts, 2);
    SkipIs(Drop(ts, 2));
    Dropped(ts, 3);
    SkipIs(Drop(ts, 3));
    BareIsFirm(ts);
    var s := Bare(ts);
    if EatIdent(Drop(ts, 2)).0.Some? {
      assert s == [s[0]] + s[1..];
      e := Name(Lead(ts), s[0].name, s[0].line);
    } else {
      assert s == [s[0]] + s[1..];
      e := Number(Lead(ts), s[0].text);
    }
  }

  lemma {:induction false} AdditiveSound(ts: seq<Token>) returns (e: Cond, mid: seq<Token>)
    requires ReadAdditive(ts).Some?
    ensures Wrote(e, Additive, ts, mid, ReadAdditive(ts).value.0) && Drop(mid, 2) == ReadAdditive(ts).value.1
    decreases |ts|, 2
  {
    var first := UnarySound(ts);
    var (v, t1) := ReadUnary(ts).value;
    e, mid := TermsSound(first, v, t1);
  }

  lemma {:induction false} TermsSound(first: Cond, v: int, ts: seq<Token>) returns (e: Cond, mid: seq<Token>)
    requires MoreTerms(v, ts).Some?
    requires Respects(first) && Fits(first) && Binds(first, Additive) && Value(first) == Some(v)
    ensures Wrote(e, Additive, Spell(first, ts), mid, MoreTerms(v, ts).value.0)
    ensures Drop(mid, 2) == MoreTerms(v, ts).value.1
    decreases |ts|, 2
  {
    hide Spell, Respects, Fits, Value, ReadUnary, EatSign, Drop, Lead, Bare, Sp;
    EatSignIs(ts);
    if SignAt(ts).None? {
      e, mid := first, ts;
    } else {
      var minus := SignAt(ts).value;
      Opened(ts, if minus then '-' else '+');
      var t1 := Bare(ts)[1..];
      var right := UnarySound(t1);
      var (w, t2) := ReadUnary(t1).value;
      var x := Checked(if minus then v - w else v + w).value;
      SumWrote(first, v, Lead(ts), minus, t1, right, t2, w, x);
      e, mid := TermsSound(Sum(first, Lead(ts), minus, right), x, t2);
    }
  }

  lemma {:induction false} SumWrote(first: Cond, v: int, sp: nat, minus: bool, t1: seq<Token>, right: Cond,
                                    rest: seq<Token>, w: int, x: int)
    requires Respects(first) && Fits(first) && Binds(first, Additive) && Value(first) == Some(v)
    requires Wrote(right, Unary, t1, rest, w) && Checked(if minus then v - w else v + w) == Some(x)
    requires sp <= if minus then 2 else 1
    ensures var sum := Sum(first, sp, minus, right);
            && Respects(sum) && Fits(sum) && Binds(sum, Additive) && Value(sum) == Some(x)
            && Spell(first, Sp(sp, [Punct(if minus then '-' else '+')] + t1)) == Spell(sum, rest)
  {}

  lemma {:induction false} ShiftSound(ts: seq<Token>) returns (e: Cond, mid: seq<Token>)
    requires ReadShift(ts).Some?
    ensures Wrote(e, Shifting, ts, mid, ReadShift(ts).value.0)
    ensures Drop(mid, Eaten(e, Shifting)) == ReadShift(ts).value.1
    decreases |ts|, 3
  {
    hide Spell, Respects, Fits, Value, ReadAdditive, EatShift, Drop, Lead, Bare, Sp;
    var left, after := AdditiveSound(ts);
    EatShiftIs(Drop(after, 2));
    DropIs(after, 2);
    if ShiftAt(Drop(after, 2)).None? {
      DropDrop(after, 2, 2);
      e, mid := left, after;
    } else {
      var toRight := ShiftAt(Drop(after, 2)).value;
      var c := if toRight then '>' else '<';
      PairOpened(after, c, c);
      var t1 := Bare(after)[2..];
      ShiftParts(ts, toRight, t1);
      var right, rest := AdditiveSound(t1);
      e, mid := Shift(left, Lead(after), toRight, right), rest;
      ShiftWrote(ts, left, Lead(after), ReadAdditive(ts).value.0, toRight, t1, right, rest,
                 ReadAdditive(t1).value.0, ReadShift(ts).value.0);
    }
  }

  lemma {:induction false} ShiftParts(ts: seq<Token>, toRight: bool, t1: seq<Token>)
    requires ReadShift(ts).Some? && ReadAdditive(ts).Some?
    requires EatShift(ReadAdditive(ts).value.1) == (Some(toRight), t1)
    ensures |t1| < |ts| && ReadAdditive(t1).Some? && ReadShift(ts).value.1 == ReadAdditive(t1).value.1
    ensures var v, n := ReadAdditive(ts).value.0, ReadAdditive(t1).value.0;
            (if toRight then ShiftRight(v, n) else ShiftLeft(v, n)) == Some(ReadShift(ts).value.0)
  {}

  lemma {:induction false} ShiftWrote(ts: seq<Token>, left: Cond, sp: nat, v: int, toRight: bool, t1: seq<Token>,
                                      right: Cond, rest: seq<Token>, n: int, x: int)
    requires var c := Punct(if toRight then '>' else '<'); Wrote(left, Additive, ts, Sp(sp, [c, c] + t1), v)
    requires Wrote(right, Additive, t1, rest, n) && sp <= 2 + if toRight then 2 else 1
    requires (if toRight then ShiftRight(v, n) else ShiftLeft(v, n)) == Some(x)
    ensures Wrote(Shift(left, sp, toRight, right), Shifting, ts, rest, x)
  {}

  lemma {:induction false} RelationalSound(ts: seq<Token>) returns (e: Cond, mid: seq<Token>)
    requires ReadRelational(ts).Some?
    ensures Wrote(e, Relation, ts, mid, ReadRelational(ts).value.0)
    ensures Drop(mid, Eaten(e, Relation)) == ReadRelational(ts).value.1
    decreases |ts|, 4
  {
    hide Spell, Respects, Fits, Value, ReadShift, EatCompare, Drop, Lead, Bare, Sp;
    var left, after := ShiftSound(ts);
    var gone := Eaten(left, Shifting);
    EatCompareIs(Drop(after, gone));
    DropIs(after, gone);
    if CompareAt(Drop(after, gone)).None? {
      DropDrop(after, gone, 6);
      NoCompare(left);
      e, mid := left, after;
    } else {
      var op := CompareAt(Drop(after, gone)).value;
      var t1 := Bare(after)[Width(op)..];
      CompareOpened(after, Drop(after, gone), op);
      CompareParts(ts, op, t1);
      var right, rest := ShiftSound(t1);
      e, mid := Compare(left, Lead(after), op, right), rest;
      CompareWrote(ts, left, Lead(after), ReadShift(ts).value.0, op, t1, right, rest, ReadShift(t1).value.0);
    }
  }

  lemma {:induction false} NoCompare(e: Cond)
    requires Binds(e, Shifting)
    ensures Binds(e, Relation) && Eaten(e, Relation) == Eaten(e, Shifting) + 6
  {}

  lemma {:induction false} CompareOpened(ts: seq<Token>, d: seq<Token>, op: CompareOp)
    requires CompareAt(d) == Some(op) && Bare(d) == Bare(ts)
    ensures ts == Sp(Lead(ts), CompareTokens(op, Bare(ts)[Width(op)..])) && Lead(d) <= Order(op)
  {
    hide Lead, Bare, Sp;
    BareIsFirm(ts);
    assert Bare(ts) == CompareTokens(op, Bare(ts)[Width(op)..]);
  }

  lemma {:induction false} CompareParts(ts: seq<Token>, op: CompareOp, t1: seq<Token>)
    requires ReadRelational(ts).Some? && ReadShift(ts).Some?
    requires EatCompare(ReadShift(ts).value.1) == (Some(op), t1)
    ensures |t1| < |ts| && ReadShift(t1).Some? && ReadRelational(ts).value.1 == ReadShift(t1).value.1
    ensures ReadRelational(ts).value.0 == CompareValues(op, ReadShift(ts).value.0, ReadShift(t1).value.0)
  {
    hide EatCompare, ReadShift;
  }

  lemma {:induction false} CompareWrote(ts: seq<Token>, left: Cond, sp: nat, v: int, op: CompareOp, t1: seq<Token>,
                                        right: Cond, rest: seq<Token>, w: int)
    requires Wrote(left, Shifting, ts, Sp(sp, CompareTokens(op, t1)), v) && Wrote(right, Shifting, t1, rest, w)
    requires sp <= Eaten(left, Shifting) + Order(op)
    ensures Wrote(Compare(left, sp, op, right), Relation, ts, rest, CompareValues(op, v, w))
  {}

  lemma {:induction false} AndSound(ts: seq<Token>) returns (e: Cond, mid: seq<Token>)
    requires ReadAnd(ts).Some?
    ensures Wrote(e, And, ts, mid, ReadAnd(ts).value.0) && Drop(mid, Eaten(e, And)) == ReadAnd(ts).value.1
    decreases |ts|, 5
  {
    hide Spell, Respects, Fits, Value, ReadRelational, Drop, MoreAnds;
    var first, after := RelationalSound(ts);
    Longer(first, after);
    e, mid := AndsSound(first, ReadRelational(ts).value.0, after);
  }

  lemma {:induction false} AndsSound(first: Cond, v: int, ts: seq<Token>) returns (e: Cond, mid: seq<Token>)
    requires var gone := Eaten(LastAnd(first), Relation); MoreAnds(v, Drop(ts, gone)).Some?
    requires Respects(first) && Fits(first) && Binds(first, And) && Value(first) == Some(v)
    ensures var gone := Eaten(LastAnd(first), Relation);
            && Wrote(e, And, Spell(first, ts), mid, MoreAnds(v, Drop(ts, gone)).value.0)
            && Drop(mid, Eaten(e, And)) == MoreAnds(v, Drop(ts, gone)).value.1
    decreases |ts|, 5
  {
    hide Spell, Respects, Fits, Value, ReadRelational, EatOp2, Drop, Lead, Bare, Sp, Eaten;
    var gone := Eaten(LastAnd(first), Relation);
    AndEaten(first);
    var d := Drop(ts, gone);
    EatOp2Is(d, '&', '&');
    DropIs(ts, gone);
    if !PairAt(d, '&', '&') {
      DropDrop(ts, gone, 1);
      e, mid := first, ts;
    } else {
      PairOpened(ts, '&', '&');
      var t1 := Bare(ts)[2..];
      var right, after := RelationalSound(t1);
      Longer(right, after);
      var w := ReadRelational(t1).value.0;
      BothWrote(first, v, Lead(ts), t1, right, after, w);
      e, mid := AndsSound(Both(first, Lead(ts), right), Truth(v != 0 && w != 0), after);
    }
  }

  lemma {:induction false} AndEaten(e: Cond)
    ensures Eaten(e, And) == Eaten(LastAnd(e), Relation) + 1
  {}

  lemma {:induction false} BothWrote(first: Cond, v: int, sp: nat, t1: seq<Token>, right: Cond, rest: seq<Token>, w: int)
    requires Respects(first) && Fits(first) && Binds(first, And) && Value(first) == Some(v)
    requires Wrote(right, Relation, t1, rest, w) && sp <= Eaten(first, And)
    ensures var both := Both(first, sp, right);
            && Respects(both) && Fits(both) && Binds(both, And) && Value(both) == Some(Truth(v != 0 && w != 0))
            && Spell(first, Sp(sp, [Punct('&'), Punct('&')] + t1)) == Spell(both, rest)
  {}

  lemma {:induction false} OrSound(ts: seq<Token>) returns (e: Cond, mid: seq<Token>)
    requires ReadOr(ts).Some?
    ensures Wrote(e, Or, ts, mid, ReadOr(ts).value.0) && Drop(mid, Eaten(e, Or)) == ReadOr(ts).value.1
    decreases |ts|, 6
  {
    hide Spell, Respects, Fits, Value, ReadAnd, Drop, MoreOrs;
    var first, after := AndSound(ts);
    Longer(first, after);
    e, mid := OrsSound(first, ReadAnd(ts).value.0, after);
  }

  lemma {:induction false} OrsSound(first: Cond, v: int, ts: seq<Token>) returns (e: Cond, mid: seq<Token>)
    requires var gone := Eaten(LastOr(first), And); MoreOrs(v, Drop(ts, gone)).Some?
    requires Respects(first) && Fits(first) && Binds(first, Or) && Value(first) == Some(v)
    ensures var gone := Eaten(LastOr(first), And);
            && Wrote(e, Or, Spell(first, ts), mid, MoreOrs(v, Drop(ts, gone)).value.0)
            && Drop(mid, Eaten(e, Or)) == MoreOrs(v, Drop(ts, gone)).value.1
    decreases |ts|, 6
  {
    hide Spell, Respects, Fits, Value, ReadAnd, EatOp2, Drop, Lead, Bare, Sp, Eaten;
    var gone := Eaten(LastOr(first), And);
    OrEaten(first);
    var d := Drop(ts, gone);
    EatOp2Is(d, '|', '|');
    DropIs(ts, gone);
    if !PairAt(d, '|', '|') {
      DropDrop(ts, gone, 1);
      e, mid := first, ts;
    } else {
      PairOpened(ts, '|', '|');
      var t1 := Bare(ts)[2..];
      var right, after := AndSound(t1);
      Longer(right, after);
      var w := ReadAnd(t1).value.0;
      EitherWrote(first, v, Lead(ts), t1, right, after, w);
      e, mid := OrsSound(Either(first, Lead(ts), right), Truth(v != 0 || w != 0), after);
    }
  }

  lemma {:induction false} OrEaten(e: Cond)
    ensures Eaten(e, Or) == Eaten(LastOr(e), And) + 1
  {}

  lemma {:induction false} EitherWrote(first: Cond, v: int, sp: nat, t1: seq<Token>, right: Cond, rest: seq<Token>, w: int)
    requires Respects(first) && Fits(first) && Binds(first, Or) && Value(first) == Some(v)
    requires Wrote(right, And, t1, rest, w) && sp <= Eaten(first, Or)
    ensures var either := Either(first, sp, right);
            && Respects(either) && Fits(either) && Binds(either, Or) && Value(either) == Some(Truth(v != 0 || w != 0))
            && Spell(first, Sp(sp, [Punct('|'), Punct('|')] + t1)) == Spell(either, rest)
  {}

  lemma {:induction false} TernarySound(ts: seq<Token>) returns (e: Cond, mid: seq<Token>)
    requires ReadTernary(ts).Some?
    ensures Wrote(e, Ternary, ts, mid, ReadTernary(ts).value.0)
    ensures Drop(mid, Eaten(e, Ternary)) == ReadTernary(ts).value.1
    decreases |ts|, 7
  {
    hide Spell, Respects, Fits, Value, ReadOr, EatOp, Drop, Lead, Bare, Sp, Eaten;
    var cond, after := OrSound(ts);
    var gone := Eaten(cond, Or);
    EatOpIs(Drop(after, gone), '?');
    DropIs(after, gone);
    if OpAt(Drop(after, gone), '?') {
      Opened(after, '?');
      e, mid := ChoiceSound(ts, cond, after, Bare(after)[1..]);
    } else {
      DropDrop(after, gone, 1);
      NoChoice(cond);
      e, mid := cond, after;
    }
  }

  lemma {:induction false} NoChoice(e: Cond)
    requires Binds(e, Or)
    ensures Binds(e, Ternary) && Eaten(e, Ternary) == Eaten(e, Or) + 1
  {}

  lemma {:induction false} ChoiceSound(ts: seq<Token>, cond: Cond, after: seq<Token>, t1: seq<Token>)
    returns (e: Cond, mid: seq<Token>)
    requires ReadTernary(ts).Some? && ReadOr(ts).Some? && after == Sp(Lead(after), [Punct('?')] + t1)
    requires EatOp(ReadOr(ts).value.1, '?') == (true, t1) && Lead(after) <= Eaten(cond, Or) + 1
    requires Wrote(cond, Or, ts, after, ReadOr(ts).value.0)
    ensures Wrote(e, Ternary, ts, mid, ReadTernary(ts).value.0)
    ensures Drop(mid, Eaten(e, Ternary)) == ReadTernary(ts).value.1
    decreases |ts|, 6
  {
    hide Spell, Respects, Fits, Value, ReadTernary, ReadOr, EatOp, Drop, Lead, Bare, Sp;
    TernaryParts(ts, t1);
    var thn, after2 := OrSound(t1);
    var gone := Eaten(thn, Or);
    EatOpIs(Drop(after2, gone), ':');
    DropIs(after2, gone);
    Opened(after2, ':');
    var t2 := Bare(after2)[1..];
    TernaryEnds(ts, t1, t2);
    var els, rest := OrSound(t2);
    e, mid := Choice(cond, Lead(after), thn, Lead(after2), els), rest;
    ChoiceWrote(ts, cond, Lead(after), ReadOr(ts).value.0, t1, thn, Lead(after2), ReadOr(t1).value.0,
                t2, els, rest, ReadOr(t2).value.0);
  }

  lemma {:induction false} TernaryParts(ts: seq<Token>, t1: seq<Token>)
    requires ReadTernary(ts).Some? && ReadOr(ts).Some? && EatOp(ReadOr(ts).value.1, '?') == (true, t1)
    ensures |t1| < |ts| && ReadOr(t1).Some? && EatOp(ReadOr(t1).value.1, ':').0
  {
    hide ReadOr, EatOp;
  }

  lemma {:induction false} TernaryEnds(ts: seq<Token>, t1: seq<Token>, t2: seq<Token>)
    requires ReadTernary(ts).Some? && ReadOr(ts).Some? && EatOp(ReadOr(ts).value.1, '?') == (true, t1)
    requires ReadOr(t1).Some? && EatOp(ReadOr(t1).value.1, ':') == (true, t2)
    ensures |t2| < |ts| && ReadOr(t2).Some? && ReadTernary(ts).value.1 == ReadOr(t2).value.1
    ensures ReadTernary(ts).value.0 == if ReadOr(ts).value.0 != 0 then ReadOr(t1).value.0 else ReadOr(t2).value.0
  {
    hide ReadOr, EatOp;
  }

  lemma {:induction false} ChoiceWrote(ts: seq<Token>, cond: Cond, sp: nat, v: int, t1: seq<Token>, thn: Cond,
                                       sp2: nat, x: int, t2: seq<Token>, els: Cond, rest: seq<Token>, y: int)
    requires Wrote(cond, Or, ts, Sp(sp, [Punct('?')] + t1), v) && sp <= Eaten(cond, Or) + 1
    requires Wrote(thn, Or, t1, Sp(sp2, [Punct(':')] + t2), x) && sp2 <= Eaten(thn, Or) + 1
    requires Wrote(els, Or, t2, rest, y)
    ensures Wrote(Choice(cond, sp, thn, sp2, els), Ternary, ts, rest, if v != 0 then x else y)
  {}

  // ---------- the main results ----------

  /** `ts` is the condition `e`, as written, with few enough spaces in it and behind it. */
  ghost predicate Is(e: Cond, ts: seq<Token>) {
    Respects(e) && Fits(e) && exists n: nat :: n <= Eaten(e, Ternary) && ts == Spell(e, Sp(n, []))
  }

  /** An `#if` holds exactly when its tokens are a condition whose value is not 0. */
  lemma {:induction false} HoldsIsMeaning(ts: seq<Token>)
    ensures Holds(ts) <==> exists e :: Is(e, ts) && Value(e).Some? && Value(e).value != 0
  {
    hide Lead, Spell, Respects, Fits, Value, Eaten, ReadTernary;
    if Holds(ts) {
      var e, mid := TernarySound(ts);
      BareIsFirm(mid);
      assert Lead(mid) <= Eaten(e, Ternary) && Bare(mid) == [];
      assert ts == Spell(e, Sp(Lead(mid), []));
      assert Is(e, ts);
    }
    if exists e :: Is(e, ts) && Value(e).Some? && Value(e).value != 0 {
      var e :| Is(e, ts) && Value(e).Some? && Value(e).value != 0;
      IsRead(e, ts);
    }
  }

  lemma {:induction false} IsRead(e: Cond, ts: seq<Token>)
    requires Is(e, ts)
    ensures ReadTernary(ts) == Meaning(e, [])
  {
    hide Lead, Spell, Respects, Fits, Value, Eaten, Stops, ReadTernary;
    var n: nat :| n <= Eaten(e, Ternary) && ts == Spell(e, Sp(n, []));
    StopsAt(e, Ternary, n, []);
    TernarySpelled(e, Sp(n, []));
    DropSp(n, [], Eaten(e, Ternary));
  }

  /** However the same tokens are read as a condition, its value is the same. */
  lemma {:induction false} OneValue(a: Cond, b: Cond, ts: seq<Token>)
    requires Is(a, ts) && Is(b, ts)
    ensures Value(a) == Value(b)
  {
    IsRead(a, ts);
    IsRead(b, ts);
  }

  /** Macro expansion can leave whitespace tokens side by side. Looking for `+` takes
      one of them and looking for `-` takes one more, so a plus is seen behind at most
      one space and a minus behind at most two. */
  lemma {:induction false} SignBehindSpaces(n: nat, minus: bool, rest: seq<Token>)
    ensures EatSign(Sp(n, [Punct(if minus then '-' else '+')] + rest)).0.Some? <==> n <= (if minus then 2 else 1)
  {
    var sign := [Punct(if minus then '-' else '+')] + rest;
    SpLead(n, sign);
    EatSignIs(Sp(n, sign));
  }

  /** Hence `x + y` with two spaces or more before the plus never holds, whatever `x` is. */
  lemma {:induction false} PlusBehindTwoSpaces(x: Cond, n: nat, more: seq<Token>)
    requires Respects(x) && Fits(x) && n >= 2
    ensures !Holds(Spell(x, Sp(n, [Punct('+')] + more)))
  {
    hide Lead, Spell, Respects, Fits, Value, Eaten, ReadTernary, Drop, Sp;
    var plus := [Punct('+')] + more;
    SpLead(n, plus);
    Hidden(x, Ternary, Sp(n, plus));
    TernarySpelled(x, Sp(n, plus));
    DropSp(n, plus, Eaten(x, Ternary));
    SpLonger(Left(n, Eaten(x, Ternary)), plus);
  }

  lemma {:induction false} Hidden(e: Cond, k: Level, rest: seq<Token>)
    requires Lead(rest) >= 2 && Op1(Bare(rest), '+')
    ensures Stops(e, k, rest)
    decreases e, 6 - Rank(k)
  {
    hide Lead, Bare, Drop, Eaten;
    match k
    case Unary =>
    case Additive =>
    case Shifting => DropIs(rest, 2);
    case Relation =>
      Hidden(if e.Compare? then e.right else e, Shifting, rest);
      DropIs(rest, Eaten(e, Shifting));
    case And =>
      Hidden(LastAnd(e), Relation, rest);
      DropIs(rest, Eaten(LastAnd(e), Relation));
    case Or =>
      Hidden(LastOr(e), And, rest);
      DropIs(rest, Eaten(LastOr(e), And));
    case Ternary =>
      Hidden(if e.Choice? then e.els else e, Or, rest);
      DropIs(rest, Eaten(e, Or));
  }

  // ---------- any tree can be written ----------

  function Guard(k: Level, e: Cond): Cond {
    if Binds(e, k) then e else Group(0, e, 0)
  }

  /** At most one space. */
  function One(sp: nat): nat {
    if sp == 0 then 0 else 1
  }

  /** Parentheses where the grammar needs them, and no two spaces side by side. */
  function Parenthesized(e: Cond): (r: Cond)
    ensures LevelOf(r) == LevelOf(e)
  {
    match e
    case Name(sp, name, line) => Name(One(sp), name, line)
    case Number(sp, text) => Number(One(sp), text)
    case Group(sp, inner, sp2) => Group(One(sp), Parenthesized(inner), One(sp2))
    case Not(sp, x) => Not(One(sp), Guard(Unary, Parenthesized(x)))
    case Sum(l, sp, minus, r) => Sum(Guard(Additive, Parenthesized(l)), One(sp), minus, Guard(Unary, Parenthesized(r)))
    case Shift(l, sp, toRight, r) =>
      Shift(Guard(Additive, Parenthesized(l)), One(sp), toRight, Guard(Additive, Parenthesized(r)))
    case Compare(l, sp, op, r) =>
      Compare(Guard(Shifting, Parenthesized(l)), One(sp), op, Guard(Shifting, Parenthesized(r)))
    case Both(l, sp, r) => Both(Guard(And, Parenthesized(l)), One(sp), Guard(Relation, Parenthesized(r)))
    case Either(l, sp, r) => Either(Guard(Or, Parenthesized(l)), One(sp), Guard(And, Parenthesized(r)))
    case Choice(c, sp, t, sp2, f) =>
      Choice(Guard(Or, Parenthesized(c)), One(sp), Guard(Or, Parenthesized(t)), One(sp2), Guard(Or, Parenthesized(f)))
  }

  lemma {:induction false} ParenthesizedKeepsValue(e: Cond)
    ensures var p := Parenthesized(e); Respects(p) && Fits(p) && Value(p) == Value(e)
    decreases e, 0
  {
    hide LiteralValue, Guard, CompareValues, ShiftLeft, ShiftRight, Eaten;
    match e
    case Group(_, inner, _) => ParenthesizedKeepsValue(inner);
    case Not(_, x) => GuardKeeps(x, Unary);
    case Sum(l, _, _, r) =>
      GuardKeeps(l, Additive);
      GuardKeeps(r, Unary);
    case Shift(l, _, _, r) =>
      GuardKeeps(l, Additive);
      GuardKeeps(r, Additive);
    case Compare(l, _, _, r) =>
      GuardKeeps(l, Shifting);
      GuardKeeps(r, Shifting);
    case Both(l, _, r) =>
      GuardKeeps(l, And);
      GuardKeeps(r, Relation);
    case Either(l, _, r) =>
      GuardKeeps(l, Or);
      GuardKeeps(r, And);
    case Choice(c, _, t, _, f) =>
      GuardKeeps(c, Or);
      GuardKeeps(t, Or);
      GuardKeeps(f, Or);
    case _ =>
  }

  lemma {:induction false} GuardKeeps(e: Cond, k: Level)
    ensures var g := Guard(k, Parenthesized(e));
            Respects(g) && Fits(g) && Binds(g, k) && Value(g) == Value(e) && Eaten(g, And) >= 1 && Eaten(g, Or) >= 1
    decreases e, 1
  {
    ParenthesizedKeepsValue(e);
  }

  /** Every tree, written with the parentheses it needs, is evaluated to its value, and
      fails exactly when an operand has none. */
  lemma {:induction false} EveryTreeIsEvaluated(e: Cond)
    ensures ReadTernary(Spell(Parenthesized(e), [])) == Meaning(e, [])
  {
    hide Spell, Stops, ReadTernary, Parenthesized;
    ParenthesizedKeepsValue(e);
    StopsAt(Parenthesized(e), Ternary, 0, []);
    TernarySpelled(Parenthesized(e), []);
    DropSp(0, [], Eaten(Parenthesized(e), Ternary));
  }
}
