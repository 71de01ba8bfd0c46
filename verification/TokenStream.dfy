/** The tokens of the language. */
module Tokens {
  import opened Wrappers

  datatype Keyword =
    | Sizeof
    | Alignof
    | Const
    | Volatile
    | TypeWord(n: nat) // any other keyword a declaration can start with
    | OtherWord(n: nat)
  {
    predicate IsDeclSpecifier() {
      Const? || Volatile? || TypeWord?
    }
  }

  /** A literal, already converted; `Malformed` is one the conversion rejects. */
  datatype Lit = Number(n: nat) | Malformed(n: nat) | Str(parts: seq<string>)

  datatype AssignOp = Equal | AddEqual | SubEqual | MulEqual | DivEqual | ModEqual | ShlEqual | ShrEqual | AndEqual
                    | OrEqual | XorEqual

  datatype CompareOp = Less | Greater | EqualEqual | NotEqual | LessEqual | GreaterEqual

  datatype Token =
    | PlusPlus | MinusMinus
    | Assignment(assign: AssignOp) | Comparison(compare: CompareOp)
    | Plus | Minus | Star | Divide | Mod | Xor | Ampersand | LogicalAnd | BitwiseOr | LogicalOr
    | BinaryNot | LogicalNot | ShiftRight | ShiftLeft
    | LeftBrace | RightBrace | LeftBracket | RightBracket | LeftParen | RightParen
    | Semicolon | Colon | Comma | Dot | Question | Ellipsis | StructDeref | Hash
    | Word(keyword: Keyword) | Literal(lit: Lit) | Ident(name: string) | Whitespace(text: string)
  {
    predicate IsStr() {
      Literal? && lit.Str?
    }

    /** The same variant; keywords, assignments and comparisons must match exactly. */
    predicate SameKind(other: Token) {
      match this
      case Word(k) => other == this
      case Assignment(op) => other == this
      case Comparison(op) => other == this
      case Literal(_) => other.Literal?
      case Ident(_) => other.Ident?
      case Whitespace(_) => other.Whitespace?
      case _ => other == this
    }
  }

  function First(ts: seq<Token>): Option<Token> {
    if ts == [] then None else Some(ts[0])
  }

  function Rest(ts: seq<Token>): seq<Token> {
    if ts == [] then [] else ts[1..]
  }

  /** Keywords, and then `rest`. */
  function Words(ks: seq<Keyword>, rest: seq<Token>): seq<Token> {
    if ks == [] then rest else [Word(ks[0])] + Words(ks[1..], rest)
  }
}

/** The two-slot lookahead over the lexer. */
module TokenStream {
  import opened Wrappers
  import opened Tokens

  // ---------- what the parser makes of the lexer's tokens ----------

  /** Whitespace dropped and adjacent string literals joined: translation phase 6,
      section 5.1.1.2 of C11. */
  function Cooked(ts: seq<Token>): (r: seq<Token>)
    ensures |r| <= |ts|
    decreases |ts|
  {
    if ts == [] then []
    else if ts[0].Whitespace? then Cooked(ts[1..])
    else if ts[0].IsStr() then
      var (more, rest) := StrRun(ts[1..]);
      [Literal(Str(ts[0].lit.parts + more))] + Cooked(rest)
    else [ts[0]] + Cooked(ts[1..])
  }

  /** The strings that follow at once, and the tokens after them. */
  function StrRun(ts: seq<Token>): (r: (seq<string>, seq<Token>))
    ensures |r.1| <= |ts|
    decreases |ts|
  {
    if ts == [] then ([], [])
    else if ts[0].Whitespace? then StrRun(ts[1..])
    else if ts[0].IsStr() then
      var (more, rest) := StrRun(ts[1..]);
      (ts[0].lit.parts + more, rest)
    else ([], ts)
  }

  predicate Clean(ts: seq<Token>) {
    && (forall i :: 0 <= i < |ts| ==> !ts[i].Whitespace?)
    && (forall i :: 0 < i < |ts| ==> !(ts[i - 1].IsStr() && ts[i].IsStr()))
  }

  function Parts(ts: seq<Token>): seq<string> {
    if ts == [] then [] else (if ts[0].IsStr() then ts[0].lit.parts else []) + Parts(ts[1..])
  }

  function Others(ts: seq<Token>): seq<Token> {
    if ts == [] then []
    else (if ts[0].IsStr() || ts[0].Whitespace? then [] else [ts[0]]) + Others(ts[1..])
  }

  lemma {:induction false} StrRunSound(ts: seq<Token>)
    ensures var (more, rest) := StrRun(ts);
            && (rest != [] ==> !rest[0].Whitespace? && !rest[0].IsStr())
            && more + Parts(rest) == Parts(ts) && Others(rest) == Others(ts)
    decreases |ts|
  {
    if ts != [] && (ts[0].Whitespace? || ts[0].IsStr()) {
      StrRunSound(ts[1..]);
    }
  }

  /** Nothing is lost: the strings' parts and all the other tokens come out in order. */
  lemma {:induction false} CookedKeepsAll(ts: seq<Token>)
    ensures Parts(Cooked(ts)) == Parts(ts) && Others(Cooked(ts)) == Others(ts)
    decreases |ts|
  {
    if ts != [] {
      if ts[0].IsStr() {
        var (more, rest) := StrRun(ts[1..]);
        StrRunSound(ts[1..]);
        CookedKeepsAll(rest);
        assert Cooked(ts)[1..] == Cooked(rest);
      } else if !ts[0].Whitespace? {
        CookedKeepsAll(ts[1..]);
        assert Cooked(ts)[1..] == Cooked(ts[1..]);
      } else {
        CookedKeepsAll(ts[1..]);
      }
    }
  }

  lemma {:induction false} CookedStart(ts: seq<Token>)
    requires ts != [] && !ts[0].Whitespace? && !ts[0].IsStr()
    ensures Cooked(ts) != [] && Cooked(ts)[0] == ts[0]
  {}

  lemma {:induction false} CookedIsClean(ts: seq<Token>)
    ensures Clean(Cooked(ts))
    decreases |ts|
  {
    if ts != [] {
      if ts[0].IsStr() {
        var (more, rest) := StrRun(ts[1..]);
        StrRunSound(ts[1..]);
        CookedIsClean(rest);
        if rest != [] {
          CookedStart(rest);
        }
      } else {
        CookedIsClean(ts[1..]);
      }
    }
  }

  /** Only whitespace and split strings are touched. */
  lemma {:induction false} CleanIsCooked(ts: seq<Token>)
    requires Clean(ts)
    ensures Cooked(ts) == ts
    decreases |ts|
  {
    if ts != [] {
      CleanIsCooked(ts[1..]);
      if ts[0].IsStr() {
        assert StrRun(ts[1..]) == ([], ts[1..]);
        assert Literal(Str(ts[0].lit.parts + [])) == ts[0] by { assert ts[0].lit.parts + [] == ts[0].lit.parts; }
      }
      assert [ts[0]] + ts[1..] == ts;
    }
  }

  // ---------- the lookahead ----------

  /** What is left after an error: the tokens behind the first `;` or `}`. */
  function AfterPanic(ts: seq<Token>): (r: seq<Token>)
    ensures |r| <= |ts|
  {
    if ts == [] then [] else if ts[0] in {Semicolon, RightBrace} then ts[1..] else AfterPanic(ts[1..])
  }

  /** It stops behind the first of these, or at the end. */
  lemma {:induction false} PanicStops(ts: seq<Token>) returns (n: nat)
    ensures n <= |ts| && AfterPanic(ts) == ts[n..]
    ensures forall i :: 0 <= i < n - 1 ==> ts[i] !in {Semicolon, RightBrace}
    ensures n < |ts| ==> n > 0 && ts[n - 1] in {Semicolon, RightBrace}
    decreases |ts|
  {
    if ts == [] {
      n := 0;
    } else if ts[0] in {Semicolon, RightBrace} {
      n := 1;
    } else {
      n := PanicStops(ts[1..]);
      n := n + 1;
    }
  }

  class Lookahead {
    var tokens: seq<Token>
    var current: Option<Token>
    var next: Option<Token>

    constructor (ts: seq<Token>)
      ensures Valid() && Remaining() == Cooked(ts)
    {
      tokens, current, next := ts, None, None;
    }

    ghost predicate Valid()
      reads this
    {
      next.Some? ==> current.Some?
    }

    /** The tokens still to be parsed. */
    ghost function Remaining(): seq<Token>
      reads this
    {
      Slot(current) + Slot(next) + Cooked(tokens)
    }

    static ghost function Slot(t: Option<Token>): seq<Token> {
      if t.Some? then [t.value] else []
    }

    method ImplNextToken() returns (t: Option<Token>)
      modifies `tokens
      ensures t == First(Cooked(old(tokens))) && Cooked(tokens) == Rest(Cooked(old(tokens)))
    {
      while tokens != [] && tokens[0].Whitespace?
        invariant Cooked(tokens) == Cooked(old(tokens))
        decreases |tokens|
      {
        tokens := tokens[1..];
      }
      if tokens == [] {
        return None;
      }
      var first := tokens[0];
      tokens := tokens[1..];
      if !first.IsStr() {
        return Some(first);
      }
      var parts := first.lit.parts;
      ghost var (more, rest) := StrRun(tokens);
      while tokens != [] && (tokens[0].Whitespace? || tokens[0].IsStr())
        invariant parts + StrRun(tokens).0 == first.lit.parts + more && StrRun(tokens).1 == rest
        decreases |tokens|
      {
        if tokens[0].IsStr() {
          parts := parts + tokens[0].lit.parts;
        }
        tokens := tokens[1..];
      }
      assert parts + [] == parts;
      t := Some(Literal(Str(parts)));
    }

    method NextToken() returns (t: Option<Token>)
      requires Valid()
      modifies this
      ensures Valid() && t == First(old(Remaining())) && Remaining() == Rest(old(Remaining()))
      ensures next.None?
    {
      t := current;
      current, next := next, None;
      if t.None? {
        t := ImplNextToken();
      }
    }

    method PeekToken() returns (t: Option<Token>)
      requires Valid()
      modifies this
      ensures Valid() && t == First(Remaining()) && Remaining() == old(Remaining())
      ensures t.Some? ==> current == t
    {
      if current.None? {
        current, next := next, None;
        if current.None? {
          current := ImplNextToken();
        }
      }
      t := current;
    }

    method PeekNextToken() returns (t: Option<Token>)
      requires Valid()
      modifies this
      ensures Valid() && t == First(Rest(Remaining())) && Remaining() == old(Remaining())
    {
      hide Cooked;
      if next.None? {
        if current.None? {
          current := ImplNextToken();
        }
        next := ImplNextToken();
      }
      t := next;
    }

    /** Puts back a token; the second slot must be free. At the end of the input
        what is put back may be nothing. */
    method Unput(item: Option<Token>)
      requires Valid() && next.None? && (item.None? ==> current.None?)
      modifies this
      ensures Valid() && Remaining() == Slot(item) + old(Remaining())
    {
      current, next := item, current;
    }

    method MatchNext(kind: Token) returns (t: Option<Token>)
      requires Valid()
      modifies this
      ensures Valid()
      ensures var ts := old(Remaining());
              if ts != [] && kind.SameKind(ts[0]) then t == Some(ts[0]) && Remaining() == ts[1..]
              else t == None && Remaining() == ts
    {
      t := PeekToken();
      if t.Some? && kind.SameKind(t.value) {
        t := NextToken();
      } else {
        t := None;
      }
    }

    method MatchId() returns (name: Option<string>)
      requires Valid()
      modifies this
      ensures Valid()
      ensures var ts := old(Remaining());
              if ts != [] && ts[0].Ident? then name == Some(ts[0].name) && Remaining() == ts[1..]
              else name == None && Remaining() == ts
    {
      var t := PeekToken();
      if t.Some? && t.value.Ident? {
        var _ := NextToken();
        name := Some(t.value.name);
      } else {
        name := None;
      }
    }

    /** Takes a token to look at it, and puts it back if it is not a literal. */
    method MatchLiteral() returns (lit: Option<Lit>)
      requires Valid()
      modifies this
      ensures Valid()
      ensures var ts := old(Remaining());
              if ts != [] && ts[0].Literal? then lit == Some(ts[0].lit) && Remaining() == ts[1..]
              else lit == None && Remaining() == ts
    {
      ghost var ts := Remaining();
      var t := NextToken();
      if t.Some? && t.value.Literal? {
        lit := Some(t.value.lit);
      } else {
        if t.None? {
          assert Remaining() == [];
        }
        Unput(t);
        lit := None;
      }
    }

    method Panic()
      requires Valid()
      modifies this
      ensures Valid() && Remaining() == AfterPanic(old(Remaining()))
    {
      hide Remaining, Valid;
      ghost var ts := Remaining();
      var t := NextToken();
      assert t.Some? ==> [t.value] + Remaining() == ts;
      while t.Some? && t.value !in {Semicolon, RightBrace}
        invariant Valid()
        invariant if t.None? then Remaining() == [] == AfterPanic(old(Remaining()))
                  else AfterPanic([t.value] + Remaining()) == AfterPanic(old(Remaining()))
        decreases if t.Some? then 1 + |Remaining()| else 0
      {
        ghost var rest := Remaining();
        assert ([t.value] + rest)[1..] == rest;
        t := NextToken();
        assert t.Some? ==> [t.value] + Remaining() == rest;
      }
      if t.Some? {
        assert ([t.value] + Remaining())[1..] == Remaining();
      }
    }

    method Expect(kind: Token) returns (ok: bool)
      requires Valid()
      modifies this
      ensures Valid()
      ensures ok == (old(Remaining()) != [] && old(Remaining())[0].SameKind(kind))
      ensures Remaining() == if ok then old(Remaining())[1..] else AfterPanic(old(Remaining()))
    {
      var t := PeekToken();
      if t.Some? && t.value.SameKind(kind) {
        var _ := NextToken();
        ok := true;
      } else {
        Panic();
        ok := false;
      }
    }

    method ExpectId() returns (name: Option<string>)
      requires Valid()
      modifies this
      ensures Valid()
      ensures var ts := old(Remaining());
              if ts != [] && ts[0].Ident? then name == Some(ts[0].name) && Remaining() == ts[1..]
              else name == None && Remaining() == AfterPanic(ts)
    {
      name := MatchId();
      if name.None? {
        var _ := PeekToken();
        Panic();
      }
    }
  }
}
