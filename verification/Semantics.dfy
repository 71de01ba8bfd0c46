/** What statements and expressions mean, independently of how they are lowered. */
module Semantics {
  import opened Wrappers
  import opened Ir
  import opened Hir

  function Eval(e: Expr, env: Environment, h: History): (int, History) {
    match e
    case Literal(n) => (n, h)
    case Leaf(op) => Perform(env, h, op, [])
    case Unary(op, operand) =>
      var (x, h1) := Eval(operand, env, h);
      Perform(env, h1, op, [x])
    case Binary(op, left, right) =>
      var (x, h1) := Eval(left, env, h);
      var (y, h2) := Eval(right, env, h1);
      Perform(env, h2, op, [x, y])
    case Logical(isOr, left, right) =>
      var (x, h1) := Eval(left, env, h);
      if (x != 0) == isOr then (if isOr then 1 else 0, h1)
      else
        var (y, h2) := Eval(right, env, h1);
        (if y != 0 then 1 else 0, h2)
    case Ternary(cond, thn, els) =>
      var (c, h1) := Eval(cond, env, h);
      Eval(if c != 0 then thn else els, env, h1)
    case Comma(left, right) => Eval(right, env, Eval(left, env, h).1)
  }

  function Perform(env: Environment, h: History, op: nat, args: seq<int>): (int, History) {
    var ev := env.Perform(h, op, args);
    (ev.result, h + [ev])
  }

  function EvalAll(es: seq<Expr>, env: Environment, h: History): History {
    if es == [] then h else EvalAll(es[1..], env, Eval(es[0], env, h).1)
  }

  /** How a statement ends. `Running` means it had not ended when the fuel, which
      every turn of a loop uses up, was gone. */
  datatype Outcome = Normal | Broke | Continued | Returned(result: Option<int>) | Running

  // ---------- switches ----------

  predicate Labelled(s: Stmt) { s.Case? || s.Default? }

  function Unlabelled(s: Stmt): (r: Stmt)
    ensures Size(r) <= Size(s)
  {
    match s
    case Case(_, inner) => Unlabelled(inner)
    case Default(inner) => Unlabelled(inner)
    case _ => s
  }

  /** No value stands for the label `default`. */
  predicate HasLabel(s: Stmt, key: Option<int>) {
    match s
    case Case(value, inner) => key == Some(value as int) || HasLabel(inner, key)
    case Default(inner) => key == None || HasLabel(inner, key)
    case _ => false
  }

  /** The first statement with the label; their number when there is none. */
  function Find(ss: seq<Stmt>, key: Option<int>): (i: nat)
    ensures i <= |ss| && (i < |ss| ==> HasLabel(ss[i], key))
    ensures forall j :: 0 <= j < i ==> !HasLabel(ss[j], key)
  {
    if ss == [] || HasLabel(ss[0], key) then 0 else 1 + Find(ss[1..], key)
  }

  /** Where a switch on `v` goes on: at its case, at the default, or past the end. */
  function Selected(ss: seq<Stmt>, v: int): (i: nat)
    ensures i <= |ss|
  {
    if Find(ss, Some(v)) < |ss| then Find(ss, Some(v)) else Find(ss, None)
  }

  /** The block lowering is at: finished, without instructions so far, or begun. */
  datatype BlockKind = Done | Fresh | Begun

  /** The block lowering is at after `s`, by the block it was at before. */
  function After(s: Stmt, a: BlockKind): BlockKind
    decreases s
  {
    match s
    case Compound(stmts) => AfterAll(stmts, a)
    case Decl(inits) => if inits == [] then a else Begun
    case ExprStmt(_) => Begun
    case If(_, thn, els) =>
      if els.Some? && After(thn, Fresh) == Done && After(els.value, Fresh) == Done then Done else Fresh
    case Case(_, inner) => After(inner, if a == Done then Fresh else a)
    case Default(inner) => After(inner, if a == Done then Fresh else a)
    case Label(_, inner) => After(inner, Fresh)
    case ReturnStmt(_) => Done
    case Goto(_) => Done
    case Break => Done
    case Continue => Done
    case _ => Fresh
  }

  function AfterAll(ss: seq<Stmt>, a: BlockKind): BlockKind
    decreases ss
  {
    if ss == [] then a else AfterAll(ss[1..], After(ss[0], a))
  }

  /** No label of these statements is put at a block that has begun. */
  predicate Clean(ss: seq<Stmt>, a: BlockKind) {
    ss == [] || ((Labelled(ss[0]) ==> a != Begun) && Clean(ss[1..], After(ss[0], a)))
  }

  /** Statements without labels and gotos, in which the labels of a switch stand
      directly in its body and none of them is put at a block that has begun. */
  predicate Structured(s: Stmt)
    decreases s, 0
  {
    match s
    case Compound(stmts) => StructuredAll(stmts)
    case If(_, thn, els) => Structured(thn) && (els.Some? ==> Structured(els.value))
    case While(_, body) => Structured(body)
    case For(init, _, _, body) => SimpleInit(init) && Structured(body)
    case DoWhile(body, _) => Structured(body)
    case SwitchStmt(_, body) => body.Compound? && Sections(body.stmts) && Clean(body.stmts, Fresh)
    case Case(_, _) => false
    case Default(_) => false
    case Label(_, _) => false
    case Goto(_) => false
    case _ => true
  }

  predicate StructuredAll(ss: seq<Stmt>)
    decreases ss
  {
    forall i :: 0 <= i < |ss| ==> Structured(ss[i])
  }

  predicate Sections(ss: seq<Stmt>)
    decreases ss
  {
    forall i :: 0 <= i < |ss| ==> Section(ss[i])
  }

  /** A statement in the body of a switch, with its labels. */
  predicate Section(s: Stmt)
    decreases s, 1
  {
    match s
    case Case(_, inner) => Section(inner)
    case Default(inner) => Section(inner)
    case _ => Structured(s)
  }

  lemma {:induction false} UnlabelledIsStructured(s: Stmt)
    requires Section(s)
    ensures Structured(Unlabelled(s))
  {
    match s
    case Case(_, inner) => UnlabelledIsStructured(inner);
    case Default(inner) => UnlabelledIsStructured(inner);
    case _ =>
  }

  lemma {:induction false} SizeAllDrop(ss: seq<Stmt>, i: nat)
    requires i <= |ss|
    ensures SizeAll(ss[i..]) <= SizeAll(ss)
    decreases i
  {
    if i == 0 {
      assert ss[0..] == ss;
    } else {
      assert ss[i..] == ss[1..][i - 1..];
      SizeAllDrop(ss[1..], i - 1);
    }
  }

  lemma {:induction false} SectionsFrom(body: Stmt, i: nat)
    requires body.Compound? && Sections(body.stmts) && i <= |body.stmts|
    ensures Sections(body.stmts[i..]) && SizeAll(body.stmts[i..]) < Size(body)
  {
    SizeAllDrop(body.stmts, i);
    assert forall j :: 0 <= j < |body.stmts[i..]| ==> body.stmts[i..][j] == body.stmts[i + j];
  }

  /** A `continue` that leaves `s` for the loop around it. */
  predicate HasContinue(s: Stmt)
    decreases s
  {
    match s
    case Compound(stmts) => exists i :: 0 <= i < |stmts| && HasContinue(stmts[i])
    case If(_, thn, els) => HasContinue(thn) || (els.Some? && HasContinue(els.value))
    case SwitchStmt(_, body) => HasContinue(body)
    case Case(_, inner) => HasContinue(inner)
    case Default(inner) => HasContinue(inner)
    case Continue => true
    case _ => false
  }

  /** The value of an expression that asks the environment nothing, whatever it is. */
  function Silent(e: Expr): Option<int> {
    match e
    case Literal(n) => Some(n)
    case Leaf(_) => None
    case Unary(_, _) => None
    case Binary(_, _, _) => None
    case Logical(isOr, left, right) =>
      (match Silent(left)
       case None => None
       case Some(x) =>
         if (x != 0) == isOr then Some(if isOr then 1 else 0)
         else
           match Silent(right)
           case None => None
           case Some(y) => Some(if y != 0 then 1 else 0))
    case Ternary(cond, thn, els) =>
      (match Silent(cond)
       case None => None
       case Some(c) => Silent(if c != 0 then thn else els))
    case Comma(left, right) => if Silent(left).None? then None else Silent(right)
  }

  /** It is silent in every environment, or in none. */
  lemma {:induction false} SilentOrNot(e: Expr, env: Environment, h: History)
    ensures Silent(e).Some? ==> Eval(e, env, h) == (Silent(e).value, h)
    ensures Silent(e).None? ==> |Eval(e, env, h).1| > |h|
    ensures |Eval(e, env, h).1| >= |h|
  {
    match e
    case Literal(_) =>
    case Leaf(_) =>
    case Unary(_, operand) => SilentOrNot(operand, env, h);
    case Binary(_, left, right) =>
      SilentOrNot(left, env, h);
      SilentOrNot(right, env, Eval(left, env, h).1);
    case Logical(_, left, right) =>
      SilentOrNot(left, env, h);
      SilentOrNot(right, env, Eval(left, env, h).1);
    case Ternary(cond, thn, els) =>
      SilentOrNot(cond, env, h);
      var (c, h1) := Eval(cond, env, h);
      SilentOrNot(if c != 0 then thn else els, env, h1);
    case Comma(left, right) =>
      SilentOrNot(left, env, h);
      SilentOrNot(right, env, Eval(left, env, h).1);
  }

  predicate Quiet(e: Option<Expr>) {
    e.Some? ==> Silent(e.value).Some?
  }

  /** Between two turns of the loop nothing happens, so that going back to the body is going
      on: `for (;;)`, `while (1)`. */
  predicate Idle(test: Option<Expr>, post: Option<Expr>) {
    Quiet(test) && Quiet(post)
  }

  /** A `continue` belongs to a `do`, or to a loop that is idle between its turns. */
  predicate ContinuesKept(s: Stmt)
    decreases s
  {
    match s
    case Compound(stmts) => forall i :: 0 <= i < |stmts| ==> ContinuesKept(stmts[i])
    case If(_, thn, els) => ContinuesKept(thn) && (els.Some? ==> ContinuesKept(els.value))
    case While(cond, body) => (HasContinue(body) ==> Idle(Some(cond), None)) && ContinuesKept(body)
    case For(_, test, post, body) => (HasContinue(body) ==> Idle(test, post)) && ContinuesKept(body)
    case DoWhile(body, _) => ContinuesKept(body)
    case SwitchStmt(_, body) => ContinuesKept(body)
    case Case(_, inner) => ContinuesKept(inner)
    case Default(inner) => ContinuesKept(inner)
    case _ => true
  }

  /** Two readings of `continue` in a `while` or a `for`: C's, where it goes on
      to the third expression and the test, and the one the back end implements,
      where it goes back to the start of the body. */
  datatype Reading = C | Lowered

  function Exec(s: Stmt, env: Environment, h: History, fuel: nat, r: Reading): (Outcome, History)
    requires Structured(s)
    decreases fuel, Size(s), 1
  {
    match s
    case Compound(stmts) => ExecAll(stmts, env, h, fuel, r)
    case Decl(inits) => (Normal, EvalAll(inits, env, h))
    case ExprStmt(e) => (Normal, Eval(e, env, h).1)
    case ReturnStmt(result) =>
      if result.Some? then
        var (v, h1) := Eval(result.value, env, h);
        (Returned(Some(v)), h1)
      else (Returned(None), h)
    case If(cond, thn, els) =>
      var (c, h1) := Eval(cond, env, h);
      if c != 0 then Exec(thn, env, h1, fuel, r)
      else if els.Some? then Exec(els.value, env, h1, fuel, r)
      else (Normal, h1)
    case While(cond, body) => Loop(Some(cond), body, None, env, h, fuel, true, r)
    case For(init, test, post, body) =>
      SimpleIsStructured(init);
      var (o, h1) := Exec(init, env, h, fuel, r);
      if o == Normal then Loop(test, body, post, env, h1, fuel, true, r) else (o, h1)
    case DoWhile(body, cond) => Repeat(body, cond, env, h, fuel, r)
    case SwitchStmt(cond, body) =>
      var (v, h1) := Eval(cond, env, h);
      SectionsFrom(body, Selected(body.stmts, v));
      AfterSwitch(ExecSections(body.stmts[Selected(body.stmts, v)..], env, h1, fuel, r))
    case Break => (Broke, h)
    case Continue => (Continued, h)
  }

  function ExecAll(ss: seq<Stmt>, env: Environment, h: History, fuel: nat, r: Reading): (Outcome, History)
    requires StructuredAll(ss)
    decreases fuel, SizeAll(ss), 0
  {
    if ss == [] then (Normal, h)
    else
      var (o, h1) := Exec(ss[0], env, h, fuel, r);
      if o == Normal then ExecAll(ss[1..], env, h1, fuel, r) else (o, h1)
  }

  /** Labels are passed by. */
  function ExecSections(ss: seq<Stmt>, env: Environment, h: History, fuel: nat, r: Reading): (Outcome, History)
    requires Sections(ss)
    decreases fuel, SizeAll(ss), 0
  {
    if ss == [] then (Normal, h)
    else
      UnlabelledIsStructured(ss[0]);
      var (o, h1) := Exec(Unlabelled(ss[0]), env, h, fuel, r);
      if o == Normal then ExecSections(ss[1..], env, h1, fuel, r) else (o, h1)
  }

  /** A `break` ends the switch. */
  function AfterSwitch(end: (Outcome, History)): (Outcome, History) {
    (if end.0 == Broke then Normal else end.0, end.1)
  }

  /** A `while` or `for` from its test, or from the start of its body. */
  function Loop(test: Option<Expr>, body: Stmt, post: Option<Expr>, env: Environment, h: History,
                fuel: nat, fromTest: bool, r: Reading): (Outcome, History)
    requires Structured(body)
    decreases fuel, 0, 0
  {
    if fuel == 0 then (Running, h)
    else
      var (c, h1) := if fromTest && test.Some? then Eval(test.value, env, h) else (1, h);
      if c == 0 then (Normal, h1)
      else
        var (o, h2) := Exec(body, env, h1, fuel - 1, r);
        match o
        case Broke => (Normal, h2)
        case Returned(_) => (o, h2)
        case Running => (o, h2)
        case Continued =>
          if r == Lowered then Loop(test, body, post, env, h2, fuel - 1, false, r)
          else Loop(test, body, post, env, EvalPost(post, env, h2), fuel - 1, true, r)
        case Normal => Loop(test, body, post, env, EvalPost(post, env, h2), fuel - 1, true, r)
  }

  function EvalPost(post: Option<Expr>, env: Environment, h: History): History {
    if post.Some? then Eval(post.value, env, h).1 else h
  }

  function Repeat(body: Stmt, cond: Expr, env: Environment, h: History, fuel: nat, r: Reading): (Outcome, History)
    requires Structured(body)
    decreases fuel, 0, 0
  {
    if fuel == 0 then (Running, h)
    else
      var (o, h1) := Exec(body, env, h, fuel - 1, r);
      match o
      case Broke => (Normal, h1)
      case Returned(_) => (o, h1)
      case Running => (o, h1)
      case _ =>
        var (c, h2) := Eval(cond, env, h1);
        if c == 0 then (Normal, h2) else Repeat(body, cond, env, h2, fuel - 1, r)
  }

  lemma {:induction false} SimpleIsStructured(s: Stmt)
    requires SimpleInit(s)
    ensures Structured(s)
    decreases s
  {
    if s.Compound? {
      forall i | 0 <= i < |s.stmts| ensures Structured(s.stmts[i]) { SimpleIsStructured(s.stmts[i]); }
    }
  }

  lemma {:induction false} StructuredIsParsed(s: Stmt)
    requires Structured(s)
    ensures Parsed(s)
    decreases s, 0
  {
    match s
    case Compound(stmts) =>
      forall i | 0 <= i < |stmts| ensures Parsed(stmts[i]) { StructuredIsParsed(stmts[i]); }
    case If(_, thn, els) =>
      StructuredIsParsed(thn);
      if els.Some? { StructuredIsParsed(els.value); }
    case While(_, body) => StructuredIsParsed(body);
    case For(_, _, _, body) => StructuredIsParsed(body);
    case DoWhile(body, _) => StructuredIsParsed(body);
    case SwitchStmt(_, body) =>
      forall i | 0 <= i < |body.stmts| ensures Parsed(body.stmts[i]) { SectionIsParsed(body.stmts[i]); }
    case _ =>
  }

  lemma {:induction false} SectionIsParsed(s: Stmt)
    requires Section(s)
    ensures Parsed(s)
    decreases s, 1
  {
    match s
    case Case(_, inner) => SectionIsParsed(inner);
    case Default(inner) => SectionIsParsed(inner);
    case _ => StructuredIsParsed(s);
  }

  // ---------- the two readings ----------

  lemma {:induction false} ContinuedNeedsContinue(s: Stmt, env: Environment, h: History, fuel: nat, r: Reading)
    requires Structured(s) && Exec(s, env, h, fuel, r).0 == Continued
    ensures HasContinue(s)
    decreases fuel, Size(s), 1
  {
    match s
    case Compound(stmts) => AllContinuedNeedsContinue(stmts, env, h, fuel, r);
    case If(cond, thn, els) =>
      var (c, h1) := Eval(cond, env, h);
      if c != 0 {
        ContinuedNeedsContinue(thn, env, h1, fuel, r);
      } else if els.Some? {
        ContinuedNeedsContinue(els.value, env, h1, fuel, r);
      }
    case While(cond, body) => LoopNeverContinues(Some(cond), body, None, env, h, fuel, true, r);
    case For(init, test, post, body) =>
      SimpleIsStructured(init);
      SimpleEndsNormally(init, env, h, fuel, r);
      LoopNeverContinues(test, body, post, env, Exec(init, env, h, fuel, r).1, fuel, true, r);
    case DoWhile(body, cond) => RepeatNeverContinues(body, cond, env, h, fuel, r);
    case SwitchStmt(cond, body) =>
      var (v, h1) := Eval(cond, env, h);
      var i := Selected(body.stmts, v);
      SectionsFrom(body, i);
      var j := SectionsContinued(body.stmts[i..], env, h1, fuel, r);
      assert HasContinue(body.stmts[i + j]);
    case _ =>
  }

  lemma {:induction false} SectionsContinued(ss: seq<Stmt>, env: Environment, h: History, fuel: nat, r: Reading)
    returns (j: nat)
    requires Sections(ss) && ExecSections(ss, env, h, fuel, r).0 == Continued
    ensures j < |ss| && HasContinue(ss[j])
    decreases fuel, SizeAll(ss), 0
  {
    UnlabelledIsStructured(ss[0]);
    var s := Unlabelled(ss[0]);
    var (o, h1) := Exec(s, env, h, fuel, r);
    if o == Normal {
      j := SectionsContinued(ss[1..], env, h1, fuel, r);
      j := j + 1;
    } else {
      ContinuedNeedsContinue(s, env, h, fuel, r);
      UnlabelledContinue(ss[0]);
      j := 0;
    }
  }

  lemma {:induction false} UnlabelledContinue(s: Stmt)
    ensures HasContinue(s) == HasContinue(Unlabelled(s)) && ContinuesKept(s) == ContinuesKept(Unlabelled(s))
  {
    match s
    case Case(_, inner) => UnlabelledContinue(inner);
    case Default(inner) => UnlabelledContinue(inner);
    case _ =>
  }

  lemma {:induction false} AllContinuedNeedsContinue(ss: seq<Stmt>, env: Environment, h: History, fuel: nat, r: Reading)
    requires StructuredAll(ss) && ExecAll(ss, env, h, fuel, r).0 == Continued
    ensures exists i :: 0 <= i < |ss| && HasContinue(ss[i])
    decreases fuel, SizeAll(ss), 0
  {
    var (o, h1) := Exec(ss[0], env, h, fuel, r);
    if o == Normal {
      AllContinuedNeedsContinue(ss[1..], env, h1, fuel, r);
      var i :| 0 <= i < |ss[1..]| && HasContinue(ss[1..][i]);
      assert HasContinue(ss[i + 1]);
    } else {
      ContinuedNeedsContinue(ss[0], env, h, fuel, r);
    }
  }

  lemma {:induction false} LoopNeverContinues(test: Option<Expr>, body: Stmt, post: Option<Expr>, env: Environment,
                                             h: History, fuel: nat, fromTest: bool, r: Reading)
    requires Structured(body)
    ensures Loop(test, body, post, env, h, fuel, fromTest, r).0 !in {Continued, Broke}
    decreases fuel, 0, 0
  {
    if fuel != 0 {
      var (c, h1) := if fromTest && test.Some? then Eval(test.value, env, h) else (1, h);
      if c != 0 {
        var (o, h2) := Exec(body, env, h1, fuel - 1, r);
        LoopNeverContinues(test, body, post, env, h2, fuel - 1, false, r);
        LoopNeverContinues(test, body, post, env, EvalPost(post, env, h2), fuel - 1, true, r);
      }
    }
  }

  lemma {:induction false} RepeatNeverContinues(body: Stmt, cond: Expr, env: Environment, h: History, fuel: nat, r: Reading)
    requires Structured(body)
    ensures Repeat(body, cond, env, h, fuel, r).0 !in {Continued, Broke}
    decreases fuel, 0, 0
  {
    hide Exec, Eval, Structured;
    if fuel != 0 {
      var (o, h1) := Exec(body, env, h, fuel - 1, r);
      RepeatNeverContinues(body, cond, env, Eval(cond, env, h1).1, fuel - 1, r);
    }
  }

  lemma {:induction false} SimpleEndsNormally(s: Stmt, env: Environment, h: History, fuel: nat, r: Reading)
    requires SimpleInit(s) && Structured(s)
    ensures Exec(s, env, h, fuel, r).0 == Normal
    decreases Size(s), 1
  {
    if s.Compound? {
      AllSimpleEndNormally(s.stmts, env, h, fuel, r);
    }
  }

  lemma {:induction false} AllSimpleEndNormally(ss: seq<Stmt>, env: Environment, h: History, fuel: nat, r: Reading)
    requires StructuredAll(ss) && forall i :: 0 <= i < |ss| ==> SimpleInit(ss[i])
    ensures ExecAll(ss, env, h, fuel, r).0 == Normal
    decreases SizeAll(ss), 0
  {
    if ss != [] {
      SimpleEndsNormally(ss[0], env, h, fuel, r);
      AllSimpleEndNormally(ss[1..], env, Exec(ss[0], env, h, fuel, r).1, fuel, r);
    }
  }

  /** The readings agree on every program whose `continue`s belong to `do` loops and to
      loops that are idle between their turns. */
  lemma {:induction false} ReadingsAgree(s: Stmt, env: Environment, h: History, fuel: nat)
    requires Structured(s) && ContinuesKept(s)
    ensures Exec(s, env, h, fuel, Lowered) == Exec(s, env, h, fuel, C)
    decreases fuel, Size(s), 1
  {
    match s
    case Compound(stmts) => AllReadingsAgree(stmts, env, h, fuel);
    case If(cond, thn, els) =>
      var (c, h1) := Eval(cond, env, h);
      if c != 0 {
        ReadingsAgree(thn, env, h1, fuel);
      } else if els.Some? {
        ReadingsAgree(els.value, env, h1, fuel);
      }
    case While(cond, body) => LoopReadingsAgree(Some(cond), body, None, env, h, fuel);
    case For(init, test, post, body) =>
      SimpleIsStructured(init);
      SimpleReadingsAgree(init, env, h, fuel);
      LoopReadingsAgree(test, body, post, env, Exec(init, env, h, fuel, C).1, fuel);
    case DoWhile(body, cond) => RepeatReadingsAgree(body, cond, env, h, fuel);
    case SwitchStmt(cond, body) =>
      var (v, h1) := Eval(cond, env, h);
      SectionsFrom(body, Selected(body.stmts, v));
      SectionsReadingsAgree(body.stmts[Selected(body.stmts, v)..], env, h1, fuel);
    case _ =>
  }

  lemma {:induction false} SectionsReadingsAgree(ss: seq<Stmt>, env: Environment, h: History, fuel: nat)
    requires Sections(ss) && forall i :: 0 <= i < |ss| ==> ContinuesKept(ss[i])
    ensures ExecSections(ss, env, h, fuel, Lowered) == ExecSections(ss, env, h, fuel, C)
    decreases fuel, SizeAll(ss), 0
  {
    if ss != [] {
      UnlabelledIsStructured(ss[0]);
      UnlabelledContinue(ss[0]);
      ReadingsAgree(Unlabelled(ss[0]), env, h, fuel);
      SectionsReadingsAgree(ss[1..], env, Exec(Unlabelled(ss[0]), env, h, fuel, C).1, fuel);
    }
  }

  lemma {:induction false} AllReadingsAgree(ss: seq<Stmt>, env: Environment, h: History, fuel: nat)
    requires StructuredAll(ss) && forall i :: 0 <= i < |ss| ==> ContinuesKept(ss[i])
    ensures ExecAll(ss, env, h, fuel, Lowered) == ExecAll(ss, env, h, fuel, C)
    decreases fuel, SizeAll(ss), 0
  {
    if ss != [] {
      ReadingsAgree(ss[0], env, h, fuel);
      AllReadingsAgree(ss[1..], env, Exec(ss[0], env, h, fuel, C).1, fuel);
    }
  }

  lemma {:induction false} SimpleReadingsAgree(s: Stmt, env: Environment, h: History, fuel: nat)
    requires SimpleInit(s) && Structured(s)
    ensures Exec(s, env, h, fuel, Lowered) == Exec(s, env, h, fuel, C)
    decreases fuel, Size(s), 1
  {
    if s.Compound? {
      AllSimpleReadingsAgree(s.stmts, env, h, fuel);
    }
  }

  lemma {:induction false} AllSimpleReadingsAgree(ss: seq<Stmt>, env: Environment, h: History, fuel: nat)
    requires StructuredAll(ss) && forall i :: 0 <= i < |ss| ==> SimpleInit(ss[i])
    ensures ExecAll(ss, env, h, fuel, Lowered) == ExecAll(ss, env, h, fuel, C)
    decreases fuel, SizeAll(ss), 0
  {
    if ss != [] {
      SimpleReadingsAgree(ss[0], env, h, fuel);
      AllSimpleReadingsAgree(ss[1..], env, Exec(ss[0], env, h, fuel, C).1, fuel);
    }
  }

  /** An idle loop that is not over goes on from its body as from its test. */
  lemma {:induction false} IdleFromBody(test: Option<Expr>, body: Stmt, post: Option<Expr>, env: Environment,
                                       was: History, c: int, h: History, fuel: nat, r: Reading)
    requires Structured(body) && Idle(test, post) && c != 0 && c == if test.Some? then Eval(test.value, env, was).0 else 1
    ensures EvalPost(post, env, h) == h
    ensures Loop(test, body, post, env, h, fuel, false, r) == Loop(test, body, post, env, h, fuel, true, r)
  {
    if test.Some? {
      SilentOrNot(test.value, env, was);
      SilentOrNot(test.value, env, h);
    }
    if post.Some? {
      SilentOrNot(post.value, env, h);
    }
  }

  lemma {:induction false} LoopReadingsAgree(test: Option<Expr>, body: Stmt, post: Option<Expr>, env: Environment,
                                            h: History, fuel: nat)
    requires Structured(body) && ContinuesKept(body) && (HasContinue(body) ==> Idle(test, post))
    ensures Loop(test, body, post, env, h, fuel, true, Lowered) == Loop(test, body, post, env, h, fuel, true, C)
    decreases fuel, 0, 0
  {
    if fuel != 0 {
      var (c, h1) := if test.Some? then Eval(test.value, env, h) else (1, h);
      if c != 0 {
        ReadingsAgree(body, env, h1, fuel - 1);
        var (o, h2) := Exec(body, env, h1, fuel - 1, C);
        if o == Continued {
          ContinuedNeedsContinue(body, env, h1, fuel - 1, C);
          IdleFromBody(test, body, post, env, h, c, h2, fuel - 1, Lowered);
        }
        LoopReadingsAgree(test, body, post, env, EvalPost(post, env, h2), fuel - 1);
      }
    }
  }

  lemma {:induction false} RepeatReadingsAgree(body: Stmt, cond: Expr, env: Environment, h: History, fuel: nat)
    requires Structured(body) && ContinuesKept(body)
    ensures Repeat(body, cond, env, h, fuel, Lowered) == Repeat(body, cond, env, h, fuel, C)
    decreases fuel, 0, 0
  {
    if fuel != 0 {
      ReadingsAgree(body, env, h, fuel - 1);
      RepeatReadingsAgree(body, cond, env, Eval(cond, env, Exec(body, env, h, fuel - 1, C).1).1, fuel - 1);
    }
  }

  /** For a loop that does nothing but continue they agree exactly when it is never entered
      or idle. */
  lemma {:induction false} ContinueExactly(test: Option<Expr>, post: Option<Expr>, env: Environment, h: History)
    ensures (forall fuel: nat :: Loop(test, Continue, post, env, h, fuel, true, Lowered)
                              == Loop(test, Continue, post, env, h, fuel, true, C)) <==>
            (test.Some? && Eval(test.value, env, h).0 == 0) || Idle(test, post)
  {
    var (c, h1) := if test.Some? then Eval(test.value, env, h) else (1, h);
    if c == 0 || Idle(test, post) {
      forall fuel: nat ensures Loop(test, Continue, post, env, h, fuel, true, Lowered)
                            == Loop(test, Continue, post, env, h, fuel, true, C) {
        if Idle(test, post) {
          LoopReadingsAgree(test, Continue, post, env, h, fuel);
        }
      }
    } else {
      TwoTurns(test, post, env, h);
    }
  }

  /** With fuel for two turns C's reading has asked more, or has ended. */
  lemma {:induction false} TwoTurns(test: Option<Expr>, post: Option<Expr>, env: Environment, h: History)
    requires !Idle(test, post) && (test.Some? ==> Eval(test.value, env, h).0 != 0)
    ensures Loop(test, Continue, post, env, h, 2, true, Lowered) != Loop(test, Continue, post, env, h, 2, true, C)
  {
    var h1 := EvalTest(test, env, h);
    var h2 := EvalPost(post, env, h1);
    var h3 := EvalTest(test, env, h2);
    assert Loop(test, Continue, post, env, h1, 0, false, Lowered) == (Running, h1);
    assert Loop(test, Continue, post, env, h1, 1, false, Lowered) == (Running, h1);
    assert Loop(test, Continue, post, env, h, 2, true, Lowered) == (Running, h1);
    assert Loop(test, Continue, post, env, h, 2, true, C) == Loop(test, Continue, post, env, h2, 1, true, C);
    GrowsUnlessQuiet(test, post, env, h1);
    if post.Some? {
      SilentOrNot(post.value, env, h3);
    }
  }

  function EvalTest(test: Option<Expr>, env: Environment, h: History): History {
    if test.Some? then Eval(test.value, env, h).1 else h
  }

  lemma {:induction false} GrowsUnlessQuiet(test: Option<Expr>, post: Option<Expr>, env: Environment, h: History)
    ensures |EvalTest(test, env, EvalPost(post, env, h))| >= |h|
    ensures !Idle(test, post) ==> |EvalTest(test, env, EvalPost(post, env, h))| > |h|
  {
    if post.Some? {
      SilentOrNot(post.value, env, h);
    }
    if test.Some? {
      SilentOrNot(test.value, env, EvalPost(post, env, h));
    }
  }

  /** They differ on `while (c) continue;`. The lowered loop tests `c` once and,
      if it held, never again; in C the same loop ends as soon as `c` fails. */
  lemma {:induction false} ContinueInWhileSpins(cond: Expr, env: Environment, h: History, fuel: nat)
    requires fuel > 0 && Eval(cond, env, h).0 != 0
    ensures Exec(While(cond, Continue), env, h, fuel, Lowered) == (Running, Eval(cond, env, h).1)
    ensures var h1 := Eval(cond, env, h).1;
            Eval(cond, env, h1).0 == 0 && fuel > 1 ==>
              Exec(While(cond, Continue), env, h, fuel, C) == (Normal, Eval(cond, env, h1).1)
  {
    var h1 := Eval(cond, env, h).1;
    SpinsFromBody(cond, env, h1, fuel - 1);
    assert Exec(Continue, env, h1, fuel - 1, Lowered) == Exec(Continue, env, h1, fuel - 1, C) == (Continued, h1);
    if Eval(cond, env, h1).0 == 0 && fuel > 1 {
      assert Loop(Some(cond), Continue, None, env, h1, fuel - 1, true, C) == (Normal, Eval(cond, env, h1).1);
    }
  }

  lemma {:induction false} SpinsFromBody(cond: Expr, env: Environment, h: History, fuel: nat)
    ensures Loop(Some(cond), Continue, None, env, h, fuel, false, Lowered) == (Running, h)
    decreases fuel
  {
    if fuel != 0 {
      SpinsFromBody(cond, env, h, fuel - 1);
    }
  }
}
