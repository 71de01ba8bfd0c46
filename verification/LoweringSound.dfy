/** Lowering never trips the builder and leaves the control context balanced. */
module LoweringSound {
  import opened Wrappers
  import opened Ir
  import opened Hir
  import opened Lowering

  ghost predicate Grew(a: Block, b: Block) {
    a.param == b.param && a.instrs <= b.instrs && (a.term.Some? ==> a == b)
  }

  /** All that may happen to the blocks on the way from `base` to `b`: the block
      being filled grows and is finished before it is left, no other block of
      `base` is touched, and control moves on only to newer blocks. */
  ghost predicate Keeps(base: Builder, b: Builder) {
    && !b.broken
    && base.cur < |base.blocks| <= |b.blocks|
    && base.nextReg <= b.nextReg
    && b.cur < |b.blocks|
    && (b.cur == base.cur || (b.cur >= |base.blocks| && b.blocks[base.cur].term.Some?))
    && Grew(base.blocks[base.cur], b.blocks[base.cur])
    && forall i :: 0 <= i < |base.blocks| && i != base.cur ==> b.blocks[i] == base.blocks[i]
  }

  lemma {:induction false} KeepsTrans(a: Builder, b: Builder, c: Builder)
    requires Keeps(a, b) && Keeps(b, c)
    ensures Keeps(a, c)
  {}

  lemma {:induction false} EmitKeeps(base: Builder, b: Builder, i: Instr)
    requires Keeps(base, b) && b.Open()
    ensures Keeps(base, b.NewReg().Emit(i)) && b.NewReg().Emit(i).Open()
  {}

  lemma {:induction false} CreateKeeps(base: Builder, b: Builder)
    requires Keeps(base, b)
    ensures Keeps(base, b.CreateBlock()) && Keeps(base, b.CreateBlockWithParam())
    ensures b.CreateBlock().Pristine(|b.blocks|) && b.CreateBlockWithParam().Pristine(|b.blocks|)
  {}

  lemma {:induction false} TerminateKeeps(base: Builder, b: Builder, t: Term)
    requires Keeps(base, b) && b.Open()
    ensures Keeps(base, b.Terminate(t)) && b.Terminate(t).Closed()
  {}

  lemma {:induction false} SwitchKeeps(base: Builder, b: Builder, i: BlockId)
    requires Keeps(base, b) && b.Closed() && b.Pristine(i) && i >= |base.blocks|
    requires base.cur < |b.blocks| && b.blocks[base.cur].term.Some?
    ensures Keeps(base, b.SwitchTo(i)) && b.SwitchTo(i).Open()
  {}

  lemma {:induction false} PristineStays(a: Builder, b: Builder, i: BlockId)
    requires Keeps(a, b) && a.Pristine(i) && i != a.cur
    ensures b.Pristine(i) && i != b.cur
  {}

  /** A block that has been left is finished. */
  lemma {:induction false} LeftIsClosed(a: Builder, b: Builder)
    requires Keeps(a, b) && b.Closed()
    ensures b.blocks[a.cur].term.Some?
  {}

  lemma {:induction false} ExprKeeps(e: Expr, b: Builder)
    requires b.Open()
    ensures var (b', r) := CompileExpr(e, b); b'.Open() && Keeps(b, b') && r < b'.nextReg
    decreases e, 1
  {
    match e
    case Literal(n) => EmitKeeps(b, b, Const(b.nextReg, n));
    case Leaf(op) => EmitKeeps(b, b, Do(b.nextReg, op, []));
    case Unary(op, operand) =>
      ExprKeeps(operand, b);
      var (b0, x) := CompileExpr(operand, b);
      EmitKeeps(b, b0, Do(b0.nextReg, op, [x]));
    case Binary(op, left, right) =>
      ExprKeeps(left, b);
      var (b0, x) := CompileExpr(left, b);
      ExprKeeps(right, b0);
      var (b1, y) := CompileExpr(right, b0);
      KeepsTrans(b, b0, b1);
      EmitKeeps(b, b1, Do(b1.nextReg, op, [x, y]));
    case Comma(left, right) =>
      ExprKeeps(left, b);
      var b0 := CompileExpr(left, b).0;
      ExprKeeps(right, b0);
      KeepsTrans(b, b0, CompileExpr(right, b0).0);
    case Logical(_, _, _) => LogicalKeeps(e, b);
    case Ternary(_, _, _) => TernaryKeeps(e, b);
  }

  /** From `mid` code was emitted up to `b`; now `b`'s block is finished and the
      waiting block `next` is started. Other waiting blocks keep waiting. */
  lemma {:induction false} FinishKeeps(base: Builder, mid: Builder, b: Builder, t: Term, next: BlockId)
    requires Keeps(base, mid) && Keeps(mid, b) && b.Open()
    requires mid.Pristine(next) && next != mid.cur && next >= |base.blocks|
    ensures var r := b.Terminate(t).SwitchTo(next);
            && Keeps(base, r) && r.Open() && r.cur == next && |r.blocks| == |b.blocks|
            && r.blocks[next] == mid.blocks[next]
            && forall j {:trigger r.Pristine(j)} :: mid.Pristine(j) && j != mid.cur ==> r.Pristine(j)
  {
    KeepsTrans(base, mid, b);
    TerminateKeeps(base, b, t);
    LeftIsClosed(base, b.Terminate(t));
    SwitchKeeps(base, b.Terminate(t), next);
  }

  lemma {:induction false} LogicalStartKeeps(b: Builder)
    requires b.Open()
    ensures var s := LogicalStart(b);
            Keeps(b, s) && s.Open() && s.cur == b.cur && s.Pristine(|b.blocks|) && s.Pristine(|b.blocks| + 1)
  {}

  lemma {:induction false} LogicalKeeps(e: Expr, b: Builder)
    requires e.Logical? && b.Open()
    ensures var (b', r) := CompileLogical(e, b); b'.Open() && Keeps(b, b') && r < b'.nextReg
    decreases e, 0
  {
    hide CompileExpr, LogicalTest;
    var b0 := LogicalStart(b);
    LogicalStartKeeps(b);
    ExprKeeps(e.left, b0);
    var (b1, l) := CompileExpr(e.left, b0);
    var b2 := LogicalMiddle(e.isOr, b, b1, l);
    FinishKeeps(b, b0, b1, LogicalTest(e.isOr, l, |b.blocks|, |b.blocks| + 1), |b.blocks|);
    assert b2.Pristine(|b.blocks| + 1);
    ExprKeeps(e.right, b2);
    var (b3, r) := CompileExpr(e.right, b2);
    FinishKeeps(b, b2, b3, Jump(Edge(|b.blocks| + 1, Some(r))), |b.blocks| + 1);
    var b4 := LogicalMerge(b, b3, r);
    EmitKeeps(b, b4, IsNonZero(b4.nextReg, b.nextReg));
  }

  lemma {:induction false} TernaryForkKeeps(base: Builder, mid: Builder, b: Builder, c: Reg)
    requires Keeps(base, mid) && Keeps(mid, b) && b.Open()
    ensures var r := TernaryFork(b, c);
            && Keeps(base, r) && r.Open() && r.cur == |b.blocks| && r.Pristine(|b.blocks| + 1)
            && forall j {:trigger r.Pristine(j)} :: mid.Pristine(j) && j != mid.cur ==> r.Pristine(j) && j != r.cur
  {
    CreateKeeps(mid, b);
    CreateKeeps(mid, b.CreateBlock());
    var b1 := b.CreateBlock().CreateBlock();
    KeepsTrans(base, mid, b1);
    FinishKeeps(base, b1, b1, Brif(c, Edge(|b.blocks|, None), Edge(|b.blocks| + 1, None)), |b.blocks|);
    forall j | mid.Pristine(j) && j != mid.cur
      ensures TernaryFork(b, c).Pristine(j) && j != |b.blocks|
    {
      assert b1.Pristine(j);
    }
  }

  lemma {:induction false} TernaryKeeps(e: Expr, b: Builder)
    requires e.Ternary? && b.Open()
    ensures var (b', r) := CompileTernary(e, b); b'.Open() && Keeps(b, b') && r < b'.nextReg
    decreases e, 0
  {
    hide CompileExpr;
    var target := |b.blocks|;
    var b0 := b.CreateBlockWithParam();
    CreateKeeps(b, b);
    ExprKeeps(e.cond, b0);
    var (b1, c) := CompileExpr(e.cond, b0);
    TernaryForkKeeps(b, b0, b1, c);
    var b2 := TernaryFork(b1, c);
    assert b2.Pristine(target);
    ExprKeeps(e.thn, b2);
    var (b3, l) := CompileExpr(e.thn, b2);
    var b4 := FinishInto(b3, target, l, |b1.blocks| + 1);
    FinishKeeps(b, b2, b3, Jump(Edge(target, Some(l))), |b1.blocks| + 1);
    assert b4.Pristine(target);
    ExprKeeps(e.els, b4);
    var (b5, r) := CompileExpr(e.els, b4);
    FinishKeeps(b, b4, b5, Jump(Edge(target, Some(r))), target);
  }

  lemma {:induction false} ExprsKeep(es: seq<Expr>, b: Builder)
    requires b.Open()
    ensures CompileExprs(es, b).Open() && Keeps(b, CompileExprs(es, b))
  {
    if es != [] {
      ExprKeeps(es[0], b);
      var b0 := CompileExpr(es[0], b).0;
      ExprsKeep(es[1..], b0);
      KeepsTrans(b, b0, CompileExprs(es[1..], b0));
    }
  }

  // ---------- statements ----------

  /** `state` is Filled exactly when the current block has its terminator. */
  ghost predicate Valid(st: State) {
    && !st.b.broken
    && st.b.cur < |st.b.blocks|
    && (st.c.state == Filled <==> st.b.blocks[st.b.cur].term.Some?)
  }

  ghost predicate SwitchGrew(a: SwitchContext, b: SwitchContext) {
    && a.end == b.end
    && (a.default.Some? ==> b.default == a.default)
    && forall v :: v in a.entries ==> v in b.entries && b.entries[v] == a.entries[v]
  }

  /** The control context on the way out of a statement: as on the way in, with
      new entries in the innermost switch only and new labels. */
  ghost predicate Balanced(base: Control, c: Control) {
    && c.loops == base.loops
    && c.lastSawLoop == base.lastSawLoop
    && |c.switches| == |base.switches|
    && (forall i :: 0 <= i < |base.switches| - 1 ==> c.switches[i] == base.switches[i])
    && (base.switches != [] ==> SwitchGrew(Top(base), Top(c)))
    && (forall n :: n in base.labels ==> n in c.labels && c.labels[n] == base.labels[n])
  }

  lemma {:induction false} BalancedTrans(a: Control, b: Control, c: Control)
    requires Balanced(a, b) && Balanced(b, c)
    ensures Balanced(a, c)
  {}

  /** New labels are at new blocks. */
  ghost predicate LabelsNew(base: State, st: State) {
    forall n :: n in st.c.labels ==>
      (n in base.c.labels && st.c.labels[n] == base.c.labels[n]) || st.c.labels[n] >= |base.b.blocks|
  }

  /** What lowering one statement guarantees. */
  ghost predicate Sound(base: State, st: State) {
    Valid(st) && Keeps(base.b, st.b) && Balanced(base.c, st.c) && LabelsNew(base, st)
  }

  lemma {:induction false} SoundTrans(a: State, b: State, c: State)
    requires Sound(a, b) && Sound(b, c)
    ensures Sound(a, c)
  {
    KeepsTrans(a.b, b.b, c.b);
    BalancedTrans(a.c, b.c, c.c);
  }

  lemma {:induction false} SelfKeeps(b: Builder)
    requires !b.broken && b.cur < |b.blocks|
    ensures Keeps(b, b)
  {}

  /** `JumpToBlock` then `SwitchToBlock` on a block that has been waiting since `mid`. */
  lemma {:induction false} JumpSwitchKeeps(base: Builder, mid: Builder, st: State, target: BlockId, next: BlockId)
    requires Keeps(base, mid) && Keeps(mid, st.b) && Valid(st)
    requires mid.Pristine(next) && next != mid.cur && next >= |base.blocks|
    ensures var r := st.JumpToBlock(target).SwitchToBlock(next);
            && Valid(r) && r.c == st.c.(state := Empty)
            && Keeps(base, r.b) && r.b.Open() && r.b.cur == next && |r.b.blocks| == |st.b.blocks|
            && forall j {:trigger r.b.Pristine(j)} :: mid.Pristine(j) && j != mid.cur ==> r.b.Pristine(j)
  {
    KeepsTrans(base, mid, st.b);
    var s1 := st.JumpToBlock(target);
    if st.c.state == Empty {
      TerminateKeeps(base, st.b, Jump(Edge(target, None)));
    }
    LeftIsClosed(base, s1.b);
    SwitchKeeps(base, s1.b, next);
  }

  lemma {:induction false} SimpleStaysOpen(s: Stmt, st: State)
    requires SimpleInit(s) && CompileStmt(s, st).Ok?
    ensures CompileStmt(s, st).value.c == st.c && st.c.state == Empty
    decreases Size(s), 0
  {
    if s.Compound? {
      SimpleAllStaysOpen(s.stmts, st);
    }
  }

  lemma {:induction false} SimpleAllStaysOpen(ss: seq<Stmt>, st: State)
    requires forall i :: 0 <= i < |ss| ==> SimpleInit(ss[i])
    requires CompileAll(ss, st).Ok?
    ensures CompileAll(ss, st).value.c == st.c
    decreases SizeAll(ss), 0
  {
    if ss != [] {
      SimpleStaysOpen(ss[0], st);
      SimpleAllStaysOpen(ss[1..], CompileStmt(ss[0], st).value);
    }
  }

  lemma {:induction false} AllSound(ss: seq<Stmt>, st: State)
    requires ParsedAll(ss) && Valid(st) && CompileAll(ss, st).Ok?
    ensures Sound(st, CompileAll(ss, st).value)
    decreases SizeAll(ss), 0
  {
    if ss == [] {
      SelfKeeps(st.b);
    } else {
      StmtSound(ss[0], st);
      var s1 := CompileStmt(ss[0], st).value;
      AllSound(ss[1..], s1);
      SoundTrans(st, s1, CompileAll(ss[1..], s1).value);
    }
  }

  lemma {:induction false} StmtSound(s: Stmt, st: State)
    requires Parsed(s) && Valid(st) && CompileStmt(s, st).Ok?
    ensures Sound(st, CompileStmt(s, st).value)
    decreases Size(s), 1
  {
    SelfKeeps(st.b);
    match s
    case Compound(stmts) => AllSound(stmts, st);
    case Decl(inits) => ExprsKeep(inits, st.b);
    case ExprStmt(e) => ExprKeeps(e, st.b);
    case ReturnStmt(result) => ReturnSound(result, st);
    case If(cond, thn, els) => IfSound(cond, thn, els, st);
    case While(cond, body) => WhileSound(Some(cond), body, st);
    case Break => ExitSound(true, st);
    case Continue => ExitSound(false, st);
    case For(init, test, post, body) =>
      var s1 := CompileStmt(init, st).value;
      var r := WhileStmt(test, WithPost(body, post), s1).value;
      assert Sound(st, r) by {
        SimpleIsParsed(init);
        StmtSound(init, st);
        SimpleStaysOpen(init, st);
        WithPostParsed(body, post);
        WhileSound(test, WithPost(body, post), s1);
        SoundTrans(st, s1, r);
      }
    case DoWhile(body, cond) => DoSound(body, cond, st);
    case SwitchStmt(cond, body) => SwitchSound(cond, body, st);
    case Goto(name) => JumpSound(st.c.labels[name], st);
    case _ => LabelledSound(s, st);
  }

  lemma {:induction false} LabelledSound(s: Stmt, st: State)
    requires IsJumpTarget(s) && Parsed(s) && Valid(st) && CompileStmt(s, st).Ok?
    ensures Sound(st, CompileStmt(s, st).value)
    decreases Size(s), 0
  {
    var s1 := match s
      case Label(name, _) => EnterLabel(name, st)
      case Case(value, _) => EnterCase(value, st)
      case Default(_) => EnterDefault(st);
    assert Sound(st, s1) by {
      match s
      case Label(name, _) => LabelSound(name, st);
      case Case(value, _) => EnterCaseSound(value, st);
      case Default(_) => EnterDefaultSound(st);
    }
    StmtSound(s.inner, s1);
    SoundTrans(st, s1, CompileStmt(s.inner, s1).value);
  }

  lemma {:induction false} WithPostParsed(body: Stmt, post: Option<Expr>)
    requires Parsed(body)
    ensures Parsed(WithPost(body, post))
  {}

  lemma {:induction false} JumpSound(target: BlockId, st: State)
    requires Valid(st)
    ensures Sound(st, st.JumpToBlock(target))
  {
    SelfKeeps(st.b);
  }

  lemma {:induction false} ReturnSound(result: Option<Expr>, st: State)
    requires Valid(st) && st.c.state == Empty
    ensures Sound(st, CompileStmt(ReturnStmt(result), st).value)
  {
    SelfKeeps(st.b);
    if result.Some? {
      ExprKeeps(result.value, st.b);
      var (b0, x) := CompileExpr(result.value, st.b);
      TerminateKeeps(st.b, b0, Return(Some(x)));
    } else {
      TerminateKeeps(st.b, st.b, Return(None));
    }
  }

  lemma {:induction false} ExitSound(isBreak: bool, st: State)
    requires Valid(st) && LoopExit(isBreak, st).Ok?
    ensures Sound(st, LoopExit(isBreak, st).value)
  {
    SelfKeeps(st.b);
  }

  /** The block a label, case or default opens. */
  lemma {:induction false} NewBlockSound(st: State)
    requires Valid(st)
    ensures Sound(st, NewBlock(st)) && NewBlock(st).b.Open()
    ensures NewBlock(st).c == st.c.(state := Empty)
  {
    SelfKeeps(st.b);
    CreateKeeps(st.b, st.b);
    var s1 := st.(b := st.b.CreateBlock());
    SelfKeeps(s1.b);
    JumpSwitchKeeps(st.b, s1.b, s1, |st.b.blocks|, |st.b.blocks|);
  }

  lemma {:induction false} LabelSound(name: string, st: State)
    requires Valid(st) && name !in st.c.labels
    ensures Sound(st, EnterLabel(name, st))
  {
    NewBlockSound(st);
  }

  lemma {:induction false} EnterCaseSound(value: nat, st: State)
    requires Valid(st) && st.c.switches != [] && value !in Top(st.c).entries
    ensures Sound(st, EnterCase(value, st))
  {
    NewBlockSound(st);
    SelfKeeps(st.b);
  }

  lemma {:induction false} EnterDefaultSound(st: State)
    requires Valid(st) && st.c.switches != [] && Top(st.c).default.None?
    ensures Sound(st, EnterDefault(st))
  {
    NewBlockSound(st);
    SelfKeeps(st.b);
  }

  lemma {:induction false} IfForkKeeps(base: Builder, b: Builder, c: Reg, hasElse: bool)
    requires Keeps(base, b) && b.Open()
    ensures var r := IfFork(b, c, hasElse);
            && Keeps(base, r) && r.Open() && r.cur == |b.blocks| && r.Pristine(|b.blocks| + 1)
            && (hasElse ==> r.Pristine(|b.blocks| + 2))
  {
    CreateKeeps(base, b);
    CreateKeeps(base, b.CreateBlock());
    CreateKeeps(base, b.CreateBlock().CreateBlock());
    var b1 := b.CreateBlock().CreateBlock();
    var b2 := if hasElse then b1.CreateBlock() else b1;
    SelfKeeps(b2);
    FinishKeeps(base, b2, b2, Brif(c, Edge(|b.blocks|, None), Edge(|b.blocks| + if hasElse then 2 else 1, None)), |b.blocks|);
    assert b2.Pristine(|b.blocks| + 1) && (hasElse ==> b2.Pristine(|b.blocks| + 2));
  }

  /** `st` has just started the body of an `if` (see `IfFork`) on the way from `base`. */
  ghost predicate IfEntered(base: State, st: State, hasElse: bool, end: BlockId) {
    && Sound(base, st) && st.b.cur >= |base.b.blocks| && end == st.b.cur + 1 && st.b.Pristine(end)
    && (hasElse ==> st.b.Pristine(end + 1))
  }

  lemma {:induction false} IfStartSound(cond: Expr, hasElse: bool, st: State)
    requires Valid(st) && st.c.state == Empty
    ensures IfEntered(st, IfStart(cond, hasElse, st).0, hasElse, IfStart(cond, hasElse, st).1)
    ensures IfStart(cond, hasElse, st).0.c == st.c
  {
    ExprKeeps(cond, st.b);
    var (b0, c) := CompileExpr(cond, st.b);
    IfForkKeeps(st.b, b0, c, hasElse);
  }

  lemma {:induction false} IfSound(cond: Expr, thn: Stmt, els: Option<Stmt>, st: State)
    requires Parsed(thn) && (els.Some? ==> Parsed(els.value)) && Valid(st) && st.c.state == Empty
    requires IfStmt(cond, thn, els, st).Ok?
    ensures Sound(st, IfStmt(cond, thn, els, st).value)
    decreases Size(thn) + (if els.Some? then Size(els.value) else 0), 4
  {
    var (s1, end) := IfStart(cond, els.Some?, st);
    IfStartSound(cond, els.Some?, st);
    StmtSound(thn, s1);
    IfRestSound(els, st, s1, CompileStmt(thn, s1).value, end);
  }

  lemma {:induction false} IfRestSound(els: Option<Stmt>, base: State, mid: State, st: State, end: BlockId)
    requires (els.Some? ==> Parsed(els.value)) && IfEntered(base, mid, els.Some?, end) && Sound(mid, st)
    requires IfRest(els, end, st).Ok?
    ensures Sound(base, IfRest(els, end, st).value)
    decreases if els.Some? then Size(els.value) else 0, 3
  {
    match els
    case Some(other) => ElseSound(other, base, mid, st, end);
    case None => ThenEndSound(base, mid, st, end);
  }

  lemma {:induction false} ElseSound(els: Stmt, base: State, mid: State, st: State, end: BlockId)
    requires Parsed(els) && IfEntered(base, mid, true, end) && Sound(mid, st)
    requires ElseBranch(els, end, st).Ok?
    ensures Sound(base, ElseBranch(els, end, st).value)
    decreases Size(els), 2
  {
    var s2 := st.JumpToBlock(end).SwitchToBlock(end + 1);
    ElseStartSound(base, mid, st, end);
    StmtSound(els, s2);
    IfJoinSound(base, s2, CompileStmt(els, s2).value, st.c.state == Filled, end);
  }

  lemma {:induction false} ThenEndSound(base: State, mid: State, st: State, end: BlockId)
    requires IfEntered(base, mid, false, end) && Sound(mid, st)
    ensures Sound(base, st.JumpToBlock(end).SwitchToBlock(end))
  {
    JumpSwitchKeeps(base.b, mid.b, st, end, end);
    BalancedTrans(base.c, mid.c, st.c);
  }

  lemma {:induction false} ElseStartSound(base: State, mid: State, st: State, end: BlockId)
    requires IfEntered(base, mid, true, end) && Sound(mid, st)
    ensures var r := st.JumpToBlock(end).SwitchToBlock(end + 1);
            && Sound(base, r) && r.b.Pristine(end) && r.b.cur == end + 1
  {
    JumpSwitchKeeps(base.b, mid.b, st, end, end + 1);
    BalancedTrans(base.c, mid.c, st.c);
    assert mid.b.Pristine(end);
  }

  lemma {:induction false} IfJoinSound(base: State, mid: State, st: State, ifHasReturn: bool, end: BlockId)
    requires Sound(base, mid) && Sound(mid, st)
    requires mid.b.Pristine(end) && end != mid.b.cur && end >= |base.b.blocks|
    ensures Sound(base, IfJoin(ifHasReturn, end, st))
  {
    JumpSwitchKeeps(base.b, mid.b, st, end, end);
    KeepsTrans(base.b, mid.b, st.b);
    BalancedTrans(base.c, mid.c, st.c);
  }

  lemma {:induction false} EnterLoopSound(st: State)
    requires Valid(st) && st.c.state == Empty
    ensures var r := EnterLoop(st);
            && Valid(r) && r.c.state == Empty && Keeps(st.b, r.b) && r.b.cur == |st.b.blocks|
            && r.b.Pristine(|st.b.blocks| + 1) && r.b.Pristine(|st.b.blocks| + 2)
            && r.c == st.c.(loops := st.c.loops + [(|st.b.blocks| + 1, |st.b.blocks| + 2)], lastSawLoop := true)
  {
    var h := |st.b.blocks|;
    SelfKeeps(st.b);
    CreateKeeps(st.b, st.b);
    CreateKeeps(st.b, st.b.CreateBlock());
    CreateKeeps(st.b, st.b.CreateBlock().CreateBlock());
    var b := st.b.CreateBlock().CreateBlock().CreateBlock();
    SelfKeeps(b);
    FinishKeeps(st.b, b, b, Jump(Edge(h, None)), h);
    assert b.Pristine(h + 1) && b.Pristine(h + 2);
  }

  lemma {:induction false} LoopTestSound(cond: Option<Expr>, base: Builder, st: State)
    requires Valid(st) && st.c.state == Empty && Keeps(base, st.b)
    requires st.b.cur >= |base.blocks| && st.b.Pristine(st.b.cur + 1) && st.b.Pristine(st.b.cur + 2)
    ensures var r := LoopTest(cond, st.b.cur, st);
            && Valid(r) && r.c == st.c && Keeps(base, r.b) && r.b.cur == st.b.cur + 1
            && r.b.Pristine(st.b.cur + 2)
  {
    var h := st.b.cur;
    SelfKeeps(st.b);
    if cond.Some? {
      ExprKeeps(cond.value, st.b);
      var (b, c) := CompileExpr(cond.value, st.b);
      FinishKeeps(base, st.b, b, Brif(c, Edge(h + 1, None), Edge(h + 2, None)), h + 1);
    } else {
      FinishKeeps(base, st.b, st.b, Jump(Edge(h + 1, None)), h + 1);
    }
  }

  lemma {:induction false} WhileSound(cond: Option<Expr>, body: Stmt, st: State)
    requires Parsed(body) && Valid(st) && st.c.state == Empty && WhileStmt(cond, body, st).Ok?
    ensures Sound(st, WhileStmt(cond, body, st).value)
    decreases Size(body) + 1, 2
  {
    hide CompileStmt, CompileExpr;
    var h := |st.b.blocks|;
    EnterLoopSound(st);
    var s1 := EnterLoop(st);
    LoopTestSound(cond, st.b, s1);
    var s2 := LoopTest(cond, h, s1);
    StmtSound(body, s2);
    WhileFinish(st, s2, CompileStmt(body, s2).value, h);
  }

  /** `mid` is in the body of a loop with header `h`, entered on the way from `base`. */
  ghost predicate LoopEntered(base: State, mid: State, h: BlockId) {
    && h >= |base.b.blocks| && Keeps(base.b, mid.b) && base.c.state == Empty
    && mid.c == base.c.(loops := base.c.loops + [(h + 1, h + 2)], lastSawLoop := true)
  }

  lemma {:induction false} WhileFinish(base: State, mid: State, st: State, h: BlockId)
    requires LoopEntered(base, mid, h) && Sound(mid, st)
    requires mid.b.cur == h + 1 && mid.b.Pristine(h + 2)
    ensures Sound(base, ExitLoop(st.JumpToBlock(h).SwitchToBlock(h + 2), base.c.lastSawLoop))
  {
    JumpSwitchKeeps(base.b, mid.b, st, h, h + 2);
    LoopPopped(base.c, h, st.c);
  }

  lemma {:induction false} LoopPopped(c: Control, h: BlockId, inner: Control)
    requires Balanced(c.(loops := c.loops + [(h + 1, h + 2)], lastSawLoop := true), inner)
    ensures inner.loops != [] && inner.loops[..|inner.loops| - 1] == c.loops
    ensures Balanced(c, inner.(loops := c.loops, lastSawLoop := c.lastSawLoop, state := Empty))
  {}

  lemma {:induction false} DoSound(body: Stmt, cond: Expr, st: State)
    requires Parsed(body) && Valid(st) && st.c.state == Empty && DoLoop(body, cond, st).Ok?
    ensures Sound(st, DoLoop(body, cond, st).value)
    decreases Size(body), 2
  {
    EnterLoopSound(st);
    StmtSound(body, EnterLoop(st));
    DoFinish(cond, st, EnterLoop(st), CompileStmt(body, EnterLoop(st)).value, |st.b.blocks|);
  }

  lemma {:induction false} DoFinish(cond: Expr, base: State, mid: State, st: State, h: BlockId)
    requires LoopEntered(base, mid, h) && Sound(mid, st)
    requires mid.b.cur == h && mid.b.Pristine(h + 1) && mid.b.Pristine(h + 2)
    ensures Sound(base, ExitLoop(DoTest(cond, h, st.JumpToBlock(h + 1).SwitchToBlock(h + 1)), base.c.lastSawLoop))
  {
    DoTestSound(cond, base.b, mid.b, st, h);
    LoopPopped(base.c, h, st.c);
  }

  lemma {:induction false} DoTestSound(cond: Expr, base: Builder, mid: Builder, st: State, h: BlockId)
    requires Keeps(base, mid) && Keeps(mid, st.b) && Valid(st) && h >= |base.blocks|
    requires mid.cur == h && mid.Pristine(h + 1) && mid.Pristine(h + 2)
    ensures var r := DoTest(cond, h, st.JumpToBlock(h + 1).SwitchToBlock(h + 1));
            Valid(r) && r.c == st.c.(state := Empty) && Keeps(base, r.b)
  {
    JumpSwitchKeeps(base, mid, st, h + 1, h + 1);
    var s2 := st.JumpToBlock(h + 1).SwitchToBlock(h + 1);
    assert s2.b.Pristine(h + 2);
    ExprKeeps(cond, s2.b);
    var (b, c) := CompileExpr(cond, s2.b);
    FinishKeeps(base, s2.b, b, Brif(c, Edge(h, None), Edge(h + 2, None)), h + 2);
  }

  lemma {:induction false} EnterSwitchSound(base: Builder, st: State)
    requires Valid(st) && st.c.state == Empty && Keeps(base, st.b)
    ensures var r := EnterSwitch(st); var d := |st.b.blocks|;
            && Valid(r) && Keeps(base, r.b) && r.b.cur == d + 1
            && r.b.Pristine(d) && r.b.Pristine(d + 2)
            && r.c == st.c.(lastSawLoop := false,
                            switches := st.c.switches + [SwitchContext(map[], None, d + 2)])
  {
    hide CompileStmt, CompileExpr;
    var d := |st.b.blocks|;
    CreateKeeps(base, st.b);
    var s0 := st.(b := st.b.CreateBlock());
    TerminateKeeps(base, s0.b, Jump(Edge(d, None)));
    var s1 := s0.JumpToBlock(d);
    CreateKeeps(base, s1.b);
    LeftIsClosed(base, s1.b);
    var s2 := s1.(b := s1.b.CreateBlock());
    SwitchKeeps(base, s2.b, d + 1);
    CreateKeeps(base, s2.SwitchToBlock(d + 1).b);
  }

  /** `st` has just entered a switch (see `EnterSwitch`) on the way from `base`. */
  ghost predicate SwitchEntered(base: State, st: State) {
    && Valid(st) && Keeps(base.b, st.b) && st.b.cur > |base.b.blocks|
    && st.b.Pristine(st.b.cur - 1) && st.b.Pristine(st.b.cur + 1)
    && st.c == base.c.(lastSawLoop := false,
                       switches := base.c.switches + [SwitchContext(map[], None, st.b.cur + 1)])
  }

  lemma {:induction false} SwitchStartSound(cond: Expr, st: State)
    requires Valid(st) && st.c.state == Empty
    ensures SwitchEntered(st, SwitchStart(cond, st).0)
    ensures SwitchStart(cond, st).0.b.cur == SwitchStart(cond, st).2 + 1
  {
    ExprKeeps(cond, st.b);
    EnterSwitchSound(st.b, st.(b := CompileExpr(cond, st.b).0));
  }

  lemma {:induction false} SwitchFinish(base: State, mid: State, st: State, v: Reg, d: BlockId)
    requires SwitchEntered(base, mid) && Sound(mid, st) && base.c.state == Empty && mid.b.cur == d + 1
    ensures st.c.switches != [] && Sound(base, LeaveSwitch(v, d, base.c.lastSawLoop, st))
  {
    SwitchPopped(base.c, mid.b.cur + 1, st.c);
    LeaveSwitchSound(base.b, mid.b, st, v, d, base.c.lastSawLoop);
  }

  lemma {:induction false} SwitchSound(cond: Expr, body: Stmt, st: State)
    requires Parsed(body) && Valid(st) && st.c.state == Empty && CompileSwitch(cond, body, st).Ok?
    ensures Sound(st, CompileSwitch(cond, body, st).value)
    decreases Size(body), 2
  {
    var (s1, v, dispatch) := SwitchStart(cond, st);
    SwitchStartSound(cond, st);
    StmtSound(body, s1);
    SwitchFinish(st, s1, CompileStmt(body, s1).value, v, dispatch);
  }

  lemma {:induction false} LeaveSwitchSound(base: Builder, mid: Builder, st: State, v: Reg, d: BlockId, sawLoop: bool)
    requires Keeps(base, mid) && Keeps(mid, st.b) && Valid(st) && d >= |base.blocks|
    requires mid.cur == d + 1 && mid.Pristine(d) && mid.Pristine(d + 2)
    requires st.c.switches != [] && Top(st.c).end == d + 2
    ensures var r := LeaveSwitch(v, d, sawLoop, st);
            && Valid(r) && Keeps(base, r.b)
            && r.c == st.c.(switches := st.c.switches[..|st.c.switches| - 1], lastSawLoop := sawLoop, state := Empty)
  {
    var sw := Top(st.c);
    var s2 := st.(c := st.c.(switches := st.c.switches[..|st.c.switches| - 1], lastSawLoop := sawLoop));
    JumpSwitchKeeps(base, mid, s2, d + 2, d);
    var s3 := s2.JumpToBlock(d + 2).SwitchToBlock(d);
    assert s3.b.Pristine(d + 2);
    SelfKeeps(s3.b);
    FinishKeeps(base, s3.b, s3.b, Switch(v, sw.entries, if sw.default.Some? then sw.default.value else d + 2), d + 2);
  }

  lemma {:induction false} SwitchPopped(c: Control, end: BlockId, inner: Control)
    requires Balanced(c.(lastSawLoop := false, switches := c.switches + [SwitchContext(map[], None, end)]), inner)
    ensures inner.switches != [] && Top(inner).end == end
    ensures inner.switches[..|inner.switches| - 1] == c.switches
    ensures Balanced(c, inner.(switches := c.switches, lastSawLoop := c.lastSawLoop, state := Empty))
  {
    var outer := c.(lastSawLoop := false, switches := c.switches + [SwitchContext(map[], None, end)]);
    assert Top(outer) == SwitchContext(map[], None, end);
    assert forall i :: 0 <= i < |c.switches| ==> inner.switches[i] == outer.switches[i] == c.switches[i];
  }
}
