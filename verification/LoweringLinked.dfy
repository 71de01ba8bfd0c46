/** Every branch in a lowered function goes to a block that was entered and finished. */
module LoweringLinked {
  import opened Wrappers
  import opened Ir
  import opened Hir
  import opened Lowering
  import opened LoweringSound

  /** A block that has been entered: finished, or being filled. */
  ghost predicate Entered(b: Builder, t: BlockId) {
    t == b.cur || (t < |b.blocks| && b.blocks[t].term.Some?)
  }

  /** Branches go to entered blocks, or to those in `waiting`, which the code
      around the one being lowered is going to enter. */
  ghost predicate TargetsEntered(b: Builder, waiting: set<BlockId>) {
    forall i, t {:trigger t in Targets(b.blocks[i].term.value)} ::
      0 <= i < |b.blocks| && b.blocks[i].term.Some? && t in Targets(b.blocks[i].term.value) ==>
        t in waiting || Entered(b, t)
  }

  /** A block is finished, being filled, or has never been entered. */
  ghost predicate NoneAbandoned(b: Builder) {
    forall i :: 0 <= i < |b.blocks| && i != b.cur && b.blocks[i].term.None? ==> b.blocks[i].instrs == []
  }

  ghost predicate Linked(b: Builder, waiting: set<BlockId>) {
    TargetsEntered(b, waiting) && NoneAbandoned(b)
  }

  ghost predicate CasesEntered(b: Builder, sw: SwitchContext) {
    && (forall v :: v in sw.entries ==> Entered(b, sw.entries[v]))
    && (sw.default.Some? ==> Entered(b, sw.default.value))
  }

  /** The blocks the control context names: labels and cases have been entered,
      ends of loops and switches are waiting. */
  ghost predicate NamesEntered(b: Builder, c: Control) {
    && (forall n :: n in c.labels ==> Entered(b, c.labels[n]))
    && (forall i :: 0 <= i < |c.switches| ==> CasesEntered(b, c.switches[i]))
  }

  ghost predicate ExitsWait(c: Control, waiting: set<BlockId>) {
    && (forall i :: 0 <= i < |c.loops| ==> c.loops[i].0 in waiting && c.loops[i].1 in waiting)
    && (forall i :: 0 <= i < |c.switches| ==> c.switches[i].end in waiting)
  }

  lemma {:induction false} EnteredStays(a: Builder, b: Builder, t: BlockId)
    requires Keeps(a, b) && Entered(a, t)
    ensures Entered(b, t)
  {}

  lemma {:induction false} LinkedMore(b: Builder, w: set<BlockId>, w': set<BlockId>)
    requires Linked(b, w) && w <= w'
    ensures Linked(b, w')
  {}

  lemma {:induction false} EmitLinked(b: Builder, i: Instr, w: set<BlockId>)
    requires Linked(b, w) && b.Open()
    ensures Linked(b.NewReg().Emit(i), w)
  {
    var r := b.NewReg().Emit(i);
    assert forall j :: 0 <= j < |b.blocks| ==> r.blocks[j].term == b.blocks[j].term;
  }

  lemma {:induction false} CreateLinked(b: Builder, w: set<BlockId>)
    requires Linked(b, w) && b.cur < |b.blocks|
    ensures Linked(b.CreateBlock(), w) && Linked(b.CreateBlockWithParam(), w)
  {}

  lemma {:induction false} TerminateLinked(b: Builder, t: Term, w: set<BlockId>)
    requires Linked(b, w) && b.Open()
    requires forall x :: x in Targets(t) ==> x in w || Entered(b, x)
    ensures Linked(b.Terminate(t), w)
  {
    var r := b.Terminate(t);
    assert forall x :: Entered(b, x) ==> Entered(r, x);
  }

  lemma {:induction false} SwitchLinked(b: Builder, next: BlockId, w: set<BlockId>)
    requires b.Closed() && b.Pristine(next) && Linked(b, w + {next})
    ensures Linked(b.SwitchTo(next), w)
  {
    var r := b.SwitchTo(next);
    assert forall x :: Entered(b, x) ==> Entered(r, x);
  }

  lemma {:induction false} FinishLinked(b: Builder, t: Term, next: BlockId, w: set<BlockId>)
    requires b.Open() && b.Pristine(next) && next != b.cur && Linked(b, w + {next})
    requires forall x :: x in Targets(t) ==> x in w || x == next || Entered(b, x)
    ensures Linked(b.Terminate(t).SwitchTo(next), w)
  {
    TerminateLinked(b, t, w + {next});
    SwitchLinked(b.Terminate(t), next, w);
  }

  lemma {:induction false} ExprLinked(e: Expr, b: Builder, w: set<BlockId>)
    requires b.Open() && Linked(b, w)
    ensures Linked(CompileExpr(e, b).0, w)
    decreases e, 1
  {
    match e
    case Literal(n) => EmitLinked(b, Const(b.nextReg, n), w);
    case Leaf(op) => EmitLinked(b, Do(b.nextReg, op, []), w);
    case Unary(op, operand) =>
      ExprLinked(operand, b, w);
      ExprKeeps(operand, b);
      var (b0, x) := CompileExpr(operand, b);
      EmitLinked(b0, Do(b0.nextReg, op, [x]), w);
    case Binary(op, left, right) =>
      ExprLinked(left, b, w);
      ExprKeeps(left, b);
      var (b0, x) := CompileExpr(left, b);
      ExprLinked(right, b0, w);
      ExprKeeps(right, b0);
      var (b1, y) := CompileExpr(right, b0);
      EmitLinked(b1, Do(b1.nextReg, op, [x, y]), w);
    case Comma(left, right) =>
      ExprLinked(left, b, w);
      ExprKeeps(left, b);
      ExprLinked(right, CompileExpr(left, b).0, w);
    case Logical(_, _, _) => LogicalLinked(e, b, w);
    case Ternary(_, _, _) => TernaryLinked(e, b, w);
  }

  /** `ExprLinked`, with the blocks that wait for this expression to end. */
  lemma {:induction false} PartLinked(e: Expr, b: Builder, w: set<BlockId>, later: set<BlockId>)
    requires b.Open() && Linked(b, w)
    requires forall j :: j in later ==> b.Pristine(j) && j != b.cur
    ensures var r := CompileExpr(e, b).0;
            r.Open() && Linked(r, w) && forall j :: j in later ==> r.Pristine(j) && j != r.cur
    decreases e, 2
  {
    ExprKeeps(e, b);
    ExprLinked(e, b, w);
    forall j | j in later ensures CompileExpr(e, b).0.Pristine(j) && j != CompileExpr(e, b).0.cur {
      PristineStays(b, CompileExpr(e, b).0, j);
    }
  }

  lemma {:induction false} LogicalLinked(e: Expr, b: Builder, w: set<BlockId>)
    requires e.Logical? && b.Open() && Linked(b, w)
    ensures Linked(CompileLogical(e, b).0, w)
    decreases e, 0
  {
    var right, merge := |b.blocks|, |b.blocks| + 1;
    var b0 := LogicalStart(b);
    LogicalStartLinked(b, w);
    PartLinked(e.left, b0, w + {merge} + {right}, {right, merge});
    var (b1, l) := CompileExpr(e.left, b0);
    FinishLinked(b1, LogicalTest(e.isOr, l, right, merge), right, w + {merge});
    var b2 := LogicalMiddle(e.isOr, b, b1, l);
    PartLinked(e.right, b2, w + {merge}, {merge});
    var (b3, r) := CompileExpr(e.right, b2);
    FinishLinked(b3, Jump(Edge(merge, Some(r))), merge, w);
    var b4 := LogicalMerge(b, b3, r);
    EmitLinked(b4, IsNonZero(b4.nextReg, b.nextReg), w);
  }

  lemma {:induction false} LogicalStartLinked(b: Builder, w: set<BlockId>)
    requires b.Open() && Linked(b, w)
    ensures var s := LogicalStart(b); var right, merge := |b.blocks|, |b.blocks| + 1;
            && Linked(s, w + {merge} + {right}) && s.Open() && s.Pristine(right) && s.Pristine(merge)
            && s.cur == b.cur
  {
    CreateLinked(b, w);
    CreateLinked(b.CreateBlock(), w);
    LinkedMore(LogicalStart(b), w, w + {|b.blocks| + 1} + {|b.blocks|});
  }

  lemma {:induction false} TernaryLinked(e: Expr, b: Builder, w: set<BlockId>)
    requires e.Ternary? && b.Open() && Linked(b, w)
    ensures Linked(CompileTernary(e, b).0, w)
    decreases e, 0
  {
    hide CompileExpr;
    var target := |b.blocks|;
    var b0 := b.CreateBlockWithParam();
    CreateLinked(b, w);
    LinkedMore(b0, w, w + {target});
    PartLinked(e.cond, b0, w + {target}, {target});
    var (b1, c) := CompileExpr(e.cond, b0);
    var ifFalse := |b1.blocks| + 1;
    ForkLinked(b1, c, w + {target}, target);
    var b2 := TernaryFork(b1, c);
    PartLinked(e.thn, b2, w + {target} + {ifFalse}, {target, ifFalse});
    var (b3, l) := CompileExpr(e.thn, b2);
    FinishLinked(b3, Jump(Edge(target, Some(l))), ifFalse, w + {target});
    var b4 := FinishInto(b3, target, l, ifFalse);
    PartLinked(e.els, b4, w + {target}, {target});
    var (b5, r) := CompileExpr(e.els, b4);
    FinishLinked(b5, Jump(Edge(target, Some(r))), target, w);
  }

  lemma {:induction false} ForkLinked(b: Builder, c: Reg, w: set<BlockId>, later: BlockId)
    requires b.Open() && Linked(b, w) && b.Pristine(later) && later != b.cur
    ensures var r := TernaryFork(b, c);
            && Linked(r, w + {|b.blocks| + 1}) && r.Open() && r.cur == |b.blocks|
            && r.Pristine(later) && r.Pristine(|b.blocks| + 1)
  {
    var ifTrue, ifFalse := |b.blocks|, |b.blocks| + 1;
    CreateLinked(b, w);
    CreateLinked(b.CreateBlock(), w);
    var b1 := b.CreateBlock().CreateBlock();
    LinkedMore(b1, w, w + {ifFalse} + {ifTrue});
    FinishLinked(b1, Brif(c, Edge(ifTrue, None), Edge(ifFalse, None)), ifTrue, w + {ifFalse});
  }

  // ---------- statements ----------

  ghost predicate LinkedState(st: State, w: set<BlockId>) {
    Linked(st.b, w) && NamesEntered(st.b, st.c) && ExitsWait(st.c, w)
  }

  ghost predicate Later(b: Builder, later: set<BlockId>) {
    forall j :: j in later ==> b.Pristine(j) && j != b.cur
  }

  ghost predicate Onward(a: Builder, b: Builder) {
    forall t :: Entered(a, t) ==> Entered(b, t)
  }

  lemma {:induction false} NamesStay(a: Builder, b: Builder, c: Control)
    requires Keeps(a, b) && NamesEntered(a, c)
    ensures NamesEntered(b, c)
  {}

  lemma {:induction false} LaterStays(a: Builder, b: Builder, later: set<BlockId>)
    requires Keeps(a, b) && Later(a, later)
    ensures Later(b, later)
  {
    forall j | j in later ensures b.Pristine(j) && j != b.cur { PristineStays(a, b, j); }
  }

  lemma {:induction false} LinkedStateMore(st: State, w: set<BlockId>, w': set<BlockId>)
    requires LinkedState(st, w) && w <= w'
    ensures LinkedState(st, w')
  {
    LinkedMore(st.b, w, w');
  }

  /** An expression within a statement. */
  lemma {:induction false} ExprInStmt(e: Expr, st: State, w: set<BlockId>, later: set<BlockId>)
    requires st.b.Open() && LinkedState(st, w) && Later(st.b, later)
    ensures var r := st.(b := CompileExpr(e, st.b).0);
            r.b.Open() && LinkedState(r, w) && Later(r.b, later) && Onward(st.b, r.b)
  {
    ExprKeeps(e, st.b);
    ExprLinked(e, st.b, w);
    NamesStay(st.b, CompileExpr(e, st.b).0, st.c);
    LaterStays(st.b, CompileExpr(e, st.b).0, later);
  }

  lemma {:induction false} CreateInStmt(st: State, w: set<BlockId>, later: set<BlockId>)
    requires Valid(st) && LinkedState(st, w) && Later(st.b, later)
    ensures var r := st.(b := st.b.CreateBlock());
            && Valid(r) && LinkedState(r, w) && Later(r.b, later + {|st.b.blocks|})
  {
    var r := st.(b := st.b.CreateBlock());
    SelfKeeps(st.b);
    CreateKeeps(st.b, st.b);
    CreateLinked(st.b, w);
    NamesStay(st.b, r.b, st.c);
    LaterStays(st.b, r.b, later);
  }

  function Create2(b: Builder): Builder { b.CreateBlock().CreateBlock() }

  function Create3(b: Builder): Builder { Create2(b).CreateBlock() }

  lemma {:induction false} Create2InStmt(st: State, w: set<BlockId>)
    requires Valid(st) && LinkedState(st, w)
    ensures var r := st.(b := Create2(st.b)); var n := |st.b.blocks|;
            && Valid(r) && LinkedState(r, w) && Later(r.b, {n, n + 1}) && r.b.cur == st.b.cur
            && |r.b.blocks| == n + 2
  {
    CreateInStmt(st, w, {});
    CreateInStmt(st.(b := st.b.CreateBlock()), w, {|st.b.blocks|});
  }

  lemma {:induction false} Create3InStmt(st: State, w: set<BlockId>)
    requires Valid(st) && LinkedState(st, w)
    ensures var r := st.(b := Create3(st.b)); var n := |st.b.blocks|;
            && Valid(r) && LinkedState(r, w) && Later(r.b, {n, n + 1, n + 2}) && r.b.cur == st.b.cur
  {
    Create2InStmt(st, w);
    CreateInStmt(st.(b := Create2(st.b)), w, {|st.b.blocks|, |st.b.blocks| + 1});
  }

  /** The current block is finished with `t` and the waiting block `next` is started. */
  lemma {:induction false} FinishInStmt(st: State, t: Term, next: BlockId, w: set<BlockId>, later: set<BlockId>)
    requires st.b.Open() && Later(st.b, later) && next in later
    requires Linked(st.b, w) || Linked(st.b, w + {next})
    requires NamesEntered(st.b, st.c) && ExitsWait(st.c, w)
    requires forall x :: x in Targets(t) ==> x in w || x == next || Entered(st.b, x)
    ensures var r := State(st.b.Terminate(t), st.c).SwitchToBlock(next);
            && Valid(r) && LinkedState(r, w) && Later(r.b, later - {next}) && Onward(st.b, r.b)
            && r.b.cur == next
  {
    if Linked(st.b, w) {
      LinkedMore(st.b, w, w + {next});
    }
    FinishLinked(st.b, t, next, w);
  }

  lemma {:induction false} JumpSwitchInStmt(st: State, target: BlockId, next: BlockId, w: set<BlockId>, later: set<BlockId>)
    requires Valid(st) && Later(st.b, later) && next in later
    requires Linked(st.b, w) || Linked(st.b, w + {next})
    requires NamesEntered(st.b, st.c) && ExitsWait(st.c, w)
    requires target in w || target == next || Entered(st.b, target)
    ensures var r := st.JumpToBlock(target).SwitchToBlock(next);
            && Valid(r) && LinkedState(r, w) && Later(r.b, later - {next}) && Onward(st.b, r.b)
            && r.b.cur == next
  {
    if st.c.state == Empty {
      FinishInStmt(st, Jump(Edge(target, None)), next, w, later);
    } else {
      if Linked(st.b, w) {
        LinkedMore(st.b, w, w + {next});
      }
      SwitchLinked(st.b, next, w);
    }
  }

  lemma {:induction false} JumpInStmt(st: State, target: BlockId, w: set<BlockId>)
    requires Valid(st) && LinkedState(st, w) && (target in w || Entered(st.b, target))
    ensures LinkedState(st.JumpToBlock(target), w)
  {
    if st.c.state == Empty {
      TerminateLinked(st.b, Jump(Edge(target, None)), w);
    }
  }

  lemma {:induction false} NewBlockLinked(st: State, w: set<BlockId>)
    requires Valid(st) && LinkedState(st, w)
    ensures LinkedState(NewBlock(st), w) && Entered(NewBlock(st).b, |st.b.blocks|)
  {
    CreateInStmt(st, w, {});
    JumpSwitchInStmt(st.(b := st.b.CreateBlock()), |st.b.blocks|, |st.b.blocks|, w, {|st.b.blocks|});
  }

  lemma {:induction false} AllLinked(ss: seq<Stmt>, st: State, w: set<BlockId>)
    requires ParsedAll(ss) && Valid(st) && CompileAll(ss, st).Ok? && LinkedState(st, w)
    ensures LinkedState(CompileAll(ss, st).value, w)
    decreases SizeAll(ss), 0
  {
    if ss != [] {
      StmtSound(ss[0], st);
      StmtLinked(ss[0], st, w);
      AllLinked(ss[1..], CompileStmt(ss[0], st).value, w);
    }
  }

  /** `StmtLinked`, with the blocks that wait for this statement to end. */
  lemma {:induction false} PartStmtLinked(s: Stmt, st: State, w: set<BlockId>, later: set<BlockId>)
    requires Parsed(s) && Valid(st) && CompileStmt(s, st).Ok? && LinkedState(st, w) && Later(st.b, later)
    ensures var r := CompileStmt(s, st).value;
            Valid(r) && LinkedState(r, w) && Later(r.b, later) && Balanced(st.c, r.c)
    ensures Onward(st.b, CompileStmt(s, st).value.b)
    decreases Size(s), 1
  {
    StmtSound(s, st);
    StmtLinked(s, st, w);
    LaterStays(st.b, CompileStmt(s, st).value.b, later);
  }

  lemma {:induction false} StmtLinked(s: Stmt, st: State, w: set<BlockId>)
    requires Parsed(s) && Valid(st) && CompileStmt(s, st).Ok? && LinkedState(st, w)
    ensures LinkedState(CompileStmt(s, st).value, w)
    decreases Size(s), 0
  {
    match s
    case Compound(stmts) => AllLinked(stmts, st, w);
    case Decl(inits) => DeclLinked(inits, st, w);
    case ExprStmt(e) => ExprInStmt(e, st, w, {});
    case ReturnStmt(result) => ReturnLinked(result, st, w);
    case If(cond, thn, els) => IfLinked(s, st, w);
    case While(cond, body) => WhileLinked(Some(cond), body, st, w);
    case Break => ExitLinked(true, st, w);
    case Continue => ExitLinked(false, st, w);
    case For(init, test, post, body) =>
      SimpleIsParsed(init);
      StmtSound(init, st);
      SimpleStaysOpen(init, st);
      WithPostParsed(body, post);
      StmtLinked(init, st, w);
      WhileLinked(test, WithPost(body, post), CompileStmt(init, st).value, w);
    case DoWhile(body, cond) => DoLinked(body, cond, st, w);
    case SwitchStmt(cond, body) => SwitchStmtLinked(cond, body, st, w);
    case Goto(name) => JumpInStmt(st, st.c.labels[name], w);
    case Label(name, inner) =>
      NewBlockLinked(st, w);
      LabelSound(name, st);
      StmtLinked(inner, EnterLabel(name, st), w);
    case Case(value, inner) =>
      EnterCaseLinked(value, st, w);
      StmtLinked(inner, EnterCase(value, st), w);
    case Default(inner) =>
      EnterDefaultLinked(st, w);
      StmtLinked(inner, EnterDefault(st), w);
  }

  lemma {:induction false} DeclLinked(es: seq<Expr>, st: State, w: set<BlockId>)
    requires st.b.Open() && LinkedState(st, w)
    ensures LinkedState(st.(b := CompileExprs(es, st.b)), w)
    decreases |es|
  {
    if es != [] {
      ExprInStmt(es[0], st, w, {});
      DeclLinked(es[1..], st.(b := CompileExpr(es[0], st.b).0), w);
    }
  }

  lemma {:induction false} ReturnLinked(result: Option<Expr>, st: State, w: set<BlockId>)
    requires Valid(st) && st.c.state == Empty && LinkedState(st, w)
    ensures LinkedState(CompileStmt(ReturnStmt(result), st).value, w)
  {
    if result.Some? {
      ExprInStmt(result.value, st, w, {});
      var (b0, x) := CompileExpr(result.value, st.b);
      TerminateLinked(b0, Return(Some(x)), w);
    } else {
      TerminateLinked(st.b, Return(None), w);
    }
  }

  lemma {:induction false} ExitLinked(isBreak: bool, st: State, w: set<BlockId>)
    requires Valid(st) && LinkedState(st, w) && LoopExit(isBreak, st).Ok?
    ensures LinkedState(LoopExit(isBreak, st).value, w)
  {
    if st.c.lastSawLoop {
      var (start, end) := st.c.loops[|st.c.loops| - 1];
      JumpInStmt(st, if isBreak then end else start, w);
    } else {
      JumpInStmt(st, Top(st.c).end, w);
    }
  }

  lemma {:induction false} EnterCaseLinked(value: nat, st: State, w: set<BlockId>)
    requires Valid(st) && LinkedState(st, w) && st.c.switches != [] && value !in Top(st.c).entries
    ensures LinkedState(EnterCase(value, st), w) && Valid(EnterCase(value, st))
  {
    NewBlockLinked(st, w);
    EnterCaseSound(value, st);
  }

  lemma {:induction false} EnterDefaultLinked(st: State, w: set<BlockId>)
    requires Valid(st) && LinkedState(st, w) && st.c.switches != [] && Top(st.c).default.None?
    ensures LinkedState(EnterDefault(st), w) && Valid(EnterDefault(st))
  {
    NewBlockLinked(st, w);
    EnterDefaultSound(st);
  }

  lemma {:induction false} IfStartLinked(cond: Expr, hasElse: bool, st: State, w: set<BlockId>)
    requires Valid(st) && st.c.state == Empty && LinkedState(st, w)
    ensures var (r, end) := IfStart(cond, hasElse, st);
            && Valid(r) && LinkedState(r, w + {if hasElse then end + 1 else end})
            && Later(r.b, if hasElse then {end, end + 1} else {end})
            && r.c == st.c
  {
    hide CompileStmt, CompileExpr;
    ExprInStmt(cond, st, w, {});
    var (b0, c) := CompileExpr(cond, st.b);
    if hasElse {
      IfElseForkLinked(c, st.(b := b0), w);
    } else {
      IfThenForkLinked(c, st.(b := b0), w);
    }
  }

  lemma {:induction false} IfElseForkLinked(c: Reg, st: State, w: set<BlockId>)
    requires Valid(st) && st.c.state == Empty && LinkedState(st, w)
    ensures var r := State(IfFork(st.b, c, true), st.c); var end := |st.b.blocks| + 1;
            Valid(r) && LinkedState(r, w + {end + 1}) && Later(r.b, {end, end + 1})
  {
    var ifBody, end, elseBody := |st.b.blocks|, |st.b.blocks| + 1, |st.b.blocks| + 2;
    Create3InStmt(st, w);
    var s1 := st.(b := Create3(st.b));
    LinkedStateMore(s1, w, w + {elseBody});
    FinishInStmt(s1, Brif(c, Edge(ifBody, None), Edge(elseBody, None)), ifBody, w + {elseBody}, {ifBody, end, elseBody});
  }

  lemma {:induction false} IfThenForkLinked(c: Reg, st: State, w: set<BlockId>)
    requires Valid(st) && st.c.state == Empty && LinkedState(st, w)
    ensures var r := State(IfFork(st.b, c, false), st.c); var end := |st.b.blocks| + 1;
            Valid(r) && LinkedState(r, w + {end}) && Later(r.b, {end})
  {
    var ifBody, end := |st.b.blocks|, |st.b.blocks| + 1;
    Create2InStmt(st, w);
    var s1 := st.(b := Create2(st.b));
    LinkedStateMore(s1, w, w + {end});
    FinishInStmt(s1, Brif(c, Edge(ifBody, None), Edge(end, None)), ifBody, w + {end}, {ifBody, end});
  }

  lemma {:induction false} IfLinked(s: Stmt, st: State, w: set<BlockId>)
    requires s.If? && Parsed(s) && Valid(st) && st.c.state == Empty && LinkedState(st, w)
    requires IfStmt(s.cond, s.thn, s.els, st).Ok?
    ensures LinkedState(IfStmt(s.cond, s.thn, s.els, st).value, w)
    decreases Size(s) - 1, 5
  {
    var (s1, end) := IfStart(s.cond, s.els.Some?, st);
    var r := CompileStmt(s.thn, s1).value;
    IfStartLinked(s.cond, s.els.Some?, st, w);
    PartStmtLinked(s.thn, s1, w + {if s.els.Some? then end + 1 else end},
                   if s.els.Some? then {end, end + 1} else {end});
    BalancedEnds(st.c, r.c);
    IfRestLinked(s.els, end, r, w);
  }

  lemma {:induction false} IfRestLinked(els: Option<Stmt>, end: BlockId, st: State, w: set<BlockId>)
    requires (els.Some? ==> Parsed(els.value)) && Valid(st) && ExitsWait(st.c, w)
    requires Later(st.b, if els.Some? then {end, end + 1} else {end})
    requires LinkedState(st, w + {if els.Some? then end + 1 else end}) && IfRest(els, end, st).Ok?
    ensures LinkedState(IfRest(els, end, st).value, w)
    decreases if els.Some? then Size(els.value) else 0, 5
  {
    match els
    case Some(other) => ElseLinked(other, end, st, w);
    case None => JumpSwitchInStmt(st, end, end, w, {end});
  }

  /** The end block is waited for only if some branch reaches it. */
  lemma {:induction false} ElseLinked(els: Stmt, end: BlockId, st: State, w: set<BlockId>)
    requires Parsed(els) && Valid(st) && Later(st.b, {end, end + 1})
    requires LinkedState(st, w + {end + 1}) && ExitsWait(st.c, w)
    requires ElseBranch(els, end, st).Ok?
    ensures LinkedState(ElseBranch(els, end, st).value, w)
    decreases Size(els), 4
  {
    hide CompileStmt, CompileExpr;
    var s2 := st.JumpToBlock(end).SwitchToBlock(end + 1);
    var q := CompileStmt(els, s2).value;
    if st.c.state == Filled {
      JumpSwitchInStmt(st, end + 1, end + 1, w, {end, end + 1});
      PartStmtLinked(els, s2, w, {end});
    } else {
      LinkedStateMore(st, w + {end + 1}, w + {end} + {end + 1});
      JumpSwitchInStmt(st, end, end + 1, w + {end}, {end, end + 1});
      PartStmtLinked(els, s2, w + {end}, {end});
    }
    if q.c.state != Filled || st.c.state != Filled {
      JumpSwitchInStmt(q, end, end, w, {end});
    }
  }

  // ---------- loops and switches ----------

  lemma {:induction false} EnterLoopLinked(st: State, w: set<BlockId>)
    requires Valid(st) && st.c.state == Empty && LinkedState(st, w)
    ensures var r := EnterLoop(st); var h := |st.b.blocks|;
            && Valid(r) && LinkedState(r, w + {h + 1, h + 2}) && Later(r.b, {h + 1, h + 2})
            && r.b.cur == h && r.c.state == Empty
  {
    var h := |st.b.blocks|;
    Create3InStmt(st, w);
    var s1 := st.(b := Create3(st.b));
    LinkedStateMore(s1, w, w + {h + 1, h + 2});
    var s2 := s1.(c := st.c.(loops := st.c.loops + [(h + 1, h + 2)], lastSawLoop := true));
    FinishInStmt(s2, Jump(Edge(h, None)), h, w + {h + 1, h + 2}, {h, h + 1, h + 2});
  }

  lemma {:induction false} LoopTestLinked(cond: Option<Expr>, h: BlockId, st: State, w: set<BlockId>)
    requires Valid(st) && st.c.state == Empty && h + 1 in w && h + 2 in w
    requires LinkedState(st, w) && Later(st.b, {h + 1, h + 2})
    ensures var r := LoopTest(cond, h, st);
            && Valid(r) && LinkedState(r, w) && Later(r.b, {h + 2}) && Onward(st.b, r.b)
            && r.b.cur == h + 1 && r.c == st.c
  {
    if cond.Some? {
      ExprInStmt(cond.value, st, w, {h + 1, h + 2});
      var (b, c) := CompileExpr(cond.value, st.b);
      FinishInStmt(st.(b := b), Brif(c, Edge(h + 1, None), Edge(h + 2, None)), h + 1, w, {h + 1, h + 2});
    } else {
      JumpSwitchInStmt(st, h + 1, h + 1, w, {h + 1, h + 2});
    }
  }

  lemma {:induction false} LoopClosed(st: State, outer: Control, h: BlockId, w: set<BlockId>)
    requires Valid(st) && LinkedState(st, w + {h + 1, h + 2})
    requires Entered(st.b, h + 1) && Entered(st.b, h + 2)
    requires st.c.loops == outer.loops + [(h + 1, h + 2)] && ExitsWait(outer, w)
    requires |st.c.switches| == |outer.switches|
    requires forall i :: 0 <= i < |st.c.switches| ==> st.c.switches[i].end == outer.switches[i].end
    ensures LinkedState(ExitLoop(st, outer.lastSawLoop), w)
  {
    assert st.c.loops[..|st.c.loops| - 1] == outer.loops;
  }

  lemma {:induction false} BalancedEnds(a: Control, b: Control)
    requires Balanced(a, b)
    ensures |a.switches| == |b.switches|
    ensures forall i :: 0 <= i < |a.switches| ==> b.switches[i].end == a.switches[i].end
  {}

  lemma {:induction false} WhileLinked(cond: Option<Expr>, body: Stmt, st: State, w: set<BlockId>)
    requires Parsed(body) && Valid(st) && st.c.state == Empty && LinkedState(st, w)
    requires WhileStmt(cond, body, st).Ok?
    ensures LinkedState(WhileStmt(cond, body, st).value, w)
    decreases Size(body) + 1, 2
  {
    hide CompileStmt, CompileExpr, Linked, NamesEntered;
    var h := |st.b.blocks|;
    var s1 := EnterLoop(st);
    var s2 := LoopTest(cond, h, s1);
    var r := CompileStmt(body, s2).value;
    var w' := w + {h + 1, h + 2};
    EnterLoopLinked(st, w);
    LoopTestLinked(cond, h, s1, w');
    PartStmtLinked(body, s2, w', {h + 2});
    WhileFinishLinked(h, r, st.c, s2.c, w);
  }

  lemma {:induction false} WhileFinishLinked(h: BlockId, st: State, outer: Control, inner: Control, w: set<BlockId>)
    requires Valid(st) && Entered(st.b, h) && Entered(st.b, h + 1) && ExitsWait(outer, w) && Balanced(inner, st.c)
    requires LinkedState(st, w + {h + 1, h + 2}) && Later(st.b, {h + 2})
    requires inner.loops == outer.loops + [(h + 1, h + 2)] && inner.switches == outer.switches
    ensures LinkedState(ExitLoop(st.JumpToBlock(h).SwitchToBlock(h + 2), outer.lastSawLoop), w)
  {
    JumpSwitchInStmt(st, h, h + 2, w + {h + 1, h + 2}, {h + 2});
    BalancedEnds(inner, st.c);
    LoopClosed(st.JumpToBlock(h).SwitchToBlock(h + 2), outer, h, w);
  }

  lemma {:induction false} DoLinked(body: Stmt, cond: Expr, st: State, w: set<BlockId>)
    requires Parsed(body) && Valid(st) && st.c.state == Empty && LinkedState(st, w)
    requires DoLoop(body, cond, st).Ok?
    ensures LinkedState(DoLoop(body, cond, st).value, w)
    decreases Size(body), 2
  {
    hide CompileStmt, CompileExpr;
    var h := |st.b.blocks|;
    var s1 := EnterLoop(st);
    var r := CompileStmt(body, s1).value;
    var w' := w + {h + 1, h + 2};
    EnterLoopLinked(st, w);
    PartStmtLinked(body, s1, w', {h + 1, h + 2});
    DoFinishLinked(cond, h, r, st.c, s1.c, w);
  }

  lemma {:induction false} DoFinishLinked(cond: Expr, h: BlockId, st: State, outer: Control, inner: Control, w: set<BlockId>)
    requires Valid(st) && Entered(st.b, h) && ExitsWait(outer, w) && Balanced(inner, st.c)
    requires LinkedState(st, w + {h + 1, h + 2}) && Later(st.b, {h + 1, h + 2})
    requires inner.loops == outer.loops + [(h + 1, h + 2)] && inner.switches == outer.switches
    ensures LinkedState(ExitLoop(DoTest(cond, h, st.JumpToBlock(h + 1).SwitchToBlock(h + 1)), outer.lastSawLoop), w)
  {
    DoTestLinked(cond, h, st, w + {h + 1, h + 2});
    BalancedEnds(inner, st.c);
    LoopClosed(DoTest(cond, h, st.JumpToBlock(h + 1).SwitchToBlock(h + 1)), outer, h, w);
  }

  lemma {:induction false} DoTestLinked(cond: Expr, h: BlockId, st: State, w: set<BlockId>)
    requires Valid(st) && Entered(st.b, h) && h + 1 in w && h + 2 in w
    requires LinkedState(st, w) && Later(st.b, {h + 1, h + 2})
    ensures var r := DoTest(cond, h, st.JumpToBlock(h + 1).SwitchToBlock(h + 1));
            && Valid(r) && LinkedState(r, w) && r.b.cur == h + 2 && Entered(r.b, h + 1)
            && r.c == st.c.(state := Empty)
  {
    JumpSwitchInStmt(st, h + 1, h + 1, w, {h + 1, h + 2});
    var s2 := st.JumpToBlock(h + 1).SwitchToBlock(h + 1);
    ExprInStmt(cond, s2, w, {h + 2});
    var (b, c) := CompileExpr(cond, s2.b);
    FinishInStmt(s2.(b := b), Brif(c, Edge(h, None), Edge(h + 2, None)), h + 2, w, {h + 2});
  }

  lemma {:induction false} SwitchStartLinked(cond: Expr, st: State, w: set<BlockId>)
    requires Valid(st) && st.c.state == Empty && LinkedState(st, w)
    ensures var (r, _, d) := SwitchStart(cond, st);
            && Valid(r) && LinkedState(r, w + {d, d + 2}) && Later(r.b, {d, d + 2})
  {
    hide CompileExpr, EnterSwitch;
    ExprInStmt(cond, st, w, {});
    EnterSwitchLinked(st.(b := CompileExpr(cond, st.b).0), w);
  }

  lemma {:induction false} EnterSwitchLinked(st: State, w: set<BlockId>)
    requires Valid(st) && st.c.state == Empty && LinkedState(st, w)
    ensures var r := EnterSwitch(st); var d := |st.b.blocks|;
            && Valid(r) && LinkedState(r, w + {d, d + 2}) && Later(r.b, {d, d + 2}) && r.b.cur == d + 1
  {
    hide CompileStmt, CompileExpr;
    var d := |st.b.blocks|;
    CreateInStmt(st, w, {});
    var s1 := st.(b := st.b.CreateBlock());
    LinkedStateMore(s1, w, w + {d, d + 2});
    JumpInStmt(s1, d, w + {d, d + 2});
    var s2 := s1.JumpToBlock(d);
    assert Valid(s2) && Later(s2.b, {d});
    BodyOfSwitchLinked(s2, d, w + {d, d + 2});
  }

  lemma {:induction false} BodyOfSwitchLinked(st: State, d: BlockId, w: set<BlockId>)
    requires Valid(st) && LinkedState(st, w) && Later(st.b, {d}) && st.c.state == Filled
    requires |st.b.blocks| == d + 1 && d + 2 in w
    ensures var s := st.(b := st.b.CreateBlock()).SwitchToBlock(d + 1);
            var r := State(s.b.CreateBlock(),
                           s.c.(lastSawLoop := false,
                                switches := s.c.switches + [SwitchContext(map[], None, d + 2)]));
            Valid(r) && LinkedState(r, w) && Later(r.b, {d, d + 2}) && r.b.cur == d + 1
  {
    CreateInStmt(st, w, {d});
    var s1 := st.(b := st.b.CreateBlock());
    JumpSwitchInStmt(s1, d + 1, d + 1, w, {d, d + 1});
    var s2 := s1.SwitchToBlock(d + 1);
    assert Later(s2.b, {d});
    CreateInStmt(s2, w, {d});
  }

  lemma {:induction false} SwitchStmtLinked(cond: Expr, body: Stmt, st: State, w: set<BlockId>)
    requires Parsed(body) && Valid(st) && st.c.state == Empty && LinkedState(st, w)
    requires CompileSwitch(cond, body, st).Ok?
    ensures LinkedState(CompileSwitch(cond, body, st).value, w)
    decreases Size(body), 2
  {
    hide CompileStmt, CompileExpr;
    var (s1, v, d) := SwitchStart(cond, st);
    SwitchStartSound(cond, st);
    SwitchStartLinked(cond, st, w);
    PartStmtLinked(body, s1, w + {d, d + 2}, {d, d + 2});
    SwitchFinishLinked(v, d, st.c, s1.c, CompileStmt(body, s1).value, w);
  }

  lemma {:induction false} SwitchFinishLinked(v: Reg, d: BlockId, outer: Control, inner: Control, st: State, w: set<BlockId>)
    requires Valid(st) && LinkedState(st, w + {d, d + 2}) && Later(st.b, {d, d + 2}) && ExitsWait(outer, w)
    requires inner == outer.(lastSawLoop := false, switches := outer.switches + [SwitchContext(map[], None, d + 2)])
    requires Balanced(inner, st.c)
    ensures st.c.switches != [] && LinkedState(LeaveSwitch(v, d, outer.lastSawLoop, st), w)
  {
    SwitchPopped(outer, d + 2, st.c);
    LeaveSwitchLinked(v, d, outer, st, w);
  }

  lemma {:induction false} CaseTargets(b: Builder, sw: SwitchContext, v: Reg, x: BlockId)
    requires CasesEntered(b, sw)
    requires x in Targets(Switch(v, sw.entries, if sw.default.Some? then sw.default.value else sw.end))
    ensures x == sw.end || Entered(b, x)
  {
    if value :| value in sw.entries && sw.entries[value] == x {
      assert Entered(b, sw.entries[value]);
    }
  }

  lemma {:induction false} LeaveSwitchLinked(v: Reg, d: BlockId, outer: Control, st: State, w: set<BlockId>)
    requires Valid(st) && LinkedState(st, w + {d, d + 2}) && Later(st.b, {d, d + 2})
    requires st.c.switches != [] && Top(st.c).end == d + 2
    requires st.c.switches[..|st.c.switches| - 1] == outer.switches && st.c.loops == outer.loops
    requires ExitsWait(outer, w)
    ensures LinkedState(LeaveSwitch(v, d, outer.lastSawLoop, st), w)
  {
    var sw := Top(st.c);
    assert CasesEntered(st.b, sw);
    var s1 := st.(c := st.c.(switches := outer.switches, lastSawLoop := outer.lastSawLoop));
    assert w + {d, d + 2} == (w + {d + 2}) + {d};
    JumpSwitchInStmt(s1, d + 2, d, w + {d + 2}, {d, d + 2});
    var s2 := s1.JumpToBlock(d + 2).SwitchToBlock(d);
    var default := if sw.default.Some? then sw.default.value else d + 2;
    forall x | x in Targets(Switch(v, sw.entries, default)) ensures x == d + 2 || Entered(s2.b, x) {
      CaseTargets(st.b, sw, v, x);
    }
    FinishInStmt(s2, Switch(v, sw.entries, default), d + 2, w, {d + 2});
  }
}
