/** Statements and expressions as the back end receives them. */
module Hir {
  import opened Wrappers

  /** Only the shape that decides block structure is kept. `Leaf`, `Unary` and
      `Binary` stand for every operator without control flow of its own (loads,
      stores, calls, arithmetic); `op` says which one. */
  datatype Expr =
    | Literal(n: int)
    | Leaf(op: nat)
    | Unary(op: nat, operand: Expr)
    | Binary(op: nat, left: Expr, right: Expr)
    | Logical(isOr: bool, left: Expr, right: Expr)
    | Ternary(cond: Expr, thn: Expr, els: Expr)
    | Comma(left: Expr, right: Expr)

  datatype Stmt =
    | Compound(stmts: seq<Stmt>)
    | Decl(inits: seq<Expr>)
    | ExprStmt(e: Expr)
    | ReturnStmt(result: Option<Expr>)
    | If(cond: Expr, thn: Stmt, els: Option<Stmt>)
    | While(cond: Expr, body: Stmt)
    | For(init: Stmt, test: Option<Expr>, post: Option<Expr>, body: Stmt)
    | DoWhile(body: Stmt, cond: Expr)
    | SwitchStmt(cond: Expr, body: Stmt)
    | Case(value: nat, inner: Stmt)
    | Default(inner: Stmt)
    | Label(name: string, inner: Stmt)
    | Goto(name: string)
    | Break
    | Continue

  function Size(s: Stmt): (n: nat)
    ensures n >= 1
    decreases s
  {
    match s
    case Compound(stmts) => 1 + SizeAll(stmts)
    case If(_, thn, els) => 1 + Size(thn) + (if els.Some? then Size(els.value) else 0)
    case While(_, body) => 2 + Size(body)
    case For(init, _, _, body) => 7 + Size(init) + Size(body)
    case DoWhile(body, _) => 1 + Size(body)
    case SwitchStmt(_, body) => 1 + Size(body)
    case Case(_, inner) => 1 + Size(inner)
    case Default(inner) => 1 + Size(inner)
    case Label(_, inner) => 1 + Size(inner)
    case _ => 1
  }

  function SizeAll(ss: seq<Stmt>): nat
    decreases ss
  {
    if ss == [] then 0 else 1 + Size(ss[0]) + SizeAll(ss[1..])
  }

  lemma {:induction false} SizeAllAppend(ss: seq<Stmt>, t: Stmt)
    ensures SizeAll(ss + [t]) == SizeAll(ss) + 1 + Size(t)
  {
    if ss == [] {
      assert ss + [t] == [t];
    } else {
      assert (ss + [t])[1..] == ss[1..] + [t];
      SizeAllAppend(ss[1..], t);
    }
  }

  /** A `for` body with its third expression put at the end. */
  function WithPost(body: Stmt, post: Option<Expr>): (r: Stmt)
    ensures Size(r) <= Size(body) + 4
  {
    match post
    case None => body
    case Some(p) =>
      match body
      case Compound(stmts) =>
        SizeAllAppend(stmts, ExprStmt(p));
        Compound(stmts + [ExprStmt(p)])
      case _ =>
        SizeAllAppend([body], ExprStmt(p));
        assert [body] + [ExprStmt(p)] == [body, ExprStmt(p)];
        Compound([body, ExprStmt(p)])
  }

  /** The grammar's first part of a `for`: declarations, expressions, or nothing. */
  predicate SimpleInit(s: Stmt)
    decreases s
  {
    match s
    case Compound(stmts) => forall i :: 0 <= i < |stmts| ==> SimpleInit(stmts[i])
    case Decl(_) => true
    case ExprStmt(_) => true
    case _ => false
  }

  /** A statement the grammar allows: every `for` starts with a simple part. */
  predicate Parsed(s: Stmt)
    decreases s
  {
    match s
    case Compound(stmts) => ParsedAll(stmts)
    case If(_, thn, els) => Parsed(thn) && (els.Some? ==> Parsed(els.value))
    case While(_, body) => Parsed(body)
    case For(init, _, _, body) => SimpleInit(init) && Parsed(body)
    case DoWhile(body, _) => Parsed(body)
    case SwitchStmt(_, body) => Parsed(body)
    case Case(_, inner) => Parsed(inner)
    case Default(inner) => Parsed(inner)
    case Label(_, inner) => Parsed(inner)
    case _ => true
  }

  predicate ParsedAll(ss: seq<Stmt>)
    decreases ss
  {
    forall i :: 0 <= i < |ss| ==> Parsed(ss[i])
  }

  lemma {:induction false} SimpleIsParsed(s: Stmt)
    requires SimpleInit(s)
    ensures Parsed(s)
    decreases s
  {
    if s.Compound? {
      forall i | 0 <= i < |s.stmts| ensures Parsed(s.stmts[i]) { SimpleIsParsed(s.stmts[i]); }
    }
  }

  predicate IsJumpTarget(s: Stmt) {
    s.Case? || s.Default? || s.Label?
  }
}

/** How the back end turns statements into basic blocks: the builder and the
    compiler as values, and every operation as a function on them. The classes
    in `Codegen` are proved to compute exactly these functions. */
module Lowering {
  import opened Wrappers
  import opened Ir
  import opened Hir

  /** A function under construction. `broken` records that one of the builder's
      assertions failed: an instruction was put after a terminator, a block was
      left unfinished, or a block was entered a second time. */
  datatype Builder = Builder(blocks: seq<Block>, cur: BlockId, nextReg: Reg, broken: bool)
  {
    predicate Open() {
      !broken && cur < |blocks| && blocks[cur].term.None?
    }

    predicate Closed() {
      !broken && cur < |blocks| && blocks[cur].term.Some?
    }

    predicate Pristine(b: BlockId) {
      b < |blocks| && blocks[b].instrs == [] && blocks[b].term.None?
    }

    function Emit(i: Instr): Builder {
      if Open() then this.(blocks := blocks[cur := blocks[cur].(instrs := blocks[cur].instrs + [i])])
      else this.(broken := true)
    }

    function Terminate(t: Term): Builder {
      if Open() then this.(blocks := blocks[cur := blocks[cur].(term := Some(t))])
      else this.(broken := true)
    }

    function NewReg(): Builder {
      this.(nextReg := nextReg + 1)
    }

    function CreateBlock(): Builder {
      this.(blocks := blocks + [Block(None, [], None)])
    }

    function CreateBlockWithParam(): Builder {
      this.(blocks := blocks + [Block(Some(nextReg), [], None)], nextReg := nextReg + 1)
    }

    function SwitchTo(b: BlockId): Builder {
      if Closed() && Pristine(b) then this.(cur := b) else this.(broken := true)
    }
  }

  datatype BlockState = Empty | Filled

  datatype SwitchContext =
    SwitchContext(entries: map<int, BlockId>, default: Option<BlockId>, end: BlockId)

  datatype Control = Control(
    state: BlockState, loops: seq<(BlockId, BlockId)>, switches: seq<SwitchContext>,
    lastSawLoop: bool, labels: map<string, BlockId>)

  datatype LoweringError =
    | UnreachableStatement
    | LabelRedeclaration
    | UndeclaredLabel
    | CaseOutsideSwitch(isDefault: bool)
    | DuplicateCase(isDefault: bool)
    | NotInLoop(isBreak: bool)
    | MissingReturn
    | Panic

  datatype State = State(b: Builder, c: Control)
  {
    function JumpToBlock(target: BlockId): State {
      if c.state == Filled then this
      else State(b.Terminate(Jump(Edge(target, None))), c.(state := Filled))
    }

    function SwitchToBlock(target: BlockId): State {
      State(b.SwitchTo(target), c.(state := Empty))
    }
  }

  function CompileExpr(e: Expr, b: Builder): (Builder, Reg)
    decreases e, 1
  {
    match e
    case Literal(n) => (b.NewReg().Emit(Const(b.nextReg, n)), b.nextReg)
    case Leaf(op) => (b.NewReg().Emit(Do(b.nextReg, op, [])), b.nextReg)
    case Unary(op, operand) =>
      var (b0, x) := CompileExpr(operand, b);
      (b0.NewReg().Emit(Do(b0.nextReg, op, [x])), b0.nextReg)
    case Binary(op, left, right) =>
      var (b0, x) := CompileExpr(left, b);
      var (b1, y) := CompileExpr(right, b0);
      (b1.NewReg().Emit(Do(b1.nextReg, op, [x, y])), b1.nextReg)
    case Comma(left, right) => CompileExpr(right, CompileExpr(left, b).0)
    case Logical(_, _, _) => CompileLogical(e, b)
    case Ternary(_, _, _) => CompileTernary(e, b)
  }

  function LogicalTest(isOr: bool, l: Reg, right: BlockId, merge: BlockId): Term {
    if isOr then Brif(l, Edge(merge, Some(l)), Edge(right, None))
    else Brif(l, Edge(right, None), Edge(merge, Some(l)))
  }

  /** The right-hand block, then the merge block with its parameter. */
  function LogicalStart(b: Builder): Builder {
    b.CreateBlock().CreateBlockWithParam()
  }

  function LogicalMiddle(isOr: bool, b: Builder, afterLeft: Builder, l: Reg): Builder {
    afterLeft.Terminate(LogicalTest(isOr, l, |b.blocks|, |b.blocks| + 1)).SwitchTo(|b.blocks|)
  }

  function LogicalMerge(b: Builder, afterRight: Builder, r: Reg): Builder {
    FinishInto(afterRight, |b.blocks| + 1, r, |b.blocks| + 1)
  }

  /** Passes `value` to `target` and goes on with block `next`. */
  function FinishInto(b: Builder, target: BlockId, value: Reg, next: BlockId): Builder {
    b.Terminate(Jump(Edge(target, Some(value)))).SwitchTo(next)
  }

  function CompileLogical(e: Expr, b: Builder): (Builder, Reg)
    requires e.Logical?
    decreases e, 0
  {
    var (b1, l) := CompileExpr(e.left, LogicalStart(b));
    var (b3, r) := CompileExpr(e.right, LogicalMiddle(e.isOr, b, b1, l));
    var b4 := LogicalMerge(b, b3, r);
    (b4.NewReg().Emit(IsNonZero(b4.nextReg, b.nextReg)), b4.nextReg)
  }

  function TernaryFork(b: Builder, c: Reg): Builder {
    var ifTrue, ifFalse := |b.blocks|, |b.blocks| + 1;
    b.CreateBlock().CreateBlock().Terminate(Brif(c, Edge(ifTrue, None), Edge(ifFalse, None))).SwitchTo(ifTrue)
  }

  function CompileTernary(e: Expr, b: Builder): (Builder, Reg)
    requires e.Ternary?
    decreases e, 0
  {
    var target := |b.blocks|;
    var (b1, c) := CompileExpr(e.cond, b.CreateBlockWithParam());
    var (b3, l) := CompileExpr(e.thn, TernaryFork(b1, c));
    var (b5, r) := CompileExpr(e.els, FinishInto(b3, target, l, |b1.blocks| + 1));
    (FinishInto(b5, target, r, target), b.nextReg)
  }

  function CompileExprs(es: seq<Expr>, b: Builder): Builder {
    if es == [] then b else CompileExprs(es[1..], CompileExpr(es[0], b).0)
  }

  type Lowered = Result<State, LoweringError>

  function CompileAll(ss: seq<Stmt>, st: State): Lowered
    decreases SizeAll(ss), 0
  {
    if ss == [] then Ok(st)
    else
      var r := CompileStmt(ss[0], st);
      if r.Err? then r else CompileAll(ss[1..], r.value)
  }

  function CompileStmt(s: Stmt, st: State): Lowered
    decreases Size(s), 0
  {
    if st.c.state == Filled && !IsJumpTarget(s) then Err(UnreachableStatement)
    else
      match s
      case Compound(stmts) => CompileAll(stmts, st)
      case Decl(inits) => Ok(st.(b := CompileExprs(inits, st.b)))
      case ExprStmt(e) => Ok(st.(b := CompileExpr(e, st.b).0))
      case ReturnStmt(result) =>
        var (b0, v) := if result.Some? then
                         var (b1, x) := CompileExpr(result.value, st.b); (b1, Some(x))
                       else (st.b, None);
        Ok(State(b0.Terminate(Return(v)), st.c.(state := Filled)))
      case If(cond, thn, els) => IfStmt(cond, thn, els, st)
      case While(cond, body) => WhileStmt(Some(cond), body, st)
      case Break => LoopExit(true, st)
      case Continue => LoopExit(false, st)
      case For(init, test, post, body) =>
        var r := CompileStmt(init, st);
        if r.Err? then r else WhileStmt(test, WithPost(body, post), r.value)
      case DoWhile(body, cond) => DoLoop(body, cond, st)
      case SwitchStmt(cond, body) => CompileSwitch(cond, body, st)
      case Label(name, inner) =>
        if name in st.c.labels then Err(LabelRedeclaration)
        else CompileStmt(inner, EnterLabel(name, st))
      case Goto(name) =>
        if name in st.c.labels then Ok(st.JumpToBlock(st.c.labels[name]))
        else Err(UndeclaredLabel)
      case Case(value, inner) =>
        if st.c.switches == [] then Err(CaseOutsideSwitch(false))
        else if value in Top(st.c).entries then Err(DuplicateCase(false))
        else CompileStmt(inner, EnterCase(value, st))
      case Default(inner) =>
        if st.c.switches == [] then Err(CaseOutsideSwitch(true))
        else if Top(st.c).default.Some? then Err(DuplicateCase(true))
        else CompileStmt(inner, EnterDefault(st))
  }

  function Top(c: Control): SwitchContext
    requires c.switches != []
  {
    c.switches[|c.switches| - 1]
  }

  function SetTop(c: Control, sw: SwitchContext): Control
    requires c.switches != []
  {
    c.(switches := c.switches[|c.switches| - 1 := sw])
  }

  /** Creates the body, the end and perhaps the else block, and starts the body.
      Without an `else` a false condition goes straight to the end. */
  function IfFork(b: Builder, c: Reg, hasElse: bool): Builder {
    var ifBody, end, elseBody := |b.blocks|, |b.blocks| + 1, |b.blocks| + 2;
    var b1 := b.CreateBlock().CreateBlock();
    var b2 := if hasElse then b1.CreateBlock() else b1;
    b2.Terminate(Brif(c, Edge(ifBody, None), Edge(if hasElse then elseBody else end, None))).SwitchTo(ifBody)
  }

  /** Also gives the end block. */
  function IfStart(cond: Expr, hasElse: bool, st: State): (State, BlockId) {
    var (b0, c) := CompileExpr(cond, st.b);
    (State(IfFork(b0, c, hasElse), st.c.(state := Empty)), |b0.blocks| + 1)
  }

  function IfStmt(cond: Expr, thn: Stmt, els: Option<Stmt>, st: State): Lowered
    decreases Size(thn) + (if els.Some? then Size(els.value) else 0), 3
  {
    var (s1, end) := IfStart(cond, els.Some?, st);
    var r := CompileStmt(thn, s1);
    if r.Err? then r else IfRest(els, end, r.value)
  }

  function IfRest(els: Option<Stmt>, end: BlockId, st: State): Lowered
    decreases if els.Some? then Size(els.value) else 0, 2
  {
    match els
    case Some(other) => ElseBranch(other, end, st)
    case None => Ok(st.JumpToBlock(end).SwitchToBlock(end))
  }

  function ElseBranch(els: Stmt, end: BlockId, st: State): Lowered
    decreases Size(els), 1
  {
    var ifHasReturn := st.c.state == Filled;
    var q := CompileStmt(els, st.JumpToBlock(end).SwitchToBlock(end + 1));
    if q.Err? then q else Ok(IfJoin(ifHasReturn, end, q.value))
  }

  /** When both branches are finished nothing follows, and the end block is not entered. */
  function IfJoin(ifHasReturn: bool, end: BlockId, st: State): State {
    if st.c.state != Filled then st.JumpToBlock(end).SwitchToBlock(end)
    else if !ifHasReturn then st.SwitchToBlock(end)
    else st
  }

  /** Creates header, body and end, records the last two, and starts the header. */
  function EnterLoop(st: State): State {
    var header := |st.b.blocks|;
    var b := st.b.CreateBlock().CreateBlock().CreateBlock().Terminate(Jump(Edge(header, None)));
    State(b, st.c.(loops := st.c.loops + [(header + 1, header + 2)], lastSawLoop := true)).SwitchToBlock(header)
  }

  function ExitLoop(st: State, oldSawLoop: bool): State {
    st.(c := st.c.(lastSawLoop := oldSawLoop,
                   loops := if st.c.loops == [] then [] else st.c.loops[..|st.c.loops| - 1]))
  }

  /** Finishes the header with the test, or with nothing for `for (;;)`, and
      starts the body. */
  function LoopTest(cond: Option<Expr>, header: BlockId, st: State): State {
    match cond
    case Some(e) =>
      var (b, c) := CompileExpr(e, st.b);
      st.(b := b.Terminate(Brif(c, Edge(header + 1, None), Edge(header + 2, None)))).SwitchToBlock(header + 1)
    case None => st.JumpToBlock(header + 1).SwitchToBlock(header + 1)
  }

  function WhileStmt(cond: Option<Expr>, body: Stmt, st: State): Lowered
    decreases Size(body) + 1, 1
  {
    var header := |st.b.blocks|;
    var r := CompileStmt(body, LoopTest(cond, header, EnterLoop(st)));
    if r.Err? then r
    else Ok(ExitLoop(r.value.JumpToBlock(header).SwitchToBlock(header + 2), st.c.lastSawLoop))
  }

  /** The condition of a `do`, in the block that `continue` goes to. */
  function DoTest(cond: Expr, header: BlockId, st: State): State {
    var (b, c) := CompileExpr(cond, st.b);
    st.(b := b.Terminate(Brif(c, Edge(header, None), Edge(header + 2, None)))).SwitchToBlock(header + 2)
  }

  function DoLoop(body: Stmt, cond: Expr, st: State): Lowered
    decreases Size(body), 1
  {
    var header := |st.b.blocks|;
    var r := CompileStmt(body, EnterLoop(st));
    if r.Err? then r
    else if r.value.c.state == Filled then Err(UnreachableStatement)
    else Ok(ExitLoop(DoTest(cond, header, r.value.JumpToBlock(header + 1).SwitchToBlock(header + 1)),
                     st.c.lastSawLoop))
  }

  /** The dispatch block is left for last; the body starts in a block of its own. */
  function EnterSwitch(st: State): State {
    var dispatch := |st.b.blocks|;
    var s1 := st.(b := st.b.CreateBlock()).JumpToBlock(dispatch);
    var s2 := s1.(b := s1.b.CreateBlock()).SwitchToBlock(dispatch + 1);
    State(s2.b.CreateBlock(),
          s2.c.(lastSawLoop := false,
                switches := s2.c.switches + [SwitchContext(map[], None, dispatch + 2)]))
  }

  /** Pops the switch, ends its body and fills the dispatch block. */
  function LeaveSwitch(v: Reg, dispatch: BlockId, oldSawLoop: bool, st: State): State
    requires st.c.switches != []
  {
    var sw := Top(st.c);
    var c := st.c.(switches := st.c.switches[..|st.c.switches| - 1], lastSawLoop := oldSawLoop);
    var s1 := st.(c := c).JumpToBlock(sw.end).SwitchToBlock(dispatch);
    var default := if sw.default.Some? then sw.default.value else sw.end;
    s1.(b := s1.b.Terminate(Switch(v, sw.entries, default))).SwitchToBlock(sw.end)
  }

  /** Also gives the register switched on and the dispatch block. */
  function SwitchStart(cond: Expr, st: State): (State, Reg, BlockId) {
    var (b0, v) := CompileExpr(cond, st.b);
    (EnterSwitch(st.(b := b0)), v, |b0.blocks|)
  }

  function CompileSwitch(cond: Expr, body: Stmt, st: State): Lowered
    decreases Size(body), 1
  {
    var (s1, v, dispatch) := SwitchStart(cond, st);
    var r := CompileStmt(body, s1);
    if r.Err? then r
    else if r.value.c.switches == [] then Err(Panic)
    else Ok(LeaveSwitch(v, dispatch, st.c.lastSawLoop, r.value))
  }

  /** A new block that the current one, unless it is finished, falls into. */
  function NewBlock(st: State): State {
    var target := |st.b.blocks|;
    st.(b := st.b.CreateBlock()).JumpToBlock(target).SwitchToBlock(target)
  }

  function EnterLabel(name: string, st: State): State {
    var s1 := NewBlock(st);
    s1.(c := s1.c.(labels := s1.c.labels[name := |st.b.blocks|]))
  }

  /** A case label starts a block, unless the block at hand counts as empty. */
  function EnterCase(value: nat, st: State): State
    requires st.c.switches != []
  {
    var s1 := if st.c.state == Empty then st else NewBlock(st);
    var target := if st.c.state == Empty then st.b.cur else |st.b.blocks|;
    s1.(c := SetTop(s1.c, Top(s1.c).(entries := Top(s1.c).entries[value := target])))
  }

  function EnterDefault(st: State): State
    requires st.c.switches != []
  {
    var s1 := if st.c.state == Empty then st else NewBlock(st);
    var target := if st.c.state == Empty then st.b.cur else |st.b.blocks|;
    s1.(c := SetTop(s1.c, Top(s1.c).(default := Some(target))))
  }

  function LoopExit(isBreak: bool, st: State): Lowered {
    if st.c.lastSawLoop then
      if st.c.loops != [] then
        var (start, end) := st.c.loops[|st.c.loops| - 1];
        Ok(st.JumpToBlock(if isBreak then end else start))
      else Err(NotInLoop(isBreak))
    else if !isBreak then Err(NotInLoop(false))
    else if st.c.switches == [] then Err(Panic)
    else Ok(st.JumpToBlock(Top(st.c).end))
  }

  /** What falls off the end of a function body. */
  datatype FunctionKind = MainFunction | ValueFunction | VoidFunction

  const NewBuilder := Builder([Block(None, [], None)], 0, 0, false)

  function CloseFunction(kind: FunctionKind, st: State): Lowered {
    if st.c.state == Filled then Ok(st)
    else
      match kind
      case MainFunction =>
        Ok(st.(b := st.b.NewReg().Emit(Const(st.b.nextReg, 0)).Terminate(Return(Some(st.b.nextReg)))))
      case ValueFunction => Err(MissingReturn)
      case VoidFunction => Ok(st.(b := st.b.Terminate(Return(None))))
  }

  function CompileFunction(kind: FunctionKind, body: seq<Stmt>, c: Control): Lowered {
    var r := CompileAll(body, State(NewBuilder, c.(state := Empty)));
    if r.Err? then r else CloseFunction(kind, r.value)
  }
}
