/** The builder and the compiler as the back end has them: objects whose methods
    update their fields. Every method is proved to do what the function of the
    same name in `Lowering` says. */
module Codegen {
  import opened Wrappers
  import opened Ir
  import opened Hir
  import opened Lowering

  class FunctionBuilder {
    var blocks: seq<Block>
    var cur: BlockId
    var nextReg: Reg
    var broken: bool

    constructor ()
      ensures Value() == NewBuilder
    {
      blocks, cur, nextReg, broken := [Block(None, [], None)], 0, 0, false;
    }

    ghost function Value(): Builder
      reads this
    {
      Builder(blocks, cur, nextReg, broken)
    }

    method NewReg() returns (r: Reg)
      modifies this
      ensures r == old(nextReg) && Value() == old(Value()).NewReg()
    {
      r := nextReg;
      nextReg := nextReg + 1;
    }

    method Ins(i: Instr)
      modifies this
      ensures Value() == old(Value()).Emit(i)
    {
      if !broken && cur < |blocks| && blocks[cur].term.None? {
        blocks := blocks[cur := blocks[cur].(instrs := blocks[cur].instrs + [i])];
      } else {
        broken := true;
      }
    }

    method Terminate(t: Term)
      modifies this
      ensures Value() == old(Value()).Terminate(t)
    {
      if !broken && cur < |blocks| && blocks[cur].term.None? {
        blocks := blocks[cur := blocks[cur].(term := Some(t))];
      } else {
        broken := true;
      }
    }

    method CreateBlock() returns (b: BlockId)
      modifies this
      ensures b == |old(blocks)| && Value() == old(Value()).CreateBlock()
    {
      b := |blocks|;
      blocks := blocks + [Block(None, [], None)];
    }

    method CreateBlockWithParam() returns (b: BlockId, param: Reg)
      modifies this
      ensures b == |old(blocks)| && param == old(nextReg) && Value() == old(Value()).CreateBlockWithParam()
    {
      b, param := |blocks|, nextReg;
      blocks := blocks + [Block(Some(nextReg), [], None)];
      nextReg := nextReg + 1;
    }

    method SwitchToBlock(b: BlockId)
      modifies this
      ensures Value() == old(Value()).SwitchTo(b)
    {
      if !broken && cur < |blocks| && blocks[cur].term.Some? &&
         b < |blocks| && blocks[b].instrs == [] && blocks[b].term.None? {
        cur := b;
      } else {
        broken := true;
      }
    }
  }

  class Compiler {
    var state: BlockState
    var loops: seq<(BlockId, BlockId)>
    var switches: seq<SwitchContext>
    var lastSawLoop: bool
    var labels: map<string, BlockId>

    constructor ()
      ensures Context() == Control(Empty, [], [], true, map[])
    {
      state, loops, switches, lastSawLoop, labels := Empty, [], [], true, map[];
    }

    ghost function Context(): Control
      reads this
    {
      Control(state, loops, switches, lastSawLoop, labels)
    }

    ghost function Snapshot(b: FunctionBuilder): State
      reads this, b
    {
      State(b.Value(), Context())
    }

    /** What a method that can fail has done, given what `Lowering` says. */
    ghost predicate Did(b: FunctionBuilder, err: Option<LoweringError>, spec: Lowered)
      reads this, b
    {
      match err
      case None => spec == Ok(Snapshot(b))
      case Some(e) => spec == Err(e)
    }

    method CompileExpr(e: Expr, b: FunctionBuilder) returns (r: Reg)
      modifies b
      ensures (b.Value(), r) == Lowering.CompileExpr(e, old(b.Value()))
      decreases e, 1
    {
      match e {
        case Literal(n) =>
          r := b.NewReg();
          b.Ins(Const(r, n));
        case Leaf(op) =>
          r := b.NewReg();
          b.Ins(Do(r, op, []));
        case Unary(op, operand) =>
          var x := CompileExpr(operand, b);
          r := b.NewReg();
          b.Ins(Do(r, op, [x]));
        case Binary(op, left, right) =>
          var x := CompileExpr(left, b);
          var y := CompileExpr(right, b);
          r := b.NewReg();
          b.Ins(Do(r, op, [x, y]));
        case Comma(left, right) =>
          var _ := CompileExpr(left, b);
          r := CompileExpr(right, b);
        case Logical(_, _, _) => r := LogicalExpr(e, b);
        case Ternary(_, _, _) => r := TernaryExpr(e, b);
      }
    }

    method LogicalExpr(e: Expr, b: FunctionBuilder) returns (r: Reg)
      requires e.Logical?
      modifies b
      ensures (b.Value(), r) == CompileLogical(e, old(b.Value()))
      decreases e, 0
    {
      var rightBlock := b.CreateBlock();
      var mergeBlock, merged := b.CreateBlockWithParam();
      var left := CompileExpr(e.left, b);
      b.Terminate(LogicalTest(e.isOr, left, rightBlock, mergeBlock));
      b.SwitchToBlock(rightBlock);
      var right := CompileExpr(e.right, b);
      b.Terminate(Jump(Edge(mergeBlock, Some(right))));
      b.SwitchToBlock(mergeBlock);
      r := b.NewReg();
      b.Ins(IsNonZero(r, merged));
    }

    method TernaryExpr(e: Expr, b: FunctionBuilder) returns (r: Reg)
      requires e.Ternary?
      modifies b
      ensures (b.Value(), r) == CompileTernary(e, old(b.Value()))
      decreases e, 0
    {
      var target, merged := b.CreateBlockWithParam();
      var c := CompileExpr(e.cond, b);
      var ifTrue := b.CreateBlock();
      var ifFalse := b.CreateBlock();
      b.Terminate(Brif(c, Edge(ifTrue, None), Edge(ifFalse, None)));
      b.SwitchToBlock(ifTrue);
      var left := CompileExpr(e.thn, b);
      b.Terminate(Jump(Edge(target, Some(left))));
      b.SwitchToBlock(ifFalse);
      var right := CompileExpr(e.els, b);
      b.Terminate(Jump(Edge(target, Some(right))));
      b.SwitchToBlock(target);
      r := merged;
    }

    method JumpToBlock(target: BlockId, b: FunctionBuilder)
      modifies this, b
      ensures Snapshot(b) == old(Snapshot(b)).JumpToBlock(target)
    {
      if state != Filled {
        b.Terminate(Jump(Edge(target, None)));
        state := Filled;
      }
    }

    method SwitchToBlock(target: BlockId, b: FunctionBuilder)
      modifies this, b
      ensures Snapshot(b) == old(Snapshot(b)).SwitchToBlock(target)
    {
      b.SwitchToBlock(target);
      state := Empty;
    }

    method CompileAll(stmts: seq<Stmt>, b: FunctionBuilder) returns (err: Option<LoweringError>)
      modifies this, b
      ensures Did(b, err, Lowering.CompileAll(stmts, old(Snapshot(b))))
      decreases SizeAll(stmts), 0
    {
      err := None;
      var i := 0;
      while i < |stmts|
        invariant 0 <= i <= |stmts| && err == None
        invariant Lowering.CompileAll(stmts, old(Snapshot(b))) == Lowering.CompileAll(stmts[i..], Snapshot(b))
      {
        SizeInAll(stmts, i);
        assert stmts[i..][0] == stmts[i] && stmts[i..][1..] == stmts[i + 1..];
        err := CompileStmt(stmts[i], b);
        if err.Some? {
          return;
        }
        i := i + 1;
      }
    }

    method CompileStmt(s: Stmt, b: FunctionBuilder) returns (err: Option<LoweringError>)
      modifies this, b
      ensures Did(b, err, Lowering.CompileStmt(s, old(Snapshot(b))))
      decreases Size(s), 0
    {
      if state == Filled && !IsJumpTarget(s) {
        return Some(UnreachableStatement);
      }
      err := None;
      match s {
        case Compound(stmts) => err := CompileAll(stmts, b);
        case Decl(inits) => DeclareAll(inits, b);
        case ExprStmt(e) => var _ := CompileExpr(e, b);
        case ReturnStmt(result) => CompileReturn(result, b);
        case If(cond, thn, els) => err := IfStatement(cond, thn, els, b);
        case While(cond, body) => err := WhileStatement(Some(cond), body, b);
        case Break => err := ExitStatement(true, b);
        case Continue => err := ExitStatement(false, b);
        case For(init, test, post, body) => err := ForStatement(s, b);
        case DoWhile(body, cond) => err := DoStatement(body, cond, b);
        case SwitchStmt(cond, body) => err := SwitchStatement(cond, body, b);
        case Label(name, inner) => err := LabelStatement(name, inner, b);
        case Goto(name) =>
          if name in labels {
            JumpToBlock(labels[name], b);
          } else {
            err := Some(UndeclaredLabel);
          }
        case Case(value, inner) => err := CaseStatement(value, inner, b);
        case Default(inner) => err := DefaultStatement(inner, b);
      }
    }

    method DeclareAll(inits: seq<Expr>, b: FunctionBuilder)
      modifies b
      ensures b.Value() == CompileExprs(inits, old(b.Value()))
    {
      var i := 0;
      while i < |inits|
        invariant 0 <= i <= |inits|
        invariant CompileExprs(inits, old(b.Value())) == CompileExprs(inits[i..], b.Value())
      {
        assert inits[i..][0] == inits[i] && inits[i..][1..] == inits[i + 1..];
        var _ := CompileExpr(inits[i], b);
        i := i + 1;
      }
    }

    method CompileReturn(result: Option<Expr>, b: FunctionBuilder)
      requires state == Empty
      modifies this, b
      ensures Did(b, None, Lowering.CompileStmt(ReturnStmt(result), old(Snapshot(b))))
    {
      var ret: Option<Reg> := None;
      if result.Some? {
        var v := CompileExpr(result.value, b);
        ret := Some(v);
      }
      b.Terminate(Return(ret));
      state := Filled;
    }

    method IfStatement(cond: Expr, thn: Stmt, els: Option<Stmt>, b: FunctionBuilder)
      returns (err: Option<LoweringError>)
      modifies this, b
      ensures Did(b, err, IfStmt(cond, thn, els, old(Snapshot(b))))
      decreases Size(thn) + (if els.Some? then Size(els.value) else 0), 3
    {
      var end := StartIf(cond, els.Some?, b);
      err := CompileStmt(thn, b);
      if err.None? {
        err := FinishIf(els, end, b);
      }
    }

    method StartIf(cond: Expr, hasElse: bool, b: FunctionBuilder) returns (end: BlockId)
      modifies this, b
      ensures (Snapshot(b), end) == IfStart(cond, hasElse, old(Snapshot(b)))
    {
      var c := CompileExpr(cond, b);
      var ifBody := b.CreateBlock();
      end := b.CreateBlock();
      if hasElse {
        var elseBody := b.CreateBlock();
        b.Terminate(Brif(c, Edge(ifBody, None), Edge(elseBody, None)));
      } else {
        b.Terminate(Brif(c, Edge(ifBody, None), Edge(end, None)));
      }
      SwitchToBlock(ifBody, b);
    }

    method FinishIf(els: Option<Stmt>, end: BlockId, b: FunctionBuilder) returns (err: Option<LoweringError>)
      modifies this, b
      ensures Did(b, err, IfRest(els, end, old(Snapshot(b))))
      decreases if els.Some? then Size(els.value) else 0, 2
    {
      match els {
        case Some(other) => err := ElsePart(other, end, end + 1, b);
        case None =>
          JumpToBlock(end, b);
          SwitchToBlock(end, b);
          err := None;
      }
    }

    method ElsePart(els: Stmt, end: BlockId, elseBody: BlockId, b: FunctionBuilder)
      returns (err: Option<LoweringError>)
      requires elseBody == end + 1
      modifies this, b
      ensures Did(b, err, ElseBranch(els, end, old(Snapshot(b))))
      decreases Size(els), 1
    {
      var ifHasReturn := state == Filled;
      JumpToBlock(end, b);
      SwitchToBlock(elseBody, b);
      err := CompileStmt(els, b);
      if err.Some? {
        return;
      }
      if state != Filled {
        JumpToBlock(end, b);
        SwitchToBlock(end, b);
      } else if !ifHasReturn {
        SwitchToBlock(end, b);
      }
    }

    method StartLoop(b: FunctionBuilder) returns (header: BlockId, body: BlockId, end: BlockId, oldSawLoop: bool)
      modifies this, b
      ensures header == |old(b.blocks)| && body == header + 1 && end == header + 2 && oldSawLoop == old(lastSawLoop)
      ensures Snapshot(b) == EnterLoop(old(Snapshot(b)))
    {
      header := b.CreateBlock();
      body := b.CreateBlock();
      end := b.CreateBlock();
      loops := loops + [(body, end)];
      oldSawLoop := lastSawLoop;
      lastSawLoop := true;
      b.Terminate(Jump(Edge(header, None)));
      SwitchToBlock(header, b);
    }

    method FinishLoop(oldSawLoop: bool, b: FunctionBuilder)
      modifies this
      ensures Snapshot(b) == ExitLoop(old(Snapshot(b)), oldSawLoop)
    {
      if loops != [] {
        loops := loops[..|loops| - 1];
      }
      lastSawLoop := oldSawLoop;
    }

    method WhileStatement(cond: Option<Expr>, body: Stmt, b: FunctionBuilder) returns (err: Option<LoweringError>)
      modifies this, b
      ensures Did(b, err, WhileStmt(cond, body, old(Snapshot(b))))
      decreases Size(body) + 1, 1
    {
      var header, loopBody, end, oldSawLoop := StartLoop(b);
      if cond.Some? {
        var c := CompileExpr(cond.value, b);
        b.Terminate(Brif(c, Edge(loopBody, None), Edge(end, None)));
      } else {
        JumpToBlock(loopBody, b);
      }
      SwitchToBlock(loopBody, b);
      assert Snapshot(b) == LoopTest(cond, header, EnterLoop(old(Snapshot(b))));
      err := CompileStmt(body, b);
      if err.Some? {
        return;
      }
      JumpToBlock(header, b);
      SwitchToBlock(end, b);
      FinishLoop(oldSawLoop, b);
    }

    method DoStatement(body: Stmt, cond: Expr, b: FunctionBuilder) returns (err: Option<LoweringError>)
      modifies this, b
      ensures Did(b, err, DoLoop(body, cond, old(Snapshot(b))))
      decreases Size(body), 1
    {
      hide EnterLoop, ExitLoop, DoTest, Lowering.CompileStmt, State.JumpToBlock, State.SwitchToBlock;
      var header, loopBody, end, oldSawLoop := StartLoop(b);
      ghost var entered := Snapshot(b);
      err := CompileStmt(body, b);
      assert Did(b, err, Lowering.CompileStmt(body, entered));
      if err.Some? {
        return;
      }
      if state == Filled {
        return Some(UnreachableStatement);
      }
      FinishDo(cond, header, oldSawLoop, b);
    }

    method FinishDo(cond: Expr, header: BlockId, oldSawLoop: bool, b: FunctionBuilder)
      modifies this, b
      ensures Snapshot(b) ==
              ExitLoop(DoTest(cond, header, old(Snapshot(b)).JumpToBlock(header + 1).SwitchToBlock(header + 1)), oldSawLoop)
    {
      JumpToBlock(header + 1, b);
      SwitchToBlock(header + 1, b);
      var c := CompileExpr(cond, b);
      b.Terminate(Brif(c, Edge(header, None), Edge(header + 2, None)));
      SwitchToBlock(header + 2, b);
      FinishLoop(oldSawLoop, b);
    }

    method ForStatement(s: Stmt, b: FunctionBuilder) returns (err: Option<LoweringError>)
      requires s.For? && state == Empty
      modifies this, b
      ensures Did(b, err, Lowering.CompileStmt(s, old(Snapshot(b))))
      decreases Size(s) - 1, 1
    {
      err := CompileStmt(s.init, b);
      if err.Some? {
        return;
      }
      err := WhileStatement(s.test, WithPost(s.body, s.post), b);
    }

    method SwitchStatement(cond: Expr, body: Stmt, b: FunctionBuilder) returns (err: Option<LoweringError>)
      requires state == Empty
      modifies this, b
      ensures Did(b, err, CompileSwitch(cond, body, old(Snapshot(b))))
      decreases Size(body), 1
    {
      hide SwitchStart, LeaveSwitch, Lowering.CompileStmt;
      var oldSawLoop := lastSawLoop;
      var v, dispatch := StartSwitch(cond, b);
      ghost var entered := Snapshot(b);
      err := CompileStmt(body, b);
      assert Did(b, err, Lowering.CompileStmt(body, entered));
      if err.Some? {
        return;
      }
      if switches == [] {
        return Some(Panic);
      }
      FinishSwitch(v, dispatch, oldSawLoop, b);
    }

    method StartSwitch(cond: Expr, b: FunctionBuilder) returns (v: Reg, dispatch: BlockId)
      modifies this, b
      ensures (Snapshot(b), v, dispatch) == SwitchStart(cond, old(Snapshot(b)))
    {
      hide Lowering.CompileExpr;
      v := CompileExpr(cond, b);
      dispatch := b.CreateBlock();
      JumpToBlock(dispatch, b);
      var start := b.CreateBlock();
      SwitchToBlock(start, b);
      lastSawLoop := false;
      var end := b.CreateBlock();
      switches := switches + [SwitchContext(map[], None, end)];
      assert start == dispatch + 1 && end == dispatch + 2;
    }

    method FinishSwitch(v: Reg, dispatch: BlockId, oldSawLoop: bool, b: FunctionBuilder)
      requires switches != []
      modifies this, b
      ensures Snapshot(b) == LeaveSwitch(v, dispatch, oldSawLoop, old(Snapshot(b)))
    {
      var sw := switches[|switches| - 1];
      switches := switches[..|switches| - 1];
      lastSawLoop := oldSawLoop;
      JumpToBlock(sw.end, b);
      SwitchToBlock(dispatch, b);
      b.Terminate(Switch(v, sw.entries, if sw.default.Some? then sw.default.value else sw.end));
      SwitchToBlock(sw.end, b);
    }

    method OpenBlock(b: FunctionBuilder) returns (block: BlockId)
      modifies this, b
      ensures block == |old(b.blocks)| && Snapshot(b) == NewBlock(old(Snapshot(b)))
    {
      block := b.CreateBlock();
      JumpToBlock(block, b);
      SwitchToBlock(block, b);
    }

    method LabelStatement(name: string, inner: Stmt, b: FunctionBuilder) returns (err: Option<LoweringError>)
      modifies this, b
      ensures Did(b, err, Lowering.CompileStmt(Label(name, inner), old(Snapshot(b))))
      decreases Size(inner), 1
    {
      var block := OpenBlock(b);
      if name in labels {
        return Some(LabelRedeclaration);
      }
      labels := labels[name := block];
      err := CompileStmt(inner, b);
    }

    method CaseStatement(value: nat, inner: Stmt, b: FunctionBuilder) returns (err: Option<LoweringError>)
      modifies this, b
      ensures Did(b, err, Lowering.CompileStmt(Case(value, inner), old(Snapshot(b))))
      decreases Size(inner), 1
    {
      if switches == [] {
        return Some(CaseOutsideSwitch(false));
      }
      var sw := switches[|switches| - 1];
      if value in sw.entries {
        return Some(DuplicateCase(false));
      }
      var block := b.cur;
      if state != Empty {
        block := OpenBlock(b);
      }
      switches := switches[|switches| - 1 := sw.(entries := sw.entries[value := block])];
      err := CompileStmt(inner, b);
    }

    method DefaultStatement(inner: Stmt, b: FunctionBuilder) returns (err: Option<LoweringError>)
      modifies this, b
      ensures Did(b, err, Lowering.CompileStmt(Default(inner), old(Snapshot(b))))
      decreases Size(inner), 1
    {
      if switches == [] {
        return Some(CaseOutsideSwitch(true));
      }
      var sw := switches[|switches| - 1];
      if sw.default.Some? {
        return Some(DuplicateCase(true));
      }
      var block := b.cur;
      if state != Empty {
        block := OpenBlock(b);
      }
      switches := switches[|switches| - 1 := sw.(default := Some(block))];
      err := CompileStmt(inner, b);
    }

    method ExitStatement(isBreak: bool, b: FunctionBuilder) returns (err: Option<LoweringError>)
      modifies this, b
      ensures Did(b, err, LoopExit(isBreak, old(Snapshot(b))))
    {
      err := None;
      if lastSawLoop {
        if loops != [] {
          var (start, end) := loops[|loops| - 1];
          JumpToBlock(if isBreak then end else start, b);
        } else {
          err := Some(NotInLoop(isBreak));
        }
      } else if !isBreak {
        err := Some(NotInLoop(false));
      } else if switches == [] {
        err := Some(Panic);
      } else {
        JumpToBlock(switches[|switches| - 1].end, b);
      }
    }

    /** Lowers one function body into a builder of its own. */
    method CompileFunc(kind: FunctionKind, body: seq<Stmt>)
      returns (b: FunctionBuilder, err: Option<LoweringError>)
      modifies this
      ensures fresh(b) && Did(b, err, CompileFunction(kind, body, old(Context())))
    {
      b := new FunctionBuilder();
      state := Empty;
      err := CompileAll(body, b);
      if err.Some? {
        return;
      }
      if state != Filled {
        match kind {
          case MainFunction =>
            var zero := b.NewReg();
            b.Ins(Const(zero, 0));
            b.Terminate(Return(Some(zero)));
          case ValueFunction => err := Some(MissingReturn);
          case VoidFunction => b.Terminate(Return(None));
        }
      }
    }
  }

  lemma {:induction false} SizeInAll(ss: seq<Stmt>, i: nat)
    requires i < |ss|
    ensures Size(ss[i]) < SizeAll(ss)
  {
    if i > 0 {
      assert ss[1..][i - 1] == ss[i];
      SizeInAll(ss[1..], i - 1);
    }
  }
}
