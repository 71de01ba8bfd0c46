/** The lowered graph does what the source says: a run of it passes through the
    same events in the same order and ends the same way. */
module LoweringSim {
  import opened Wrappers
  import opened Ir
  import opened Hir
  import opened Lowering
  import opened LoweringSound
  import opened Semantics

  /** `g` contains everything emitted so far: what is finished is final, what is
      not may still grow. */
  ghost predicate Within(blocks: seq<Block>, g: seq<Block>) {
    && |blocks| <= |g|
    && forall i :: 0 <= i < |blocks| ==> Grew(blocks[i], g[i])
  }

  lemma {:induction false} WithinTrans(a: seq<Block>, b: seq<Block>, c: seq<Block>)
    requires Within(a, b) && Within(b, c)
    ensures Within(a, c)
  {}

  lemma {:induction false} FinishWithin(b: Builder, t: Term, next: BlockId)
    ensures Within(b.blocks, b.Terminate(t).blocks)
    ensures b.Terminate(t).SwitchTo(next).blocks == b.Terminate(t).blocks
  {}

  lemma {:induction false} WithinEarlier(a: Builder, b: Builder, g: seq<Block>)
    requires Keeps(a, b) && Within(b.blocks, g)
    ensures Within(a.blocks, g)
  {}

  /** Where the code about to be emitted will start. */
  function Here(b: Builder, regs: Regs, h: History): Config
    requires b.cur < |b.blocks|
  {
    At(b.cur, |b.blocks[b.cur].instrs|, regs, h)
  }

  /** Registers already written keep their values. */
  ghost predicate Same(n: nat, a: Regs, b: Regs) {
    forall r :: 0 <= r < n ==> Get(a, r) == Get(b, r)
  }

  lemma {:induction false} EmitRuns(b: Builder, i: Instr, g: seq<Block>, env: Environment, regs: Regs, h: History)
    requires b.Open() && Within(b.NewReg().Emit(i).blocks, g)
    ensures Run(g, env, Here(b, regs, h), 1) == Step(g, env, Here(b, regs, h))
    ensures g[b.cur].instrs[|b.blocks[b.cur].instrs|] == i && |b.blocks[b.cur].instrs| < |g[b.cur].instrs|
    ensures b.cur < |g|
  {
    var r := b.NewReg().Emit(i);
    assert Grew(r.blocks[b.cur], g[b.cur]);
    assert Run(g, env, Here(b, regs, h), 1) == Run(g, env, Step(g, env, Here(b, regs, h)), 0);
  }

  /** The terminator `t` has been put at the end of the current block. */
  lemma {:induction false} TerminateRuns(b: Builder, t: Term, g: seq<Block>, env: Environment, regs: Regs, h: History)
    requires b.Open() && Within(b.Terminate(t).blocks, g)
    ensures b.cur < |g| && g[b.cur].term == Some(t) && |g[b.cur].instrs| == |b.blocks[b.cur].instrs|
    ensures Run(g, env, Here(b, regs, h), 1) == Step(g, env, Here(b, regs, h))
  {
    var r := b.Terminate(t);
    assert Grew(r.blocks[b.cur], g[b.cur]);
    assert Run(g, env, Here(b, regs, h), 1) == Run(g, env, Step(g, env, Here(b, regs, h)), 0);
  }

  lemma {:induction false} Then(g: seq<Block>, env: Environment, a: Config, k: nat, b: Config, m: nat, c: Config)
    requires Run(g, env, a, k) == b && Run(g, env, b, m) == c
    ensures Run(g, env, a, k + m) == c
  {
    RunAdd(g, env, a, k, m);
  }

  // ---------- expressions ----------

  /** From `b` the graph runs in `k` steps through the code of `e`. */
  ghost predicate ExprRuns(e: Expr, b: Builder, g: seq<Block>, env: Environment, regs: Regs, h: History,
                           k: nat, regs': Regs)
    requires b.Open()
  {
    var (b', r) := CompileExpr(e, b);
    var (v, h') := Eval(e, env, h);
    && b'.cur < |b'.blocks|
    && Run(g, env, Here(b, regs, h), k) == Here(b', regs', h')
    && Get(regs', r) == v
    && Same(b.nextReg, regs, regs')
  }

  lemma {:induction false} ExprSim(e: Expr, b: Builder, g: seq<Block>, env: Environment, regs: Regs, h: History)
    returns (k: nat, regs': Regs)
    requires b.Open() && Within(CompileExpr(e, b).0.blocks, g)
    ensures ExprRuns(e, b, g, env, regs, h, k, regs')
    decreases e, 2
  {
    hide CompileLogical, CompileTernary;
    match e
    case Literal(n) =>
      EmitRuns(b, Const(b.nextReg, n), g, env, regs, h);
      k, regs' := 1, regs[b.nextReg := n];
    case Leaf(op) =>
      EmitRuns(b, Do(b.nextReg, op, []), g, env, regs, h);
      assert GetAll(regs, []) == [];
      k, regs' := 1, regs[b.nextReg := Eval(e, env, h).0];
    case Unary(op, operand) =>
      k, regs' := UnarySim(e, b, g, env, regs, h);
    case Binary(op, left, right) =>
      k, regs' := BinarySim(e, b, g, env, regs, h);
    case Comma(left, right) =>
      ExprKeeps(left, b);
      var b0 := CompileExpr(left, b).0;
      ExprKeeps(right, b0);
      WithinEarlier(b0, CompileExpr(right, b0).0, g);
      var k0, regs0 := ExprSim(left, b, g, env, regs, h);
      var k1, regs1 := ExprSim(right, b0, g, env, regs0, Eval(left, env, h).1);
      Then(g, env, Here(b, regs, h), k0, Here(b0, regs0, Eval(left, env, h).1), k1,
           Here(CompileExpr(e, b).0, regs1, Eval(e, env, h).1));
      k, regs' := k0 + k1, regs1;
    case Logical(_, _, _) =>
      k, regs' := LogicalSim(e, b, g, env, regs, h);
    case Ternary(_, _, _) =>
      k, regs' := TernarySim(e, b, g, env, regs, h);
  }

  lemma {:induction false} UnarySim(e: Expr, b: Builder, g: seq<Block>, env: Environment, regs: Regs, h: History)
    returns (k: nat, regs': Regs)
    requires e.Unary? && b.Open() && Within(CompileExpr(e, b).0.blocks, g)
    ensures ExprRuns(e, b, g, env, regs, h, k, regs')
    decreases e, 0
  {
    ExprKeeps(e.operand, b);
    var (b0, x) := CompileExpr(e.operand, b);
    var i := Do(b0.nextReg, e.op, [x]);
    EmitKeeps(b0, b0, i);
    WithinEarlier(b0, b0.NewReg().Emit(i), g);
    var k0, regs0 := ExprSim(e.operand, b, g, env, regs, h);
    var (v, h0) := Eval(e.operand, env, h);
    EmitRuns(b0, i, g, env, regs0, h0);
    assert GetAll(regs0, [x]) == [v];
    regs' := regs0[b0.nextReg := Eval(e, env, h).0];
    Then(g, env, Here(b, regs, h), k0, Here(b0, regs0, h0), 1, Here(CompileExpr(e, b).0, regs', Eval(e, env, h).1));
    k := k0 + 1;
  }

  lemma {:induction false} BinarySim(e: Expr, b: Builder, g: seq<Block>, env: Environment, regs: Regs, h: History)
    returns (k: nat, regs': Regs)
    requires e.Binary? && b.Open() && Within(CompileExpr(e, b).0.blocks, g)
    ensures ExprRuns(e, b, g, env, regs, h, k, regs')
    decreases e, 0
  {
    ExprKeeps(e.left, b);
    var (b0, x) := CompileExpr(e.left, b);
    ExprKeeps(e.right, b0);
    var (b1, y) := CompileExpr(e.right, b0);
    var i := Do(b1.nextReg, e.op, [x, y]);
    EmitKeeps(b1, b1, i);
    WithinEarlier(b1, b1.NewReg().Emit(i), g);
    WithinEarlier(b0, b1, g);
    var (v, h0) := Eval(e.left, env, h);
    var (u, h1) := Eval(e.right, env, h0);
    var k0, regs0 := ExprSim(e.left, b, g, env, regs, h);
    var k1, regs1 := ExprSim(e.right, b0, g, env, regs0, h0);
    EmitRuns(b1, i, g, env, regs1, h1);
    assert Get(regs1, x) == v;
    assert GetAll(regs1, [x, y]) == [v, u];
    regs' := regs1[b1.nextReg := Eval(e, env, h).0];
    Then(g, env, Here(b, regs, h), k0, Here(b0, regs0, h0), k1, Here(b1, regs1, h1));
    Then(g, env, Here(b, regs, h), k0 + k1, Here(b1, regs1, h1), 1, Here(CompileExpr(e, b).0, regs', Eval(e, env, h).1));
    k := k0 + k1 + 1;
  }

  lemma {:induction false} LogicalTestRuns(isOr: bool, b: Builder, l: Reg, right: BlockId, merge: BlockId, merged: Reg,
                        g: seq<Block>, env: Environment, regs: Regs, h: History)
    requires b.Open() && Within(b.Terminate(LogicalTest(isOr, l, right, merge)).blocks, g)
    requires right < |g| && merge < |g| && g[right].param == None && g[merge].param == Some(merged)
    ensures var x := Get(regs, l);
            Run(g, env, Here(b, regs, h), 1) ==
              if (x != 0) == isOr then At(merge, 0, regs[merged := x], h) else At(right, 0, regs, h)
  {
    TerminateRuns(b, LogicalTest(isOr, l, right, merge), g, env, regs, h);
  }

  lemma {:induction false} BrifRuns(b: Builder, c: Reg, thn: BlockId, els: BlockId, g: seq<Block>, env: Environment, regs: Regs, h: History)
    requires b.Open() && Within(b.Terminate(Brif(c, Edge(thn, None), Edge(els, None))).blocks, g)
    ensures Run(g, env, Here(b, regs, h), 1) == At(if Get(regs, c) != 0 then thn else els, 0, regs, h)
  {
    TerminateRuns(b, Brif(c, Edge(thn, None), Edge(els, None)), g, env, regs, h);
  }

  lemma {:induction false} JumpRuns(b: Builder, target: BlockId, g: seq<Block>, env: Environment, regs: Regs, h: History)
    requires b.Open() && Within(b.Terminate(Jump(Edge(target, None))).blocks, g)
    ensures Run(g, env, Here(b, regs, h), 1) == At(target, 0, regs, h)
  {
    TerminateRuns(b, Jump(Edge(target, None)), g, env, regs, h);
  }

  lemma {:induction false} IsNonZeroRuns(b: Builder, src: Reg, g: seq<Block>, env: Environment, regs: Regs, h: History)
    requires b.Open() && Within(b.NewReg().Emit(IsNonZero(b.nextReg, src)).blocks, g)
    ensures Run(g, env, Here(b, regs, h), 1) ==
            Here(b.NewReg().Emit(IsNonZero(b.nextReg, src)),
                 regs[b.nextReg := if Get(regs, src) != 0 then 1 else 0], h)
  {
    EmitRuns(b, IsNonZero(b.nextReg, src), g, env, regs, h);
  }

  /** The stages of lowering `&&` and `||`; see `CompileLogical`. */
  lemma {:induction false} LogicalStages(e: Expr, b: Builder, b0: Builder, b1: Builder, l: Reg, b2: Builder,
                                         b3: Builder, r: Reg, b4: Builder, g: seq<Block>)
    requires e.Logical? && b.Open() && b0 == LogicalStart(b) && (b1, l) == CompileExpr(e.left, b0)
    requires b2 == LogicalMiddle(e.isOr, b, b1, l) && (b3, r) == CompileExpr(e.right, b2)
    requires b4 == LogicalMerge(b, b3, r) && Within(CompileLogical(e, b).0.blocks, g)
    ensures b0.Open() && b0.cur == b.cur && b0.blocks[b.cur] == b.blocks[b.cur] && b0.nextReg == b.nextReg + 1
    ensures b1.Open() && Within(b1.blocks, g) && l < b1.nextReg && b0.nextReg <= b1.nextReg
    ensures b2.Open() && b2.cur == |b.blocks| && b2.blocks[b2.cur].instrs == [] && b2.nextReg == b1.nextReg
    ensures Within(b1.Terminate(LogicalTest(e.isOr, l, |b.blocks|, |b.blocks| + 1)).blocks, g)
    ensures b3.Open() && Within(b3.blocks, g) && r < b3.nextReg && b2.nextReg <= b3.nextReg
    ensures Within(b3.Terminate(Jump(Edge(|b.blocks| + 1, Some(r)))).blocks, g)
    ensures b4.Open() && b4.cur == |b.blocks| + 1 && b4.blocks[b4.cur].instrs == [] && b4.nextReg == b3.nextReg
    ensures |g| > |b.blocks| + 1 && g[|b.blocks|].param == None && g[|b.blocks| + 1].param == Some(b.nextReg)
    ensures CompileLogical(e, b) == (b4.NewReg().Emit(IsNonZero(b4.nextReg, b.nextReg)), b4.nextReg)
  {
    hide CompileExpr, LogicalTest, Within;
    var right, merge := |b.blocks|, |b.blocks| + 1;
    var t1, t2 := LogicalTest(e.isOr, l, right, merge), Jump(Edge(merge, Some(r)));
    LogicalStartKeeps(b);
    ExprKeeps(e.left, b0);
    FinishKeeps(b, b0, b1, t1, right);
    ExprKeeps(e.right, b2);
    assert b2.Pristine(merge);
    FinishKeeps(b, b2, b3, t2, merge);
    var b5 := b4.NewReg().Emit(IsNonZero(b4.nextReg, b.nextReg));
    EmitKeeps(b4, b4, IsNonZero(b4.nextReg, b.nextReg));
    WithinEarlier(b4, b5, g);
    FinishWithin(b3, t2, merge);
    WithinTrans(b3.blocks, b4.blocks, g);
    WithinEarlier(b2, b3, g);
    FinishWithin(b1, t1, right);
    WithinTrans(b1.blocks, b2.blocks, g);
    WithinEarlier(b0, b1, g);
    ParamWithin(b1.blocks, g, right);
    ParamWithin(b1.blocks, g, merge);
  }

  lemma {:induction false} ParamWithin(blocks: seq<Block>, g: seq<Block>, i: nat)
    requires Within(blocks, g) && i < |blocks|
    ensures i < |g| && g[i].param == blocks[i].param
  {}

  /** `&&` and `||` reach their merge block with a truth value in its parameter. */
  lemma {:induction false} LogicalToMerge(e: Expr, b: Builder, g: seq<Block>, env: Environment, regs: Regs, h: History)
    returns (k: nat, regs': Regs)
    requires e.Logical? && b.Open() && Within(CompileLogical(e, b).0.blocks, g)
    ensures Run(g, env, Here(b, regs, h), k) == At(|b.blocks| + 1, 0, regs', Eval(e, env, h).1)
    ensures Eval(e, env, h).0 == if Get(regs', b.nextReg) != 0 then 1 else 0
    ensures Same(b.nextReg, regs, regs')
    decreases e, 0
  {
    hide CompileExpr;
    var merge := |b.blocks| + 1;
    var b0 := LogicalStart(b);
    var (b1, l) := CompileExpr(e.left, b0);
    var b2 := LogicalMiddle(e.isOr, b, b1, l);
    var (b3, r) := CompileExpr(e.right, b2);
    LogicalStages(e, b, b0, b1, l, b2, b3, r, LogicalMerge(b, b3, r), g);
    var (x, h1) := Eval(e.left, env, h);
    var k0, regs0 := ExprSim(e.left, b0, g, env, regs, h);
    assert Here(b0, regs, h) == Here(b, regs, h);
    LogicalTestRuns(e.isOr, b1, l, |b.blocks|, merge, b.nextReg, g, env, regs0, h1);
    if (x != 0) == e.isOr {
      k, regs' := 1, regs0[b.nextReg := x];
    } else {
      k, regs' := BranchSim(e.right, b, b2, merge, g, env, regs0, h1);
      Then(g, env, Here(b1, regs0, h1), 1, Here(b2, regs0, h1), k, At(merge, 0, regs', Eval(e, env, h).1));
      k := 1 + k;
    }
    Then(g, env, Here(b, regs, h), k0, Here(b1, regs0, h1), k, At(merge, 0, regs', Eval(e, env, h).1));
    k := k0 + k;
  }

  lemma {:induction false} LogicalSim(e: Expr, b: Builder, g: seq<Block>, env: Environment, regs: Regs, h: History)
    returns (k: nat, regs': Regs)
    requires e.Logical? && b.Open() && Within(CompileLogical(e, b).0.blocks, g)
    ensures ExprRuns(e, b, g, env, regs, h, k, regs')
    decreases e, 1
  {
    var (b1, l) := CompileExpr(e.left, LogicalStart(b));
    var b2 := LogicalMiddle(e.isOr, b, b1, l);
    var (b3, r) := CompileExpr(e.right, b2);
    var b4 := LogicalMerge(b, b3, r);
    assert b4.Open() && b4.cur == |b.blocks| + 1 && b4.blocks[b4.cur].instrs == [] && b4.nextReg > b.nextReg by {
      LogicalStages(e, b, LogicalStart(b), b1, l, b2, b3, r, b4, g);
    }
    var (v, h') := Eval(e, env, h);
    var k0, regs0 := LogicalToMerge(e, b, g, env, regs, h);
    IsNonZeroRuns(b4, b.nextReg, g, env, regs0, h');
    k, regs' := k0 + 1, regs0[b4.nextReg := v];
    Then(g, env, Here(b, regs, h), k0, Here(b4, regs0, h'), 1, Here(CompileLogical(e, b).0, regs', h'));
  }

  /** The stages of lowering `?:`; see `CompileTernary`. */
  lemma {:induction false} TernaryStages(e: Expr, b: Builder, b1: Builder, c: Reg, b2: Builder, b3: Builder, l: Reg,
                                         b4: Builder, b5: Builder, r: Reg, g: seq<Block>)
    requires e.Ternary? && b.Open() && (b1, c) == CompileExpr(e.cond, b.CreateBlockWithParam())
    requires b2 == TernaryFork(b1, c) && (b3, l) == CompileExpr(e.thn, b2)
    requires b4 == FinishInto(b3, |b.blocks|, l, |b1.blocks| + 1) && (b5, r) == CompileExpr(e.els, b4)
    requires Within(CompileTernary(e, b).0.blocks, g)
    ensures b1.Open() && Within(b1.blocks, g) && c < b1.nextReg && b.nextReg + 1 <= b1.nextReg
    ensures var t := Brif(c, Edge(|b1.blocks|, None), Edge(|b1.blocks| + 1, None));
            Within(b1.CreateBlock().CreateBlock().Terminate(t).blocks, g)
    ensures b2.Open() && b2.cur == |b1.blocks| && b2.blocks[b2.cur].instrs == [] && b2.nextReg == b1.nextReg
    ensures b3.Open() && Within(b3.blocks, g) && l < b3.nextReg && b2.nextReg <= b3.nextReg
    ensures Within(b3.Terminate(Jump(Edge(|b.blocks|, Some(l)))).blocks, g)
    ensures b4.Open() && b4.cur == |b1.blocks| + 1 && b4.blocks[b4.cur].instrs == [] && b4.nextReg == b3.nextReg
    ensures b5.Open() && Within(b5.blocks, g) && r < b5.nextReg && b4.nextReg <= b5.nextReg
    ensures Within(b5.Terminate(Jump(Edge(|b.blocks|, Some(r)))).blocks, g)
    ensures var b6 := FinishInto(b5, |b.blocks|, r, |b.blocks|);
            && CompileTernary(e, b) == (b6, b.nextReg)
            && b6.cur == |b.blocks| < |b6.blocks| && b6.blocks[b6.cur].instrs == []
    ensures |g| > |b1.blocks| + 1 > |b.blocks| + 1 && g[|b.blocks|].param == Some(b.nextReg)
    ensures g[|b1.blocks|].param == None && g[|b1.blocks| + 1].param == None
  {
    hide CompileExpr, Within;
    var target, ifFalse := |b.blocks|, |b1.blocks| + 1;
    var b0 := b.CreateBlockWithParam();
    var tl, tr := Jump(Edge(target, Some(l))), Jump(Edge(target, Some(r)));
    var b6 := FinishInto(b5, target, r, target);
    CreateKeeps(b, b);
    ExprKeeps(e.cond, b0);
    TernaryForkKeeps(b, b0, b1, c);
    assert b2.Pristine(target);
    ExprKeeps(e.thn, b2);
    FinishKeeps(b, b2, b3, tl, ifFalse);
    assert b4.Pristine(target);
    ExprKeeps(e.els, b4);
    FinishKeeps(b, b4, b5, tr, target);
    FinishWithin(b5, tr, target);
    WithinTrans(b5.blocks, b6.blocks, g);
    WithinEarlier(b4, b5, g);
    FinishWithin(b3, tl, ifFalse);
    WithinTrans(b3.blocks, b4.blocks, g);
    WithinEarlier(b2, b3, g);
    ForkWithin(b1, c, g);
    WithinEarlier(b0, b1, g);
    ParamWithin(b1.blocks, g, target);
  }

  lemma {:induction false} ForkWithin(b: Builder, c: Reg, g: seq<Block>)
    requires b.cur < |b.blocks| && Within(TernaryFork(b, c).blocks, g)
    ensures Within(b.blocks, g)
    ensures Within(b.CreateBlock().CreateBlock().Terminate(Brif(c, Edge(|b.blocks|, None), Edge(|b.blocks| + 1, None))).blocks, g)
    ensures |g| > |b.blocks| + 1 && g[|b.blocks|].param == None && g[|b.blocks| + 1].param == None
  {
    var b1 := b.CreateBlock().CreateBlock();
    var t := Brif(c, Edge(|b.blocks|, None), Edge(|b.blocks| + 1, None));
    FinishWithin(b1, t, |b.blocks|);
    assert Within(b.blocks, b1.blocks);
    WithinTrans(b.blocks, b1.blocks, b1.Terminate(t).blocks);
    WithinTrans(b.blocks, b1.Terminate(t).blocks, g);
  }

  lemma {:induction false} TernarySim(e: Expr, b: Builder, g: seq<Block>, env: Environment, regs: Regs, h: History)
    returns (k: nat, regs': Regs)
    requires e.Ternary? && b.Open() && Within(CompileTernary(e, b).0.blocks, g)
    ensures ExprRuns(e, b, g, env, regs, h, k, regs')
    decreases e, 1
  {
    var target := |b.blocks|;
    var k0, regs0 := TernaryTestSim(e, b, g, env, regs, h);
    var (b1, c) := CompileExpr(e.cond, b.CreateBlockWithParam());
    var (x, h1) := Eval(e.cond, env, h);
    var mid := At(if x != 0 then |b1.blocks| else |b1.blocks| + 1, 0, regs0, h1);
    k, regs' := TernaryBranchSim(e, b, x, g, env, regs0, h1);
    Then(g, env, Here(b, regs, h), k0, mid, k, At(target, 0, regs', Eval(e, env, h).1));
    k := k0 + k;
    TernaryEnds(e, b, g);
  }

  /** `?:` ends at the start of its merge block. */
  lemma {:induction false} TernaryEnds(e: Expr, b: Builder, g: seq<Block>)
    requires e.Ternary? && b.Open() && Within(CompileTernary(e, b).0.blocks, g)
    ensures var (b', r) := CompileTernary(e, b);
            b'.cur == |b.blocks| < |b'.blocks| && b'.blocks[b'.cur].instrs == [] && r == b.nextReg
  {
    var (b1, c) := CompileExpr(e.cond, b.CreateBlockWithParam());
    var b2 := TernaryFork(b1, c);
    var (b3, l) := CompileExpr(e.thn, b2);
    var b4 := FinishInto(b3, |b.blocks|, l, |b1.blocks| + 1);
    var (b5, r) := CompileExpr(e.els, b4);
    TernaryStages(e, b, b1, c, b2, b3, l, b4, b5, r, g);
  }

  lemma {:induction false} TernaryTestSim(e: Expr, b: Builder, g: seq<Block>, env: Environment, regs: Regs, h: History)
    returns (k: nat, regs': Regs)
    requires e.Ternary? && b.Open() && Within(CompileTernary(e, b).0.blocks, g)
    ensures var b1 := CompileExpr(e.cond, b.CreateBlockWithParam()).0;
            var (x, h1) := Eval(e.cond, env, h);
            Run(g, env, Here(b, regs, h), k) == At(if x != 0 then |b1.blocks| else |b1.blocks| + 1, 0, regs', h1)
    ensures Same(b.nextReg + 1, regs, regs')
    decreases e, 0
  {
    hide CompileExpr;
    var b0 := b.CreateBlockWithParam();
    var (b1, c) := CompileExpr(e.cond, b0);
    var (x, h1) := Eval(e.cond, env, h);
    assert Within(b1.blocks, g) && b1.Open()
        && Within(b1.CreateBlock().CreateBlock().Terminate(Brif(c, Edge(|b1.blocks|, None), Edge(|b1.blocks| + 1, None))).blocks, g) by {
      var b2 := TernaryFork(b1, c);
      var (b3, l) := CompileExpr(e.thn, b2);
      var b4 := FinishInto(b3, |b.blocks|, l, |b1.blocks| + 1);
      var (b5, r) := CompileExpr(e.els, b4);
      TernaryStages(e, b, b1, c, b2, b3, l, b4, b5, r, g);
    }
    k, regs' := ExprSim(e.cond, b0, g, env, regs, h);
    assert Here(b0, regs, h) == Here(b, regs, h);
    var b1' := b1.CreateBlock().CreateBlock();
    BrifRuns(b1', c, |b1.blocks|, |b1.blocks| + 1, g, env, regs', h1);
    Then(g, env, Here(b, regs, h), k, Here(b1, regs', h1), 1,
         At(if x != 0 then |b1.blocks| else |b1.blocks| + 1, 0, regs', h1));
    k := k + 1;
  }

  lemma {:induction false} TernaryBranchSim(e: Expr, b: Builder, x: int, g: seq<Block>, env: Environment, regs: Regs, h: History)
    returns (k: nat, regs': Regs)
    requires e.Ternary? && b.Open() && Within(CompileTernary(e, b).0.blocks, g)
    ensures var b1 := CompileExpr(e.cond, b.CreateBlockWithParam()).0;
            var (v, h') := Eval(if x != 0 then e.thn else e.els, env, h);
            && Run(g, env, At(if x != 0 then |b1.blocks| else |b1.blocks| + 1, 0, regs, h), k)
               == At(|b.blocks|, 0, regs', h')
            && Get(regs', b.nextReg) == v && Same(b.nextReg, regs, regs')
    decreases e, 0
  {
    hide CompileExpr, CompileTernary, TernaryFork, FinishInto, Within, Eval;
    var (b1, c) := CompileExpr(e.cond, b.CreateBlockWithParam());
    var b2 := TernaryFork(b1, c);
    var (b3, l) := CompileExpr(e.thn, b2);
    var b4 := FinishInto(b3, |b.blocks|, l, |b1.blocks| + 1);
    var (b5, r) := CompileExpr(e.els, b4);
    TernaryStages(e, b, b1, c, b2, b3, l, b4, b5, r, g);
    if x != 0 {
      k, regs' := BranchSim(e.thn, b, b2, |b.blocks|, g, env, regs, h);
    } else {
      k, regs' := BranchSim(e.els, b, b4, |b.blocks|, g, env, regs, h);
    }
  }

  /** A branch of `?:`, or the right side of `&&` and `||`, runs and hands its value
      to the merge block. */
  lemma {:induction false} BranchSim(e: Expr, base: Builder, b: Builder, target: BlockId, g: seq<Block>,
                                     env: Environment, regs: Regs, h: History)
    returns (k: nat, regs': Regs)
    requires b.Open() && base.nextReg < b.nextReg
    requires Within(CompileExpr(e, b).0.blocks, g)
    requires Within(CompileExpr(e, b).0.Terminate(Jump(Edge(target, Some(CompileExpr(e, b).1)))).blocks, g)
    requires target < |g| && g[target].param == Some(base.nextReg)
    ensures Run(g, env, Here(b, regs, h), k) == At(target, 0, regs', Eval(e, env, h).1)
    ensures Get(regs', base.nextReg) == Eval(e, env, h).0 && Same(base.nextReg, regs, regs')
    decreases e, 3
  {
    var (b', r) := CompileExpr(e, b);
    var (v, h') := Eval(e, env, h);
    ExprKeeps(e, b);
    var k0, regs0 := ExprSim(e, b, g, env, regs, h);
    TerminateRuns(b', Jump(Edge(target, Some(r))), g, env, regs0, h');
    regs' := regs0[base.nextReg := v];
    k := k0 + 1;
    Then(g, env, Here(b, regs, h), k0, Here(b', regs0, h'), 1, At(target, 0, regs', h'));
  }
}
