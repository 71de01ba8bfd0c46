/** Statements: the graph follows every run of the source, step by step. */
module LoweringStmtSim {
  import opened Wrappers
  import opened Ir
  import opened Hir
  import opened Lowering
  import opened LoweringSound
  import opened Semantics
  import opened LoweringSim
  import opened LoweringSwitch

  function BreakTarget(c: Control): Option<BlockId> {
    if c.lastSawLoop then
      if c.loops == [] then None else Some(c.loops[|c.loops| - 1].1)
    else if c.switches == [] then None
    else Some(Top(c).end)
  }

  function ContinueTarget(c: Control): Option<BlockId> {
    if c.lastSawLoop && c.loops != [] then Some(c.loops[|c.loops| - 1].0) else None
  }

  lemma {:induction false} TargetsBalanced(a: Control, b: Control)
    requires Balanced(a, b)
    ensures BreakTarget(b) == BreakTarget(a) && ContinueTarget(b) == ContinueTarget(a)
  {}

  /** After `k` steps from `start` the graph is where outcome `o` says it should
      be: at the end of the lowered code, at the block a `break` or `continue`
      goes to, halted, or still busy after more than `fuel` steps. */
  ghost predicate Reaches(g: seq<Block>, env: Environment, start: Config, k: nat, fuel: nat,
                          o: Outcome, regs: Regs, h: History, before: Control, after: State)
  {
    var c := Run(g, env, start, k);
    match o
    case Normal => after.c.state == Empty && after.b.cur < |after.b.blocks| && c == Here(after.b, regs, h)
    case Broke => k >= 1 && BreakTarget(before).Some? && c == At(BreakTarget(before).value, 0, regs, h)
    case Continued => k >= 1 && ContinueTarget(before).Some? && c == At(ContinueTarget(before).value, 0, regs, h)
    case Returned(v) => c == Halted(v, h)
    case Running => k > fuel && c.At? && c.h == h
  }

  /** Steps taken before reaching `mid` come on top. */
  lemma {:induction false} ReachesLater(g: seq<Block>, env: Environment, start: Config, j: nat, mid: Config, k: nat, fuel: nat,
                     o: Outcome, regs: Regs, h: History, before: Control, mid': Control, after: State)
    requires Run(g, env, start, j) == mid && Reaches(g, env, mid, k, fuel, o, regs, h, mid', after)
    requires BreakTarget(before) == BreakTarget(mid') && ContinueTarget(before) == ContinueTarget(mid')
    ensures Reaches(g, env, start, j + k, fuel, o, regs, h, before, after)
  {
    RunAdd(g, env, start, j, k);
  }

  /** The lowered code of `st'`, reached from `st`, is part of `g`. */
  lemma {:induction false} JumpSwitchWithin(st: State, target: BlockId, next: BlockId, g: seq<Block>)
    requires Within(st.JumpToBlock(target).SwitchToBlock(next).b.blocks, g)
    ensures Within(st.JumpToBlock(target).b.blocks, g) && Within(st.b.blocks, g)
  {
    FinishWithin(st.b, Jump(Edge(target, None)), next);
    WithinTrans(st.b.blocks, st.JumpToBlock(target).b.blocks, g);
  }

  lemma {:induction false} ExprsSim(es: seq<Expr>, b: Builder, g: seq<Block>, env: Environment, regs: Regs, h: History)
    returns (k: nat, regs': Regs)
    requires b.Open() && Within(CompileExprs(es, b).blocks, g)
    ensures var b' := CompileExprs(es, b);
            b'.cur < |b'.blocks| && Run(g, env, Here(b, regs, h), k) == Here(b', regs', EvalAll(es, env, h))
    decreases |es|
  {
    if es == [] {
      k, regs' := 0, regs;
    } else {
      var b0 := CompileExpr(es[0], b).0;
      ExprKeeps(es[0], b);
      ExprsKeep(es[1..], b0);
      WithinEarlier(b0, CompileExprs(es[1..], b0), g);
      var k0, regs0 := ExprSim(es[0], b, g, env, regs, h);
      var h0 := Eval(es[0], env, h).1;
      k, regs' := ExprsSim(es[1..], b0, g, env, regs0, h0);
      Then(g, env, Here(b, regs, h), k0, Here(b0, regs0, h0), k, Here(CompileExprs(es, b), regs', EvalAll(es, env, h)));
      k := k0 + k;
    }
  }

  lemma {:induction false} RunNone(g: seq<Block>, env: Environment, c: Config)
    ensures Run(g, env, c, 0) == c
  {}

  lemma {:induction false} AllSim(ss: seq<Stmt>, st: State, g: seq<Block>, env: Environment, regs: Regs, h: History, fuel: nat)
    returns (k: nat, regs': Regs)
    requires StructuredAll(ss) && Valid(st) && st.c.state == Empty && CompileAll(ss, st).Ok?
    requires Within(CompileAll(ss, st).value.b.blocks, g)
    ensures var (o, h') := ExecAll(ss, env, h, fuel, Lowered);
            Reaches(g, env, Here(st.b, regs, h), k, fuel, o, regs', h', st.c, CompileAll(ss, st).value)
    decreases fuel, SizeAll(ss), 0
  {
    hide CompileStmt, Within, Keeps, Exec, Run;
    if ss == [] {
      k, regs' := 0, regs;
      assert Run(g, env, Here(st.b, regs, h), 0) == Here(st.b, regs, h) by { RunNone(g, env, Here(st.b, regs, h)); }
    } else {
      var s1 := CompileStmt(ss[0], st).value;
      var s2 := CompileAll(ss[1..], s1).value;
      assert Within(s1.b.blocks, g) && Valid(s1) && Balanced(st.c, s1.c) by {
        StructuredIsParsed(ss[0]);
        StmtSound(ss[0], st);
        AllParsed(ss[1..]);
        AllSound(ss[1..], s1);
        WithinEarlier(s1.b, s2.b, g);
      }
      var (o, h1) := Exec(ss[0], env, h, fuel, Lowered);
      k, regs' := StmtSim(ss[0], st, g, env, regs, h, fuel);
      if o == Normal {
        var j, regs1 := k, regs';
        k, regs' := AllSim(ss[1..], s1, g, env, regs1, h1, fuel);
        var (o2, h2) := ExecAll(ss[1..], env, h1, fuel, Lowered);
        TargetsBalanced(st.c, s1.c);
        ReachesLater(g, env, Here(st.b, regs, h), j, Here(s1.b, regs1, h1), k, fuel, o2, regs', h2, st.c, s1.c, s2);
        k := j + k;
      }
    }
  }

  lemma {:induction false} AllParsed(ss: seq<Stmt>)
    requires StructuredAll(ss)
    ensures ParsedAll(ss)
  {
    forall i | 0 <= i < |ss| ensures Parsed(ss[i]) { StructuredIsParsed(ss[i]); }
  }

  lemma {:induction false} StmtSim(s: Stmt, st: State, g: seq<Block>, env: Environment, regs: Regs, h: History, fuel: nat)
    returns (k: nat, regs': Regs)
    requires Structured(s) && Valid(st) && st.c.state == Empty && CompileStmt(s, st).Ok?
    requires Within(CompileStmt(s, st).value.b.blocks, g)
    ensures var (o, h') := Exec(s, env, h, fuel, Lowered);
            Reaches(g, env, Here(st.b, regs, h), k, fuel, o, regs', h', st.c, CompileStmt(s, st).value)
    decreases fuel, Size(s), 1
  {
    match s
    case Compound(stmts) => k, regs' := AllSim(stmts, st, g, env, regs, h, fuel);
    case Decl(inits) => k, regs' := ExprsSim(inits, st.b, g, env, regs, h);
    case ExprStmt(e) => k, regs' := ExprSim(e, st.b, g, env, regs, h);
    case ReturnStmt(result) => k, regs' := ReturnSim(result, st, g, env, regs, h, fuel);
    case If(_, _, _) => k, regs' := IfSim(s, st, g, env, regs, h, fuel);
    case While(cond, body) => k, regs' := WhileSim(Some(cond), body, st, g, env, regs, h, fuel);
    case For(_, _, _, _) => k, regs' := ForSim(s, st, g, env, regs, h, fuel);
    case DoWhile(body, cond) => k, regs' := DoSim(body, cond, st, g, env, regs, h, fuel);
    case SwitchStmt(cond, body) => k, regs' := SwitchSim(cond, body, st, g, env, regs, h, fuel);
    case Break =>
      JumpRuns(st.b, BreakTarget(st.c).value, g, env, regs, h);
      k, regs' := 1, regs;
    case Continue =>
      JumpRuns(st.b, ContinueTarget(st.c).value, g, env, regs, h);
      k, regs' := 1, regs;
  }

  lemma {:induction false} ReturnSim(result: Option<Expr>, st: State, g: seq<Block>, env: Environment, regs: Regs, h: History, fuel: nat)
    returns (k: nat, regs': Regs)
    requires Valid(st) && st.c.state == Empty && Within(CompileStmt(ReturnStmt(result), st).value.b.blocks, g)
    ensures var (o, h') := Exec(ReturnStmt(result), env, h, fuel, Lowered);
            Reaches(g, env, Here(st.b, regs, h), k, fuel, o, regs', h', st.c, CompileStmt(ReturnStmt(result), st).value)
  {
    match result
    case None =>
      TerminateRuns(st.b, Return(None), g, env, regs, h);
      k, regs' := 1, regs;
    case Some(e) =>
      ExprKeeps(e, st.b);
      var (b, x) := CompileExpr(e, st.b);
      WithinTrans(b.blocks, b.Terminate(Return(Some(x))).blocks, g);
      var k0, regs0 := ExprSim(e, st.b, g, env, regs, h);
      var (v, h') := Eval(e, env, h);
      TerminateRuns(b, Return(Some(x)), g, env, regs0, h');
      Then(g, env, Here(st.b, regs, h), k0, Here(b, regs0, h'), 1, Halted(Some(v), h'));
      k, regs' := k0 + 1, regs0;
  }

  // ---------- if ----------

  lemma {:induction false} IfForkWithin(b: Builder, c: Reg, hasElse: bool, g: seq<Block>)
    requires b.cur < |b.blocks| && Within(IfFork(b, c, hasElse).blocks, g)
    ensures Within(b.blocks, g)
    ensures var n := |b.blocks|;
            var b1 := b.CreateBlock().CreateBlock();
            var b2 := if hasElse then b1.CreateBlock() else b1;
            Within(b2.Terminate(Brif(c, Edge(n, None), Edge(if hasElse then n + 2 else n + 1, None))).blocks, g)
  {
    var n := |b.blocks|;
    var b1 := b.CreateBlock().CreateBlock();
    var b2 := if hasElse then b1.CreateBlock() else b1;
    var t := Brif(c, Edge(n, None), Edge(if hasElse then n + 2 else n + 1, None));
    FinishWithin(b2, t, n);
    assert Within(b.blocks, b2.blocks);
    WithinTrans(b.blocks, b2.blocks, b2.Terminate(t).blocks);
    WithinTrans(b.blocks, b2.Terminate(t).blocks, g);
  }

  /** The test of an `if` takes control to its body, or past it. */
  lemma {:induction false} IfStartSim(cond: Expr, hasElse: bool, st: State, g: seq<Block>, env: Environment, regs: Regs, h: History)
    returns (k: nat, regs': Regs)
    requires Valid(st) && st.c.state == Empty && Within(IfStart(cond, hasElse, st).0.b.blocks, g)
    ensures var (r, end) := IfStart(cond, hasElse, st); var (x, h') := Eval(cond, env, h);
            Run(g, env, Here(st.b, regs, h), k) ==
              At(if x != 0 then r.b.cur else if hasElse then end + 1 else end, 0, regs', h')
  {
    hide CompileStmt, CompileExpr;
    var r := IfStart(cond, hasElse, st).0;
    ExprKeeps(cond, st.b);
    var (b, c) := CompileExpr(cond, st.b);
    var n := |b.blocks|;
    var b1 := b.CreateBlock().CreateBlock();
    var b2 := if hasElse then b1.CreateBlock() else b1;
    var els := if hasElse then n + 2 else n + 1;
    IfForkWithin(b, c, hasElse, g);
    var (x, h') := Eval(cond, env, h);
    var k0, regs0 := ExprSim(cond, st.b, g, env, regs, h);
    BrifRuns(b2, c, n, els, g, env, regs0, h');
    assert Here(b2, regs0, h') == Here(b, regs0, h');
    Then(g, env, Here(st.b, regs, h), k0, Here(b, regs0, h'), 1, At(if x != 0 then n else els, 0, regs0, h'));
    k, regs' := k0 + 1, regs0;
    IfForkKeeps(st.b, b, c, hasElse);
  }

  /** A branch of an `if` that ends normally goes on to the end block. */
  lemma {:induction false} BranchEnds(st: State, end: BlockId, before: Control, after: State, g: seq<Block>,
                   env: Environment, start: Config, k: nat, fuel: nat, o: Outcome, regs: Regs, h: History)
    returns (k': nat)
    requires Valid(st) && Reaches(g, env, start, k, fuel, o, regs, h, before, st)
    requires o == Normal ==> StartsAt(after, end) && Within(st.JumpToBlock(end).b.blocks, g)
    ensures Reaches(g, env, start, k', fuel, o, regs, h, before, after)
  {
    k' := k;
    if o == Normal {
      JumpRuns(st.b, end, g, env, regs, h);
      Then(g, env, start, k, Here(st.b, regs, h), 1, At(end, 0, regs, h));
      k' := k + 1;
    }
  }

  /** A state just moved to `end`. */
  ghost predicate StartsAt(st: State, end: BlockId) {
    st.c.state == Empty && st.b.cur == end < |st.b.blocks| && st.b.blocks[end].instrs == []
  }

  lemma {:induction false} SwitchedStarts(st: State, end: BlockId)
    requires !st.SwitchToBlock(end).b.broken
    ensures StartsAt(st.SwitchToBlock(end), end)
  {}

  lemma {:induction false} IfStages(els: Option<Stmt>, base: State, s1: State, r: State, end: BlockId, g: seq<Block>)
    requires IfEntered(base, s1, els.Some?, end) && Sound(s1, r) && (els.Some? ==> Structured(els.value))
    requires IfRest(els, end, r).Ok? && Within(IfRest(els, end, r).value.b.blocks, g)
    ensures var final := IfRest(els, end, r).value;
            && Within(s1.b.blocks, g) && Within(r.b.blocks, g) && Within(r.JumpToBlock(end).b.blocks, g)
            && (r.c.state == Empty || els.None? ==> StartsAt(final, end))
            && (els.Some? ==>
                  var s2 := r.JumpToBlock(end).SwitchToBlock(end + 1);
                  CompileStmt(els.value, s2).Ok? &&
                  var q := CompileStmt(els.value, s2).value;
                  && Valid(s2) && StartsAt(s2, end + 1) && Balanced(base.c, s2.c)
                  && Valid(q) && Within(q.b.blocks, g)
                  && (q.c.state == Empty ==> StartsAt(final, end) && Within(q.JumpToBlock(end).b.blocks, g)))
  {
    hide CompileStmt, CompileExpr;
    match els
    case None =>
      ThenEndSound(base, s1, r, end);
      SwitchedStarts(r.JumpToBlock(end), end);
      JumpSwitchWithin(r, end, end, g);
      WithinEarlier(s1.b, r.b, g);
    case Some(other) =>
      var s2 := r.JumpToBlock(end).SwitchToBlock(end + 1);
      ElseStartSound(base, s1, r, end);
      SwitchedStarts(r.JumpToBlock(end), end + 1);
      StructuredIsParsed(other);
      StmtSound(other, s2);
      var q := CompileStmt(other, s2).value;
      IfJoinSound(base, s2, q, r.c.state == Filled, end);
      JoinStages(r.c.state == Filled, end, q, g);
      WithinEarlier(s2.b, q.b, g);
      JumpSwitchWithin(r, end, end + 1, g);
      WithinEarlier(s1.b, r.b, g);
  }

  lemma {:induction false} JoinStages(ifHasReturn: bool, end: BlockId, q: State, g: seq<Block>)
    requires !IfJoin(ifHasReturn, end, q).b.broken && Within(IfJoin(ifHasReturn, end, q).b.blocks, g)
    ensures Within(q.b.blocks, g)
    ensures !ifHasReturn || q.c.state == Empty ==> StartsAt(IfJoin(ifHasReturn, end, q), end)
    ensures q.c.state == Empty ==> Within(q.JumpToBlock(end).b.blocks, g)
  {
    if q.c.state == Empty {
      SwitchedStarts(q.JumpToBlock(end), end);
      JumpSwitchWithin(q, end, end, g);
    } else if !ifHasReturn {
      SwitchedStarts(q, end);
    }
  }

  /** What `ThenSim` needs to know about a lowered `if`. */
  ghost predicate ThenReady(thn: Stmt, s1: State, end: BlockId, final: State, g: seq<Block>) {
    && Structured(thn) && Valid(s1) && StartsAt(s1, s1.b.cur) && CompileStmt(thn, s1).Ok?
    && var r := CompileStmt(thn, s1).value;
       Valid(r) && Within(r.b.blocks, g) && Within(r.JumpToBlock(end).b.blocks, g) &&
       (r.c.state == Empty ==> StartsAt(final, end))
  }

  /** What `ElseSim` needs to know about a lowered `if`. */
  ghost predicate ElseReady(els: Stmt, before: Control, end: BlockId, r: State, final: State, g: seq<Block>) {
    var s2 := r.JumpToBlock(end).SwitchToBlock(end + 1);
    && Structured(els) && Valid(s2) && StartsAt(s2, end + 1) && Balanced(before, s2.c) && CompileStmt(els, s2).Ok?
    && var q := CompileStmt(els, s2).value;
       Valid(q) && Within(q.b.blocks, g) &&
       (q.c.state == Empty ==> StartsAt(final, end) && Within(q.JumpToBlock(end).b.blocks, g))
  }

  lemma {:induction false} IfSetup(s: Stmt, st: State, g: seq<Block>)
    requires s.If? && Structured(s) && Valid(st) && st.c.state == Empty && CompileStmt(s, st).Ok?
    requires Within(CompileStmt(s, st).value.b.blocks, g)
    ensures var (s1, end) := IfStart(s.cond, s.els.Some?, st);
            var final := CompileStmt(s, st).value;
            && Within(s1.b.blocks, g) && s1.c == st.c && ThenReady(s.thn, s1, end, final, g)
            && (match s.els
                case None => StartsAt(final, end)
                case Some(els) => ElseReady(els, st.c, end, CompileStmt(s.thn, s1).value, final, g))
  {
    var (s1, end) := IfStart(s.cond, s.els.Some?, st);
    var r := CompileStmt(s.thn, s1).value;
    IfStartSound(s.cond, s.els.Some?, st);
    IfStartStarts(s.cond, s.els.Some?, st);
    StructuredIsParsed(s.thn);
    StmtSound(s.thn, s1);
    IfStages(s.els, st, s1, r, end, g);
  }

  lemma {:induction false} IfStartStarts(cond: Expr, hasElse: bool, st: State)
    requires !IfStart(cond, hasElse, st).0.b.broken
    ensures StartsAt(IfStart(cond, hasElse, st).0, IfStart(cond, hasElse, st).0.b.cur)
  {}

  lemma {:induction false} IfSim(s: Stmt, st: State, g: seq<Block>, env: Environment, regs: Regs, h: History, fuel: nat)
    returns (k: nat, regs': Regs)
    requires s.If? && Structured(s) && Valid(st) && st.c.state == Empty && CompileStmt(s, st).Ok?
    requires Within(CompileStmt(s, st).value.b.blocks, g)
    ensures var (o, h') := Exec(s, env, h, fuel, Lowered);
            Reaches(g, env, Here(st.b, regs, h), k, fuel, o, regs', h', st.c, CompileStmt(s, st).value)
    decreases fuel, Size(s), 0
  {
    hide CompileStmt, Within;
    var (s1, end) := IfStart(s.cond, s.els.Some?, st);
    var final := CompileStmt(s, st).value;
    assert Within(s1.b.blocks, g) && s1.c == st.c by { IfSetup(s, st, g); }
    var j, regs1 := IfStartSim(s.cond, s.els.Some?, st, g, env, regs, h);
    var (x, h1) := Eval(s.cond, env, h);
    if x != 0 {
      assert ThenReady(s.thn, s1, end, final, g) by { IfSetup(s, st, g); }
      k, regs' := ThenSim(s.thn, s1, end, final, g, env, regs1, h1, fuel);
    } else {
      match s.els
      case Some(els) =>
        IfSetup(s, st, g);
        var r := CompileStmt(s.thn, s1).value;
        k, regs' := ElseSim(els, st.c, end, r, final, g, env, regs1, h1, fuel);
      case None =>
        assert StartsAt(final, end) by { IfSetup(s, st, g); }
        k, regs' := 0, regs1;
    }
    var (o, h2) := Exec(s, env, h, fuel, Lowered);
    var mid := At(if x != 0 then s1.b.cur else if s.els.Some? then end + 1 else end, 0, regs1, h1);
    ReachesLater(g, env, Here(st.b, regs, h), j, mid, k, fuel, o, regs', h2, st.c, st.c, final);
    k := j + k;
  }

  lemma {:induction false} ThenSim(thn: Stmt, s1: State, end: BlockId, final: State, g: seq<Block>,
                                   env: Environment, regs: Regs, h: History, fuel: nat)
    returns (k: nat, regs': Regs)
    requires ThenReady(thn, s1, end, final, g)
    ensures var (o, h') := Exec(thn, env, h, fuel, Lowered);
            Reaches(g, env, At(s1.b.cur, 0, regs, h), k, fuel, o, regs', h', s1.c, final)
    decreases fuel, Size(thn), 2
  {
    var (o, h') := Exec(thn, env, h, fuel, Lowered);
    k, regs' := StmtSim(thn, s1, g, env, regs, h, fuel);
    k := BranchEnds(CompileStmt(thn, s1).value, end, s1.c, final, g, env, Here(s1.b, regs, h), k, fuel, o, regs', h');
  }

  lemma {:induction false} ElseSim(els: Stmt, before: Control, end: BlockId, r: State, final: State, g: seq<Block>,
                                   env: Environment, regs: Regs, h: History, fuel: nat)
    returns (k: nat, regs': Regs)
    requires ElseReady(els, before, end, r, final, g)
    ensures var (o, h') := Exec(els, env, h, fuel, Lowered);
            Reaches(g, env, At(end + 1, 0, regs, h), k, fuel, o, regs', h', before, final)
    decreases fuel, Size(els), 2
  {
    var s2 := r.JumpToBlock(end).SwitchToBlock(end + 1);
    var (o, h') := Exec(els, env, h, fuel, Lowered);
    k, regs' := StmtSim(els, s2, g, env, regs, h, fuel);
    TargetsBalanced(before, s2.c);
    if o == Normal {
      k := BranchEnds(CompileStmt(els, s2).value, end, s2.c, final, g, env, Here(s2.b, regs, h), k, fuel, o, regs', h');
    }
  }

  // ---------- loops ----------

  lemma {:induction false} ExecSingle(s: Stmt, env: Environment, h: History, fuel: nat, r: Reading)
    requires Structured(s)
    ensures ExecAll([s], env, h, fuel, r) == Exec(s, env, h, fuel, r)
  {
    var (o, h1) := Exec(s, env, h, fuel, r);
    assert [s][1..] == [];
    assert ExecAll([], env, h1, fuel, r) == (Normal, h1);
  }

  lemma {:induction false} ExecAppend(ss: seq<Stmt>, t: Stmt, env: Environment, h: History, fuel: nat, r: Reading)
    requires StructuredAll(ss) && Structured(t)
    ensures StructuredAll(ss + [t])
    ensures var (o, h1) := ExecAll(ss, env, h, fuel, r);
            ExecAll(ss + [t], env, h, fuel, r) == if o == Normal then Exec(t, env, h1, fuel, r) else (o, h1)
    decreases |ss|
  {
    if ss == [] {
      assert [] + [t] == [t];
      ExecSingle(t, env, h, fuel, r);
    } else {
      assert (ss + [t])[1..] == ss[1..] + [t];
      ExecAppend(ss[1..], t, env, Exec(ss[0], env, h, fuel, r).1, fuel, r);
    }
  }

  /** The third expression of a `for` can be put at the end of the body. */
  lemma {:induction false} ExecWithPost(body: Stmt, post: Option<Expr>, env: Environment, h: History, fuel: nat, r: Reading)
    requires Structured(body)
    ensures Structured(WithPost(body, post))
    ensures var (o, h1) := Exec(body, env, h, fuel, r);
            Exec(WithPost(body, post), env, h, fuel, r) == if o == Normal then (o, EvalPost(post, env, h1)) else (o, h1)
  {
    if post.Some? {
      if body.Compound? {
        ExecAppend(body.stmts, ExprStmt(post.value), env, h, fuel, r);
      } else {
        ExecSingle(body, env, h, fuel, r);
        ExecAppend([body], ExprStmt(post.value), env, h, fuel, r);
        assert [body] + [ExprStmt(post.value)] == [body, ExprStmt(post.value)];
      }
    }
  }

  lemma {:induction false} LoopWithPost(test: Option<Expr>, body: Stmt, post: Option<Expr>, env: Environment,
                                        h: History, fuel: nat, fromTest: bool)
    requires Structured(body)
    ensures Structured(WithPost(body, post))
    ensures Loop(test, WithPost(body, post), None, env, h, fuel, fromTest, Lowered)
         == Loop(test, body, post, env, h, fuel, fromTest, Lowered)
    decreases fuel
  {
    ExecWithPost(body, post, env, h, fuel, Lowered);
    if fuel != 0 {
      var (c, h1) := if fromTest && test.Some? then Eval(test.value, env, h) else (1, h);
      if c != 0 {
        ExecWithPost(body, post, env, h1, fuel - 1, Lowered);
        var (o, h2) := Exec(body, env, h1, fuel - 1, Lowered);
        LoopWithPost(test, body, post, env, h2, fuel - 1, false);
        LoopWithPost(test, body, post, env, EvalPost(post, env, h2), fuel - 1, true);
      }
    }
  }

  lemma {:induction false} ForSim(s: Stmt, st: State, g: seq<Block>, env: Environment, regs: Regs, h: History, fuel: nat)
    returns (k: nat, regs': Regs)
    requires s.For? && Structured(s) && Valid(st) && st.c.state == Empty && CompileStmt(s, st).Ok?
    requires Within(CompileStmt(s, st).value.b.blocks, g)
    ensures var (o, h') := Exec(s, env, h, fuel, Lowered);
            Reaches(g, env, Here(st.b, regs, h), k, fuel, o, regs', h', st.c, CompileStmt(s, st).value)
    decreases fuel, Size(s), 0
  {
    var s1 := CompileStmt(s.init, st).value;
    var body := WithPost(s.body, s.post);
    var final := CompileStmt(s, st).value;
    SimpleIsStructured(s.init);
    SimpleEndsNormally(s.init, env, h, fuel, Lowered);
    var (_, h1) := Exec(s.init, env, h, fuel, Lowered);
    LoopWithPost(s.test, s.body, s.post, env, h1, fuel, true);
    assert Valid(s1) && s1.c == st.c && Within(s1.b.blocks, g) by {
      SimpleIsParsed(s.init);
      StmtSound(s.init, st);
      SimpleStaysOpen(s.init, st);
      StructuredIsParsed(body);
      WhileSound(s.test, body, s1);
      WithinEarlier(s1.b, final.b, g);
    }
    var j, regs1 := StmtSim(s.init, st, g, env, regs, h, fuel);
    k, regs' := WhileSim(s.test, body, s1, g, env, regs1, h1, fuel);
    var (o, h2) := Exec(s, env, h, fuel, Lowered);
    ReachesLater(g, env, Here(st.b, regs, h), j, Here(s1.b, regs1, h1), k, fuel, o, regs', h2, st.c, s1.c, final);
    k := j + k;
  }

  /** A `while` about to be lowered into `g`: `s1` at its header, `s2` at its
      body and `r` after the body. */
  ghost predicate WhileShape(test: Option<Expr>, body: Stmt, st: State, s1: State, s2: State, r: State, g: seq<Block>) {
    var h := |st.b.blocks|;
    && Structured(body) && s2 == LoopTest(test, h, s1) && CompileStmt(body, s2) == Ok(r)
    && Valid(s1) && StartsAt(s1, h) && Within(s2.b.blocks, g)
    && Valid(s2) && StartsAt(s2, h + 1) && Valid(r) && Within(r.b.blocks, g)
    && Within(r.JumpToBlock(h).b.blocks, g)
    && BreakTarget(s2.c) == Some(h + 2) && ContinueTarget(s2.c) == Some(h + 1)
  }

  lemma {:induction false} LoopTestWithin(test: Option<Expr>, h: BlockId, st: State, g: seq<Block>)
    requires Valid(st) && st.c.state == Empty && Within(LoopTest(test, h, st).b.blocks, g)
    ensures Within(st.b.blocks, g)
    ensures test.None? ==> Within(st.b.Terminate(Jump(Edge(h + 1, None))).blocks, g)
    ensures test.Some? ==>
              var (b, c) := CompileExpr(test.value, st.b);
              b.Open() && Within(b.blocks, g) &&
              Within(b.Terminate(Brif(c, Edge(h + 1, None), Edge(h + 2, None))).blocks, g)
  {
    match test
    case None => JumpSwitchWithin(st, h + 1, h + 1, g);
    case Some(e) =>
      ExprKeeps(e, st.b);
      var (b, c) := CompileExpr(e, st.b);
      var t := Brif(c, Edge(h + 1, None), Edge(h + 2, None));
      FinishWithin(b, t, h + 1);
      WithinTrans(b.blocks, b.Terminate(t).blocks, g);
      WithinEarlier(st.b, b, g);
  }

  /** The test at a loop's header takes control into the body or past the loop. */
  lemma {:induction false} LoopTestSim(test: Option<Expr>, h: BlockId, st: State, g: seq<Block>, env: Environment, regs: Regs, hist: History)
    returns (k: nat, regs': Regs)
    requires Valid(st) && st.c.state == Empty && Within(LoopTest(test, h, st).b.blocks, g)
    ensures var (x, h') := if test.Some? then Eval(test.value, env, hist) else (1, hist);
            k >= 1 && Run(g, env, Here(st.b, regs, hist), k) == At(if x != 0 then h + 1 else h + 2, 0, regs', h')
  {
    hide CompileStmt, CompileExpr;
    LoopTestWithin(test, h, st, g);
    match test
    case None =>
      JumpRuns(st.b, h + 1, g, env, regs, hist);
      k, regs' := 1, regs;
    case Some(e) =>
      ExprKeeps(e, st.b);
      var (b, c) := CompileExpr(e, st.b);
      var (x, h') := Eval(e, env, hist);
      var k0, regs0 := ExprSim(e, st.b, g, env, regs, hist);
      BrifRuns(b, c, h + 1, h + 2, g, env, regs0, h');
      Then(g, env, Here(st.b, regs, hist), k0, Here(b, regs0, h'), 1, At(if x != 0 then h + 1 else h + 2, 0, regs0, h'));
      k, regs' := k0 + 1, regs0;
  }

  lemma {:induction false} EnterLoopSim(st: State, g: seq<Block>, env: Environment, regs: Regs, hist: History)
    requires Valid(st) && st.c.state == Empty && Within(EnterLoop(st).b.blocks, g)
    ensures Run(g, env, Here(st.b, regs, hist), 1) == At(|st.b.blocks|, 0, regs, hist)
    ensures Valid(EnterLoop(st)) && StartsAt(EnterLoop(st), |st.b.blocks|)
  {
    var h := |st.b.blocks|;
    EnterLoopSound(st);
    var b := st.b.CreateBlock().CreateBlock().CreateBlock();
    FinishWithin(b, Jump(Edge(h, None)), h);
    JumpRuns(b, h, g, env, regs, hist);
    assert Here(b, regs, hist) == Here(st.b, regs, hist);
    var s1 := State(b.Terminate(Jump(Edge(h, None))), st.c.(loops := st.c.loops + [(h + 1, h + 2)], lastSawLoop := true));
    SwitchedStarts(s1, h);
  }

  lemma {:induction false} WhileStages(test: Option<Expr>, body: Stmt, st: State, r: State, g: seq<Block>)
    requires Structured(body) && Valid(st) && st.c.state == Empty
    requires CompileStmt(body, LoopTest(test, |st.b.blocks|, EnterLoop(st))) == Ok(r)
    requires Within(r.JumpToBlock(|st.b.blocks|).SwitchToBlock(|st.b.blocks| + 2).b.blocks, g)
    ensures var h := |st.b.blocks|; var s1 := EnterLoop(st);
            WhileShape(test, body, st, s1, LoopTest(test, h, s1), r, g)
    ensures var h := |st.b.blocks|; StartsAt(r.JumpToBlock(h).SwitchToBlock(h + 2), h + 2)
    ensures Within(EnterLoop(st).b.blocks, g)
  {
    hide CompileStmt, CompileExpr, LoopTest, EnterLoop;
    var h := |st.b.blocks|;
    WhileBodySound(test, body, st, r);
    SwitchedStarts(r.JumpToBlock(h), h + 2);
    LoopTestStarts(test, h, EnterLoop(st));
    WhileWithin(test, h, EnterLoop(st), r, g);
  }

  lemma {:induction false} WhileWithin(test: Option<Expr>, h: BlockId, s1: State, st: State, g: seq<Block>)
    requires Valid(s1) && s1.c.state == Empty && Keeps(LoopTest(test, h, s1).b, st.b)
    requires Within(st.JumpToBlock(h).SwitchToBlock(h + 2).b.blocks, g)
    ensures Within(s1.b.blocks, g) && Within(LoopTest(test, h, s1).b.blocks, g)
    ensures Within(st.b.blocks, g) && Within(st.JumpToBlock(h).b.blocks, g)
  {
    JumpSwitchWithin(st, h, h + 2, g);
    WithinEarlier(LoopTest(test, h, s1).b, st.b, g);
    LoopTestWithin(test, h, s1, g);
  }

  lemma {:induction false} WhileBodySound(test: Option<Expr>, body: Stmt, st: State, r: State)
    requires Structured(body) && Valid(st) && st.c.state == Empty
    requires CompileStmt(body, LoopTest(test, |st.b.blocks|, EnterLoop(st))) == Ok(r)
    ensures var h := |st.b.blocks|; var s1 := EnterLoop(st); var s2 := LoopTest(test, h, s1);
            && Valid(s1) && StartsAt(s1, h) && Valid(s2)
            && BreakTarget(s2.c) == Some(h + 2) && ContinueTarget(s2.c) == Some(h + 1)
            && Valid(r) && Keeps(s2.b, r.b) && Valid(r.JumpToBlock(h).SwitchToBlock(h + 2))
  {
    hide CompileStmt, CompileExpr, EnterLoop, LoopTest;
    var h := |st.b.blocks|;
    var s1 := EnterLoop(st);
    var s2 := LoopTest(test, h, s1);
    EnterLoopSound(st);
    EnterLoopStarts(st);
    LoopTestSound(test, st.b, s1);
    StructuredIsParsed(body);
    StmtSound(body, s2);
    JumpSwitchKeeps(st.b, s2.b, r, h, h + 2);
  }

  lemma {:induction false} EnterLoopStarts(st: State)
    requires !EnterLoop(st).b.broken
    ensures StartsAt(EnterLoop(st), |st.b.blocks|)
  {
    var h := |st.b.blocks|;
    var b := st.b.CreateBlock().CreateBlock().CreateBlock().Terminate(Jump(Edge(h, None)));
    SwitchedStarts(State(b, st.c.(loops := st.c.loops + [(h + 1, h + 2)], lastSawLoop := true)), h);
  }

  lemma {:induction false} LoopTestStarts(test: Option<Expr>, h: BlockId, st: State)
    requires Valid(LoopTest(test, h, st))
    ensures StartsAt(LoopTest(test, h, st), h + 1)
  {
    match test
    case None => SwitchedStarts(st.JumpToBlock(h + 1), h + 1);
    case Some(e) =>
      var (b, c) := CompileExpr(e, st.b);
      SwitchedStarts(st.(b := b.Terminate(Brif(c, Edge(h + 1, None), Edge(h + 2, None)))), h + 1);
  }

  lemma {:induction false} WhileSim(test: Option<Expr>, body: Stmt, st: State, g: seq<Block>, env: Environment,
                                    regs: Regs, hist: History, fuel: nat)
    returns (k: nat, regs': Regs)
    requires Structured(body) && Valid(st) && st.c.state == Empty && WhileStmt(test, body, st).Ok?
    requires Within(WhileStmt(test, body, st).value.b.blocks, g)
    ensures var (o, h') := Loop(test, body, None, env, hist, fuel, true, Lowered);
            Reaches(g, env, Here(st.b, regs, hist), k, fuel, o, regs', h', st.c, WhileStmt(test, body, st).value)
    decreases fuel, 0, 1
  {
    hide CompileStmt, CompileExpr, Run, LoopTest, EnterLoop;
    var h := |st.b.blocks|;
    var s1 := EnterLoop(st);
    var s2 := LoopTest(test, h, s1);
    WhileSetup(test, body, st, g, env, regs, hist);
    var (o, h') := Loop(test, body, None, env, hist, fuel, true, Lowered);
    k, regs' := LoopSim(test, body, st, s1, s2, CompileStmt(body, s2).value, g, env, regs, hist, fuel, true);
    k := LoopEnds(g, env, Here(st.b, regs, hist), At(h, 0, regs, hist), k, fuel, o, regs', h', st.c,
                  WhileStmt(test, body, st).value, h + 2);
  }

  lemma {:induction false} WhileSetup(test: Option<Expr>, body: Stmt, st: State, g: seq<Block>, env: Environment, regs: Regs, hist: History)
    requires Structured(body) && Valid(st) && st.c.state == Empty && WhileStmt(test, body, st).Ok?
    requires Within(WhileStmt(test, body, st).value.b.blocks, g)
    ensures var h := |st.b.blocks|; var s1 := EnterLoop(st); var s2 := LoopTest(test, h, s1);
            CompileStmt(body, s2).Ok? && WhileShape(test, body, st, s1, s2, CompileStmt(body, s2).value, g)
    ensures StartsAt(WhileStmt(test, body, st).value, |st.b.blocks| + 2)
    ensures Run(g, env, Here(st.b, regs, hist), 1) == At(|st.b.blocks|, 0, regs, hist)
  {
    hide CompileStmt, CompileExpr, Run, EnterLoop, LoopTest;
    WhileStages(test, body, st, CompileStmt(body, LoopTest(test, |st.b.blocks|, EnterLoop(st))).value, g);
    EnterLoopSim(st, g, env, regs, hist);
  }

  /** Where a loop is after `k` steps. */
  ghost predicate LoopReaches(g: seq<Block>, env: Environment, start: Config, k: nat, fuel: nat,
                              o: Outcome, regs: Regs, h: History, end: BlockId)
  {
    var c := Run(g, env, start, k);
    match o
    case Normal => c == At(end, 0, regs, h)
    case Returned(v) => c == Halted(v, h)
    case Running => k >= fuel && c.At? && c.h == h
    case _ => false
  }

  /** The loop statement around a loop: one step enters its header. */
  lemma {:induction false} LoopEnds(g: seq<Block>, env: Environment, start: Config, mid: Config, k: nat, fuel: nat, o: Outcome,
                 regs: Regs, h: History, before: Control, after: State, end: BlockId)
    returns (k': nat)
    requires Run(g, env, start, 1) == mid && LoopReaches(g, env, mid, k, fuel, o, regs, h, end)
    requires StartsAt(after, end)
    ensures Reaches(g, env, start, k', fuel, o, regs, h, before, after)
  {
    RunAdd(g, env, start, 1, k);
    k' := 1 + k;
  }

  lemma {:induction false} LoopReachesLater(g: seq<Block>, env: Environment, start: Config, j: nat, mid: Config, k: nat, fuel: nat,
                         o: Outcome, regs: Regs, h: History, end: BlockId)
    requires fuel >= 1 && j >= 1
    requires Run(g, env, start, j) == mid && LoopReaches(g, env, mid, k, fuel - 1, o, regs, h, end)
    ensures LoopReaches(g, env, start, j + k, fuel, o, regs, h, end)
  {
    RunAdd(g, env, start, j, k);
  }

  lemma {:induction false} LoopSim(test: Option<Expr>, body: Stmt, st: State, s1: State, s2: State, r: State,
                                   g: seq<Block>, env: Environment, regs: Regs, hist: History, fuel: nat, fromTest: bool)
    returns (k: nat, regs': Regs)
    requires WhileShape(test, body, st, s1, s2, r, g)
    ensures var (o, h') := Loop(test, body, None, env, hist, fuel, fromTest, Lowered); var h := |st.b.blocks|;
            LoopReaches(g, env, At(if fromTest then h else h + 1, 0, regs, hist), k, fuel, o, regs', h', h + 2)
    decreases fuel, 0, 0
  {
    if fuel == 0 {
      k, regs' := 0, regs;
    } else if fromTest {
      k, regs' := LoopHeadSim(test, body, st, s1, s2, r, g, env, regs, hist, fuel);
    } else {
      k, regs' := LoopBodySim(test, body, st, s1, s2, r, g, env, regs, hist, fuel);
    }
  }

  lemma {:induction false} LoopHeadSim(test: Option<Expr>, body: Stmt, st: State, s1: State, s2: State, r: State,
                                       g: seq<Block>, env: Environment, regs: Regs, hist: History, fuel: nat)
    returns (k: nat, regs': Regs)
    requires WhileShape(test, body, st, s1, s2, r, g) && fuel > 0
    ensures var (o, h') := Loop(test, body, None, env, hist, fuel, true, Lowered); var h := |st.b.blocks|;
            LoopReaches(g, env, At(h, 0, regs, hist), k, fuel, o, regs', h', h + 2)
    decreases fuel - 1, Size(body), 4
  {
    hide CompileStmt, CompileExpr, Exec, Eval, Run;
    var h := |st.b.blocks|;
    var (x, h1) := if test.Some? then Eval(test.value, env, hist) else (1, hist);
    k, regs' := LoopTestSim(test, h, s1, g, env, regs, hist);
    if x != 0 {
      var j := k;
      k, regs' := LoopBodySim(test, body, st, s1, s2, r, g, env, regs', h1, fuel);
      RunAdd(g, env, At(h, 0, regs, hist), j, k);
      k := j + k;
    }
  }

  lemma {:induction false} LoopBodySim(test: Option<Expr>, body: Stmt, st: State, s1: State, s2: State, r: State,
                                       g: seq<Block>, env: Environment, regs: Regs, hist: History, fuel: nat)
    returns (k: nat, regs': Regs)
    requires WhileShape(test, body, st, s1, s2, r, g) && fuel > 0
    ensures var (o, h') := Loop(test, body, None, env, hist, fuel, false, Lowered); var h := |st.b.blocks|;
            LoopReaches(g, env, At(h + 1, 0, regs, hist), k, fuel, o, regs', h', h + 2)
    decreases fuel - 1, Size(body), 3
  {
    hide CompileStmt, CompileExpr, Exec, Eval, Run;
    var h := |st.b.blocks|;
    var start := At(h + 1, 0, regs, hist);
    var j, regs1 := BodySim(body, s2, r, h, g, env, regs, hist, fuel - 1);
    var (o, h2) := Exec(body, env, hist, fuel - 1, Lowered);
    k, regs' := j, regs1;
    if o == Normal || o == Continued {
      k, regs' := NextTurnSim(test, body, st, s1, s2, r, g, env, start, j, regs1, h2, fuel, o == Normal);
    } else {
      TurnEnds(g, env, start, j, fuel, o, regs1, h2, h, h + 1, h + 2);
    }
  }

  lemma {:induction false} NextTurnSim(test: Option<Expr>, body: Stmt, st: State, s1: State, s2: State, r: State,
                                       g: seq<Block>, env: Environment, start: Config, j: nat, regs: Regs,
                                       hist: History, fuel: nat, fromTest: bool)
    returns (k: nat, regs': Regs)
    requires WhileShape(test, body, st, s1, s2, r, g) && fuel > 0 && j >= 1
    requires Run(g, env, start, j) == At(if fromTest then |st.b.blocks| else |st.b.blocks| + 1, 0, regs, hist)
    ensures var (o, h') := Loop(test, body, None, env, hist, fuel - 1, fromTest, Lowered);
            LoopReaches(g, env, start, k, fuel, o, regs', h', |st.b.blocks| + 2)
    decreases fuel - 1, 0, 1
  {
    var h := |st.b.blocks|;
    k, regs' := LoopSim(test, body, st, s1, s2, r, g, env, regs, hist, fuel - 1, fromTest);
    var (o, h') := Loop(test, body, None, env, hist, fuel - 1, fromTest, Lowered);
    LoopReachesLater(g, env, start, j, At(if fromTest then h else h + 1, 0, regs, hist), k, fuel, o, regs', h', h + 2);
    k := j + k;
  }

  /** Where one turn through a loop's body leads: a normal end goes on to `next`. */
  ghost predicate TurnReaches(g: seq<Block>, env: Environment, start: Config, k: nat, fuel: nat, o: Outcome,
                              regs: Regs, h: History, next: BlockId, again: BlockId, end: BlockId)
  {
    var c := Run(g, env, start, k);
    match o
    case Normal => k >= 1 && c == At(next, 0, regs, h)
    case Continued => k >= 1 && c == At(again, 0, regs, h)
    case Broke => c == At(end, 0, regs, h)
    case Returned(v) => c == Halted(v, h)
    case Running => k > fuel && c.At? && c.h == h
  }

  lemma {:induction false} TurnEnds(g: seq<Block>, env: Environment, start: Config, k: nat, fuel: nat, o: Outcome,
                 regs: Regs, h: History, next: BlockId, again: BlockId, end: BlockId)
    requires fuel > 0 && TurnReaches(g, env, start, k, fuel - 1, o, regs, h, next, again, end)
    requires o != Normal && o != Continued
    ensures LoopReaches(g, env, start, k, fuel, if o == Broke then Normal else o, regs, h, end)
  {}

  lemma {:induction false} BodySim(body: Stmt, s: State, r: State, next: BlockId, g: seq<Block>, env: Environment,
                                   regs: Regs, hist: History, fuel: nat)
    returns (k: nat, regs': Regs)
    requires Structured(body) && Valid(s) && StartsAt(s, s.b.cur) && CompileStmt(body, s) == Ok(r)
    requires Valid(r) && Within(r.b.blocks, g) && Within(r.JumpToBlock(next).b.blocks, g)
    requires BreakTarget(s.c).Some? && ContinueTarget(s.c).Some?
    ensures var (o, h') := Exec(body, env, hist, fuel, Lowered);
            TurnReaches(g, env, At(s.b.cur, 0, regs, hist), k, fuel, o, regs', h',
                        next, ContinueTarget(s.c).value, BreakTarget(s.c).value)
    decreases fuel, Size(body), 2
  {
    var start := At(s.b.cur, 0, regs, hist);
    k, regs' := StmtSim(body, s, g, env, regs, hist, fuel);
    var (o, h') := Exec(body, env, hist, fuel, Lowered);
    if o == Normal {
      JumpRuns(r.b, next, g, env, regs', h');
      Then(g, env, start, k, Here(r.b, regs', h'), 1, At(next, 0, regs', h'));
      k := k + 1;
    }
  }

  // ---------- do loops ----------

  /** A `do` loop lowered into `g`: `s1` at its header, `r` after the body, `s2`
      at the test. */
  ghost predicate DoShape(body: Stmt, cond: Expr, st: State, s1: State, r: State, s2: State, g: seq<Block>) {
    var h := |st.b.blocks|;
    && Structured(body) && CompileStmt(body, s1) == Ok(r) && s2 == r.JumpToBlock(h + 1).SwitchToBlock(h + 1)
    && Valid(s1) && StartsAt(s1, h) && Valid(r) && r.c.state == Empty && Within(r.b.blocks, g)
    && Within(r.JumpToBlock(h + 1).b.blocks, g) && Valid(s2) && StartsAt(s2, h + 1)
    && Within(DoTest(cond, h, s2).b.blocks, g)
    && BreakTarget(s1.c) == Some(h + 2) && ContinueTarget(s1.c) == Some(h + 1)
  }

  lemma {:induction false} DoTestWithin(cond: Expr, h: BlockId, st: State, g: seq<Block>)
    requires Valid(st) && st.c.state == Empty && Within(DoTest(cond, h, st).b.blocks, g)
    ensures Within(st.b.blocks, g)
    ensures var (b, c) := CompileExpr(cond, st.b);
            && b.Open() && Within(b.blocks, g)
            && Within(b.Terminate(Brif(c, Edge(h, None), Edge(h + 2, None))).blocks, g)
  {
    ExprKeeps(cond, st.b);
    var (b, c) := CompileExpr(cond, st.b);
    var t := Brif(c, Edge(h, None), Edge(h + 2, None));
    FinishWithin(b, t, h + 2);
    WithinTrans(b.blocks, b.Terminate(t).blocks, g);
    WithinEarlier(st.b, b, g);
  }

  lemma {:induction false} DoTestSim(cond: Expr, h: BlockId, st: State, g: seq<Block>, env: Environment, regs: Regs, hist: History)
    returns (k: nat, regs': Regs)
    requires Valid(st) && st.c.state == Empty && Within(DoTest(cond, h, st).b.blocks, g)
    ensures var (x, h') := Eval(cond, env, hist);
            k >= 1 && Run(g, env, Here(st.b, regs, hist), k) == At(if x != 0 then h else h + 2, 0, regs', h')
  {
    hide CompileExpr, Within, Keeps, Eval;
    DoTestWithin(cond, h, st, g);
    var (b, c) := CompileExpr(cond, st.b);
    var (x, h') := Eval(cond, env, hist);
    var k0, regs0 := ExprSim(cond, st.b, g, env, regs, hist);
    BrifRuns(b, c, h, h + 2, g, env, regs0, h');
    Then(g, env, Here(st.b, regs, hist), k0, Here(b, regs0, h'), 1, At(if x != 0 then h else h + 2, 0, regs0, h'));
    k, regs' := k0 + 1, regs0;
  }

  lemma {:induction false} DoStages(body: Stmt, cond: Expr, st: State, r: State, g: seq<Block>)
    requires Structured(body) && Valid(st) && st.c.state == Empty && CompileStmt(body, EnterLoop(st)) == Ok(r)
    requires r.c.state == Empty
    requires var h := |st.b.blocks|; Within(DoTest(cond, h, r.JumpToBlock(h + 1).SwitchToBlock(h + 1)).b.blocks, g)
    ensures var h := |st.b.blocks|; var s2 := r.JumpToBlock(h + 1).SwitchToBlock(h + 1);
            DoShape(body, cond, st, EnterLoop(st), r, s2, g) && StartsAt(DoTest(cond, h, s2), h + 2)
    ensures Within(EnterLoop(st).b.blocks, g)
  {
    hide CompileStmt, CompileExpr;
    var h := |st.b.blocks|;
    DoBodySound(body, cond, st, r);
    SwitchedStarts(r.JumpToBlock(h + 1), h + 1);
    DoTestStarts(cond, h, r.JumpToBlock(h + 1).SwitchToBlock(h + 1));
    DoWithin(cond, h, EnterLoop(st).b, r, g);
  }

  lemma {:induction false} DoWithin(cond: Expr, h: BlockId, mid: Builder, st: State, g: seq<Block>)
    requires Keeps(mid, st.b) && Valid(st.JumpToBlock(h + 1).SwitchToBlock(h + 1))
    requires Within(DoTest(cond, h, st.JumpToBlock(h + 1).SwitchToBlock(h + 1)).b.blocks, g)
    ensures Within(mid.blocks, g) && Within(st.b.blocks, g) && Within(st.JumpToBlock(h + 1).b.blocks, g)
  {
    DoTestWithin(cond, h, st.JumpToBlock(h + 1).SwitchToBlock(h + 1), g);
    JumpSwitchWithin(st, h + 1, h + 1, g);
    WithinEarlier(mid, st.b, g);
  }

  lemma {:induction false} DoBodySound(body: Stmt, cond: Expr, st: State, r: State)
    requires Structured(body) && Valid(st) && st.c.state == Empty && CompileStmt(body, EnterLoop(st)) == Ok(r)
    ensures var h := |st.b.blocks|; var s1 := EnterLoop(st);
            && Valid(s1) && StartsAt(s1, h)
            && BreakTarget(s1.c) == Some(h + 2) && ContinueTarget(s1.c) == Some(h + 1)
            && var s2 := r.JumpToBlock(h + 1).SwitchToBlock(h + 1);
               Valid(r) && Keeps(s1.b, r.b) && Valid(s2) && Valid(DoTest(cond, h, s2))
  {
    hide CompileStmt, CompileExpr, EnterLoop, DoTest;
    var h := |st.b.blocks|;
    var s1 := EnterLoop(st);
    EnterLoopSound(st);
    EnterLoopStarts(st);
    StructuredIsParsed(body);
    StmtSound(body, s1);
    JumpSwitchKeeps(st.b, s1.b, r, h + 1, h + 1);
    DoTestSound(cond, st.b, s1.b, r, h);
  }

  lemma {:induction false} DoTestStarts(cond: Expr, h: BlockId, st: State)
    requires !DoTest(cond, h, st).b.broken
    ensures StartsAt(DoTest(cond, h, st), h + 2)
  {
    var (b, c) := CompileExpr(cond, st.b);
    SwitchedStarts(st.(b := b.Terminate(Brif(c, Edge(h, None), Edge(h + 2, None)))), h + 2);
  }

  lemma {:induction false} DoSim(body: Stmt, cond: Expr, st: State, g: seq<Block>, env: Environment,
                                 regs: Regs, hist: History, fuel: nat)
    returns (k: nat, regs': Regs)
    requires Structured(body) && Valid(st) && st.c.state == Empty && DoLoop(body, cond, st).Ok?
    requires Within(DoLoop(body, cond, st).value.b.blocks, g)
    ensures var (o, h') := Repeat(body, cond, env, hist, fuel, Lowered);
            Reaches(g, env, Here(st.b, regs, hist), k, fuel, o, regs', h', st.c, DoLoop(body, cond, st).value)
    decreases fuel, 0, 1
  {
    hide CompileStmt, CompileExpr, EnterLoop, DoTest, Within, Run;
    var h := |st.b.blocks|;
    var s1 := EnterLoop(st);
    DoSetup(body, cond, st, g, env, regs, hist);
    var r := CompileStmt(body, s1).value;
    var (o, h') := Repeat(body, cond, env, hist, fuel, Lowered);
    k, regs' := RepeatSim(body, cond, st, s1, r, r.JumpToBlock(h + 1).SwitchToBlock(h + 1), g, env, regs, hist, fuel);
    k := LoopEnds(g, env, Here(st.b, regs, hist), At(h, 0, regs, hist), k, fuel, o, regs', h', st.c,
                  DoLoop(body, cond, st).value, h + 2);
  }

  lemma {:induction false} DoSetup(body: Stmt, cond: Expr, st: State, g: seq<Block>, env: Environment, regs: Regs, hist: History)
    requires Structured(body) && Valid(st) && st.c.state == Empty && DoLoop(body, cond, st).Ok?
    requires Within(DoLoop(body, cond, st).value.b.blocks, g)
    ensures var h := |st.b.blocks|; var s1 := EnterLoop(st);
            && CompileStmt(body, s1).Ok?
            && var r := CompileStmt(body, s1).value;
               DoShape(body, cond, st, s1, r, r.JumpToBlock(h + 1).SwitchToBlock(h + 1), g)
    ensures StartsAt(DoLoop(body, cond, st).value, |st.b.blocks| + 2)
    ensures Run(g, env, Here(st.b, regs, hist), 1) == At(|st.b.blocks|, 0, regs, hist)
  {
    hide CompileStmt, CompileExpr;
    DoStages(body, cond, st, CompileStmt(body, EnterLoop(st)).value, g);
    EnterLoopSim(st, g, env, regs, hist);
  }

  lemma {:induction false} RepeatSim(body: Stmt, cond: Expr, st: State, s1: State, r: State, s2: State,
                                     g: seq<Block>, env: Environment, regs: Regs, hist: History, fuel: nat)
    returns (k: nat, regs': Regs)
    requires DoShape(body, cond, st, s1, r, s2, g)
    ensures var (o, h') := Repeat(body, cond, env, hist, fuel, Lowered); var h := |st.b.blocks|;
            LoopReaches(g, env, At(h, 0, regs, hist), k, fuel, o, regs', h', h + 2)
    decreases fuel, 0, 0
  {
    if fuel == 0 {
      k, regs' := 0, regs;
    } else {
      k, regs' := RepeatTurnSim(body, cond, st, s1, r, s2, g, env, regs, hist, fuel);
    }
  }

  lemma {:induction false} RepeatTurnSim(body: Stmt, cond: Expr, st: State, s1: State, r: State, s2: State,
                                         g: seq<Block>, env: Environment, regs: Regs, hist: History, fuel: nat)
    returns (k: nat, regs': Regs)
    requires DoShape(body, cond, st, s1, r, s2, g) && fuel > 0
    ensures var (o, h') := Repeat(body, cond, env, hist, fuel, Lowered); var h := |st.b.blocks|;
            LoopReaches(g, env, At(h, 0, regs, hist), k, fuel, o, regs', h', h + 2)
    decreases fuel - 1, Size(body), 4
  {
    hide CompileStmt, CompileExpr, Exec, Run, Within, Valid, StartsAt, DoTest, Structured, Eval;
    var h := |st.b.blocks|;
    var start := At(h, 0, regs, hist);
    var (o, h1) := Exec(body, env, hist, fuel - 1, Lowered);
    k, regs' := DoBodySim(body, cond, st, s1, r, s2, g, env, regs, hist, fuel);
    if o == Normal || o == Continued {
      assert Run(g, env, start, k) == At(h + 1, 0, regs', h1);
      k, regs' := TestAfterSim(body, cond, st, s1, r, s2, g, env, start, k, regs', h1, fuel);
    } else {
      TurnEnds(g, env, start, k, fuel, o, regs', h1, h + 1, h + 1, h + 2);
    }
  }

  lemma {:induction false} DoBodySim(body: Stmt, cond: Expr, st: State, s1: State, r: State, s2: State,
                                     g: seq<Block>, env: Environment, regs: Regs, hist: History, fuel: nat)
    returns (k: nat, regs': Regs)
    requires DoShape(body, cond, st, s1, r, s2, g) && fuel > 0
    ensures var (o, h') := Exec(body, env, hist, fuel - 1, Lowered); var h := |st.b.blocks|;
            TurnReaches(g, env, At(h, 0, regs, hist), k, fuel - 1, o, regs', h', h + 1, h + 1, h + 2)
    decreases fuel - 1, Size(body), 3
  {
    hide CompileStmt, CompileExpr;
    k, regs' := BodySim(body, s1, r, |st.b.blocks| + 1, g, env, regs, hist, fuel - 1);
  }

  lemma {:induction false} TestAfterSim(body: Stmt, cond: Expr, st: State, s1: State, r: State, s2: State,
                                        g: seq<Block>, env: Environment, start: Config, j: nat, regs: Regs,
                                        hist: History, fuel: nat)
    returns (k: nat, regs': Regs)
    requires DoShape(body, cond, st, s1, r, s2, g) && fuel > 0
    requires Run(g, env, start, j) == At(|st.b.blocks| + 1, 0, regs, hist)
    ensures var (x, h1) := Eval(cond, env, hist);
            var (o, h') := if x == 0 then (Normal, h1) else Repeat(body, cond, env, h1, fuel - 1, Lowered);
            LoopReaches(g, env, start, k, fuel, o, regs', h', |st.b.blocks| + 2)
    decreases fuel - 1, 0, 3
  {
    k, regs' := RepeatTestSim(body, cond, st, s1, r, s2, g, env, regs, hist, fuel);
    RunAdd(g, env, start, j, k);
    k := j + k;
  }

  lemma {:induction false} RepeatTestSim(body: Stmt, cond: Expr, st: State, s1: State, r: State, s2: State,
                                         g: seq<Block>, env: Environment, regs: Regs, hist: History, fuel: nat)
    returns (k: nat, regs': Regs)
    requires DoShape(body, cond, st, s1, r, s2, g) && fuel > 0
    ensures var (x, h1) := Eval(cond, env, hist); var h := |st.b.blocks|;
            var (o, h') := if x == 0 then (Normal, h1) else Repeat(body, cond, env, h1, fuel - 1, Lowered);
            LoopReaches(g, env, At(h + 1, 0, regs, hist), k, fuel, o, regs', h', h + 2)
    decreases fuel - 1, 0, 2
  {
    var h := |st.b.blocks|;
    var (x, h1) := Eval(cond, env, hist);
    k, regs' := DoTestSim(cond, h, s2, g, env, regs, hist);
    if x != 0 {
      var j, regs1 := k, regs';
      k, regs' := RepeatSim(body, cond, st, s1, r, s2, g, env, regs1, h1, fuel - 1);
      var (o, h') := Repeat(body, cond, env, h1, fuel - 1, Lowered);
      LoopReachesLater(g, env, At(h + 1, 0, regs, hist), j, At(h, 0, regs1, h1), k, fuel, o, regs', h', h + 2);
      k := j + k;
    }
  }

  // ---------- switches ----------

  /** The test of a switch takes control to the dispatch block. */
  lemma {:induction false} SwitchStartSim(cond: Expr, st: State, g: seq<Block>, env: Environment, regs: Regs, h: History)
    returns (k: nat, regs': Regs)
    requires Valid(st) && st.c.state == Empty && Within(SwitchStart(cond, st).0.b.blocks, g)
    ensures var (s1, v, d) := SwitchStart(cond, st); var (x, h') := Eval(cond, env, h);
            Run(g, env, Here(st.b, regs, h), k) == At(d, 0, regs', h') && Get(regs', v) == x
  {
    hide CompileExpr;
    ExprKeeps(cond, st.b);
    var (b, v) := CompileExpr(cond, st.b);
    var d := |b.blocks|;
    var (x, h') := Eval(cond, env, h);
    EnterSwitchWithin(st.(b := b), g);
    var k0, regs0 := ExprSim(cond, st.b, g, env, regs, h);
    JumpRuns(b.CreateBlock(), d, g, env, regs0, h');
    assert Here(b.CreateBlock(), regs0, h') == Here(b, regs0, h');
    Then(g, env, Here(st.b, regs, h), k0, Here(b, regs0, h'), 1, At(d, 0, regs0, h'));
    k, regs' := k0 + 1, regs0;
  }

  lemma {:induction false} EnterSwitchWithin(st: State, g: seq<Block>)
    requires Valid(st) && st.c.state == Empty && Within(EnterSwitch(st).b.blocks, g)
    ensures Within(st.b.blocks, g)
    ensures Within(st.b.CreateBlock().Terminate(Jump(Edge(|st.b.blocks|, None))).blocks, g)
  {
    var d := |st.b.blocks|;
    var b1 := st.b.CreateBlock().Terminate(Jump(Edge(d, None)));
    assert Within(st.b.blocks, b1.blocks);
    assert Within(b1.blocks, EnterSwitch(st).b.blocks);
    WithinTrans(b1.blocks, EnterSwitch(st).b.blocks, g);
    WithinTrans(st.b.blocks, b1.blocks, g);
  }

  lemma {:induction false} LeaveSwitchWithin(v: Reg, dispatch: BlockId, sawLoop: bool, st: State, g: seq<Block>)
    requires st.c.switches != [] && Within(LeaveSwitch(v, dispatch, sawLoop, st).b.blocks, g)
    ensures Within(st.b.blocks, g) && Within(st.JumpToBlock(Top(st.c).end).b.blocks, g)
    ensures var s1 := st.JumpToBlock(Top(st.c).end).SwitchToBlock(dispatch);
            Within(s1.b.Terminate(SwitchTerm(v, Top(st.c))).blocks, g)
  {
    var sw := Top(st.c);
    var s0 := st.(c := st.c.(switches := st.c.switches[..|st.c.switches| - 1], lastSawLoop := sawLoop));
    var s1 := s0.JumpToBlock(sw.end).SwitchToBlock(dispatch);
    FinishWithin(s1.b, SwitchTerm(v, sw), sw.end);
    WithinTrans(s1.b.blocks, s1.b.Terminate(SwitchTerm(v, sw)).blocks, g);
    JumpSwitchWithin(s0, sw.end, dispatch, g);
  }

  function SwitchTerm(v: Reg, sw: SwitchContext): Term {
    Switch(v, sw.entries, if sw.default.Some? then sw.default.value else sw.end)
  }

  /** A switch lowered into `g`: `s1` at the start of its body, `r` at the end of it. */
  ghost predicate SwitchShape(body: Stmt, v: Reg, d: BlockId, s1: State, r: State, g: seq<Block>) {
    && body.Compound? && Sections(body.stmts) && CompileAll(body.stmts, s1) == Ok(r)
    && Valid(s1) && s1.c.switches != [] && Top(s1.c).entries == map[] && Top(s1.c).default == None
    && BreakTarget(s1.c) == Some(d + 2) && ContinueTarget(s1.c) == None
    && Valid(r) && Within(r.b.blocks, g) && Within(r.JumpToBlock(d + 2).b.blocks, g)
    && r.c.switches != [] && Top(r.c).end == d + 2
    && d < |g| && g[d].instrs == [] && g[d].term == Some(SwitchTerm(v, Top(r.c)))
  }

  lemma {:induction false} CompoundIsAll(ss: seq<Stmt>, st: State)
    requires st.c.state == Empty
    ensures CompileStmt(Compound(ss), st) == CompileAll(ss, st)
  {}

  lemma {:induction false} SwitchSetup(cond: Expr, body: Stmt, st: State, g: seq<Block>)
    requires body.Compound? && Sections(body.stmts) && Valid(st) && st.c.state == Empty
    requires CompileSwitch(cond, body, st).Ok? && Within(CompileSwitch(cond, body, st).value.b.blocks, g)
    ensures var (s1, v, d) := SwitchStart(cond, st);
            && Within(s1.b.blocks, g) && CompileStmt(body, s1).Ok?
            && SwitchShape(body, v, d, s1, CompileStmt(body, s1).value, g)
    ensures StartsAt(CompileSwitch(cond, body, st).value, SwitchStart(cond, st).2 + 2)
  {
    hide CompileStmt, CompileExpr, SwitchStart, Keeps, Within, LeaveSwitch, BreakTarget, ContinueTarget, KindOf, StartsAt;
    var (s1, v, d) := SwitchStart(cond, st);
    var r := CompileStmt(body, s1).value;
    SwitchBodyStarts(cond, st);
    SectionsParsed(body.stmts);
    SwitchBodyEnds(cond, body, st, g);
    CompoundIsAll(body.stmts, s1);
    WithinEarlier(s1.b, r.b, g);
  }

  lemma {:induction false} SwitchBodyStarts(cond: Expr, st: State)
    requires Valid(st) && st.c.state == Empty
    ensures var (s1, v, d) := SwitchStart(cond, st);
            && Valid(s1) && s1.c.state == Empty && KindOf(s1) == Fresh && s1.c.switches != []
            && Top(s1.c).entries == map[] && Top(s1.c).default == None
            && BreakTarget(s1.c) == Some(d + 2) && ContinueTarget(s1.c) == None
  {
    hide CompileExpr, EnterSwitch, Keeps;
    SwitchStartSound(cond, st);
    ExprKeeps(cond, st.b);
    EnterSwitchBlank(st.(b := CompileExpr(cond, st.b).0));
  }

  lemma {:induction false} SwitchBodyEnds(cond: Expr, body: Stmt, st: State, g: seq<Block>)
    requires Parsed(body) && Valid(st) && st.c.state == Empty
    requires CompileSwitch(cond, body, st).Ok? && Within(CompileSwitch(cond, body, st).value.b.blocks, g)
    ensures var (s1, v, d) := SwitchStart(cond, st); var r := CompileStmt(body, s1);
            && r.Ok? && Valid(r.value) && Keeps(s1.b, r.value.b)
            && Within(r.value.b.blocks, g) && Within(r.value.JumpToBlock(d + 2).b.blocks, g)
            && r.value.c.switches != [] && Top(r.value.c).end == d + 2
            && d < |g| && g[d].instrs == [] && g[d].term == Some(SwitchTerm(v, Top(r.value.c)))
            && StartsAt(CompileSwitch(cond, body, st).value, d + 2)
  {
    hide CompileStmt, CompileExpr, Keeps, Within, SwitchTerm, EnterSwitch, LeaveSwitch, StartsAt;
    var (s1, v, d) := SwitchStart(cond, st);
    var r := CompileStmt(body, s1).value;
    SwitchStartSound(cond, st);
    StmtSound(body, s1);
    SwitchSound(cond, body, st);
    SwitchPopped(st.c, d + 2, r.c);
    LeaveSwitchWithin(v, d, st.c.lastSawLoop, r, g);
    DispatchFilled(v, d, st.c.lastSawLoop, r, g);
    LeaveSwitchStarts(v, d, st.c.lastSawLoop, r);
  }

  lemma {:induction false} LeaveSwitchStarts(v: Reg, d: BlockId, sawLoop: bool, st: State)
    requires st.c.switches != [] && !LeaveSwitch(v, d, sawLoop, st).b.broken
    ensures StartsAt(LeaveSwitch(v, d, sawLoop, st), Top(st.c).end)
  {
    var sw := Top(st.c);
    var s0 := st.(c := st.c.(switches := st.c.switches[..|st.c.switches| - 1], lastSawLoop := sawLoop));
    var s1 := s0.JumpToBlock(sw.end).SwitchToBlock(d);
    SwitchedStarts(s1.(b := s1.b.Terminate(SwitchTerm(v, sw))), sw.end);
  }

  /** The dispatch block holds the choice and nothing else. */
  lemma {:induction false} DispatchFilled(v: Reg, d: BlockId, sawLoop: bool, st: State, g: seq<Block>)
    requires st.c.switches != [] && !LeaveSwitch(v, d, sawLoop, st).b.broken
    requires Within(LeaveSwitch(v, d, sawLoop, st).b.blocks, g)
    ensures d < |g| && g[d].instrs == [] && g[d].term == Some(SwitchTerm(v, Top(st.c)))
  {
    LeaveSwitchWithin(v, d, sawLoop, st, g);
    var b := st.JumpToBlock(Top(st.c).end).SwitchToBlock(d).b.Terminate(SwitchTerm(v, Top(st.c)));
    assert Grew(b.blocks[d], g[d]);
  }

  lemma {:induction false} DispatchRuns(v: Reg, d: BlockId, sw: SwitchContext, g: seq<Block>, env: Environment, regs: Regs, h: History)
    requires d < |g| && g[d].instrs == [] && g[d].term == Some(SwitchTerm(v, sw))
    ensures var x := Get(regs, v);
            var entry := if EntryOf(sw, Some(x)).Some? then EntryOf(sw, Some(x)) else EntryOf(sw, None);
            Run(g, env, At(d, 0, regs, h), 1) == At(if entry.Some? then entry.value else sw.end, 0, regs, h)
  {
    assert Run(g, env, At(d, 0, regs, h), 1) == Run(g, env, Ir.Step(g, env, At(d, 0, regs, h)), 0);
  }

  lemma {:induction false} SectionsSim(ss: seq<Stmt>, st: State, g: seq<Block>, env: Environment, regs: Regs, h: History, fuel: nat)
    returns (k: nat, regs': Regs)
    requires Sections(ss) && Valid(st) && st.c.state == Empty && st.c.switches != [] && CompileAll(ss, st).Ok?
    requires Within(CompileAll(ss, st).value.b.blocks, g)
    ensures var (o, h') := ExecSections(ss, env, h, fuel, Lowered);
            Reaches(g, env, Here(st.b, regs, h), k, fuel, o, regs', h', st.c, CompileAll(ss, st).value)
    decreases fuel, SizeAll(ss), 1
  {
    hide CompileStmt, Within, Keeps, ExecSections;
    if ss == [] {
      k, regs' := 0, regs;
      NoSections(ss, env, h, fuel);
    } else {
      SectionLowered(ss[0], st, None);
      LabelsSound(ss[0], st);
      var t := EnterLabels(ss[0], st).value;
      k, regs' := FromLabels(ss, t, CompileStmt(ss[0], st).value, g, env, regs, h, fuel);
      TargetsBalanced(st.c, t.c);
    }
  }

  lemma {:induction false} NoSections(ss: seq<Stmt>, env: Environment, h: History, fuel: nat)
    requires ss == []
    ensures ExecSections(ss, env, h, fuel, Lowered) == (Normal, h)
  {}

  /** From behind the labels of the first statement. */
  lemma {:induction false} FromLabels(ss: seq<Stmt>, t: State, s1: State, g: seq<Block>, env: Environment,
                                      regs: Regs, h: History, fuel: nat)
    returns (k: nat, regs': Regs)
    requires Sections(ss) && ss != [] && Valid(t) && t.c.state == Empty && t.c.switches != []
    requires Structured(Unlabelled(ss[0])) && CompileStmt(Unlabelled(ss[0]), t) == Ok(s1) && CompileAll(ss[1..], s1).Ok?
    requires Sound(t, s1) && s1.c.switches != []
    requires Within(CompileAll(ss[1..], s1).value.b.blocks, g)
    ensures var (o, h') := ExecSections(ss, env, h, fuel, Lowered);
            Reaches(g, env, Here(t.b, regs, h), k, fuel, o, regs', h', t.c, CompileAll(ss[1..], s1).value)
    decreases fuel, SizeAll(ss), 0, 0
  {
    hide CompileStmt, Keeps, Within;
    var s, r := Unlabelled(ss[0]), CompileAll(ss[1..], s1).value;
    assert Within(s1.b.blocks, g) by {
      SectionsParsed(ss[1..]);
      AllSound(ss[1..], s1);
      WithinEarlier(s1.b, r.b, g);
    }
    var (o, h1) := Exec(s, env, h, fuel, Lowered);
    k, regs' := StmtSim(s, t, g, env, regs, h, fuel);
    if o == Normal {
      var j, regs1 := k, regs';
      k, regs' := SectionsSim(ss[1..], s1, g, env, regs1, h1, fuel);
      var (o2, h2) := ExecSections(ss[1..], env, h1, fuel, Lowered);
      TargetsBalanced(t.c, s1.c);
      ReachesLater(g, env, Here(t.b, regs, h), j, Here(s1.b, regs1, h1), k, fuel, o2, regs', h2, t.c, s1.c, r);
      k := j + k;
    }
  }

  lemma {:induction false} SectionsParsed(ss: seq<Stmt>)
    requires Sections(ss)
    ensures ParsedAll(ss)
  {
    forall i | 0 <= i < |ss| ensures Parsed(ss[i]) { SectionIsParsed(ss[i]); }
  }

  /** The registers and the history after some instructions. */
  function Replay(instrs: seq<Instr>, env: Environment, regs: Regs, h: History): (Regs, History)
    decreases |instrs|
  {
    if instrs == [] then (regs, h)
    else
      var (regs1, h1) := Replay(instrs[..|instrs| - 1], env, regs, h);
      match instrs[|instrs| - 1]
      case Const(dst, n) => (regs1[dst := n], h1)
      case Do(dst, op, args) =>
        var ev := env.Perform(h1, op, GetAll(regs1, args));
        (regs1[dst := ev.result], h1 + [ev])
      case IsNonZero(dst, src) => (regs1[dst := if Get(regs1, src) != 0 then 1 else 0], h1)
  }

  lemma {:induction false} ReplayRuns(instrs: seq<Instr>, b: BlockId, g: seq<Block>, env: Environment, regs: Regs, h: History)
    requires b < |g| && instrs <= g[b].instrs
    ensures var (regs1, h1) := Replay(instrs, env, regs, h);
            Run(g, env, At(b, 0, regs, h), |instrs|) == At(b, |instrs|, regs1, h1)
    decreases |instrs|
  {
    if instrs != [] {
      var n := |instrs| - 1;
      ReplayRuns(instrs[..n], b, g, env, regs, h);
      RunAdd(g, env, At(b, 0, regs, h), n, 1);
      var mid := Run(g, env, At(b, 0, regs, h), n);
      assert g[b].instrs[n] == instrs[n];
      assert Run(g, env, mid, 1) == Run(g, env, Ir.Step(g, env, mid), 0);
    }
  }

  /** From the block a label is put at: what is in front of the label in that block,
      then the statements from the label on. */
  lemma {:induction false} SelectSim(ss: seq<Stmt>, key: Option<int>, st: State, g: seq<Block>, env: Environment,
                                     regs: Regs, h: History, fuel: nat)
    returns (k: nat, regs': Regs)
    requires Sections(ss) && Valid(st) && st.c.switches != [] && CompileAll(ss, st).Ok?
    requires Find(ss, key) < |ss| && EntryOf(Top(st.c), key).None?
    requires Within(CompileAll(ss, st).value.b.blocks, g)
    ensures var r := CompileAll(ss, st).value; var h1 := Replay(InFront(ss, key, st), env, regs, h).1;
            var (o, h') := ExecSections(ss[Find(ss, key)..], env, h1, fuel, Lowered);
            && r.c.switches != [] && EntryOf(Top(r.c), key).Some?
            && Reaches(g, env, At(EntryOf(Top(r.c), key).value, 0, regs, h), k, fuel, o, regs', h', st.c, r)
    decreases fuel, SizeAll(ss), 1
  {
    hide CompileStmt, Within, Keeps, ExecSections, Replay, Run, EnterLabels, EntryOf, Balanced, Structured;
    var s1, r := CompileStmt(ss[0], st).value, CompileAll(ss, st).value;
    SectionLowered(ss[0], st, key);
    var t := EnterLabels(ss[0], st).value;
    if HasLabel(ss[0], key) {
      EntryStays(ss[1..], s1, key);
      k, regs' := FromEntry(ss, st, t, s1, g, env, regs, h, fuel);
      assert ss[0..] == ss;
    } else {
      k, regs' := SelectSim(ss[1..], key, s1, g, env, regs, h, fuel);
      TargetsBalanced(st.c, s1.c);
      assert ss[Find(ss, key)..] == ss[1..][Find(ss[1..], key)..];
    }
  }

  lemma {:induction false} FromEntry(ss: seq<Stmt>, st: State, t: State, s1: State, g: seq<Block>, env: Environment,
                                     regs: Regs, h: History, fuel: nat)
    returns (k: nat, regs': Regs)
    requires Sections(ss) && ss != [] && Labelled(ss[0]) && Valid(st) && EnterLabels(ss[0], st) == Ok(t)
    requires Sound(st, t) && Valid(t) && t.c.switches != []
    requires Structured(Unlabelled(ss[0])) && CompileStmt(Unlabelled(ss[0]), t) == Ok(s1) && CompileAll(ss[1..], s1).Ok?
    requires Sound(t, s1) && s1.c.switches != []
    requires Within(CompileAll(ss[1..], s1).value.b.blocks, g)
    ensures var h1 := Replay(t.b.blocks[t.b.cur].instrs, env, regs, h).1;
            var (o, h') := ExecSections(ss, env, h1, fuel, Lowered);
            Reaches(g, env, At(t.b.cur, 0, regs, h), k, fuel, o, regs', h', st.c, CompileAll(ss[1..], s1).value)
    decreases fuel, SizeAll(ss), 0, 1
  {
    hide CompileStmt, Keeps, ExecSections, Replay;
    var r := CompileAll(ss[1..], s1).value;
    LabelsKind(ss[0], st);
    assert Within(t.b.blocks, g) by {
      SectionsParsed(ss[1..]);
      AllSound(ss[1..], s1);
      WithinEarlier(s1.b, r.b, g);
      WithinEarlier(t.b, s1.b, g);
    }
    var instrs := t.b.blocks[t.b.cur].instrs;
    assert Grew(t.b.blocks[t.b.cur], g[t.b.cur]);
    var (regs1, h1) := Replay(instrs, env, regs, h);
    ReplayRuns(instrs, t.b.cur, g, env, regs, h);
    k, regs' := FromLabels(ss, t, s1, g, env, regs1, h1, fuel);
    TargetsBalanced(st.c, t.c);
    var (o, h2) := ExecSections(ss, env, h1, fuel, Lowered);
    ReachesLater(g, env, At(t.b.cur, 0, regs, h), |instrs|, Here(t.b, regs1, h1), k, fuel, o, regs', h2, st.c, t.c, r);
    k := |instrs| + k;
  }

  lemma {:induction false} EntryStays(ss: seq<Stmt>, st: State, key: Option<int>)
    requires Sections(ss) && Valid(st) && st.c.switches != [] && CompileAll(ss, st).Ok? && EntryOf(Top(st.c), key).Some?
    ensures var r := CompileAll(ss, st).value;
            r.c.switches != [] && EntryOf(Top(r.c), key) == EntryOf(Top(st.c), key)
  {
    SectionsParsed(ss);
    AllSound(ss, st);
  }

  /** How a switch ends, by how the statements in its body do. */
  lemma {:induction false} SwitchEnds(g: seq<Block>, env: Environment, start: Config, mid: Config, j: nat, k: nat, fuel: nat,
                                      o: Outcome, regs: Regs, h: History, inner: Control, r: State, before: Control,
                                      after: State, end: BlockId)
    returns (k': nat)
    requires Run(g, env, start, j) == mid && Reaches(g, env, mid, k, fuel, o, regs, h, inner, r)
    requires BreakTarget(inner) == Some(end) && ContinueTarget(inner) == None && StartsAt(after, end)
    requires Valid(r) && Within(r.JumpToBlock(end).b.blocks, g)
    ensures Reaches(g, env, start, k', fuel, AfterSwitch((o, h)).0, regs, h, before, after)
  {
    hide Within;
    RunAdd(g, env, start, j, k);
    k' := j + k;
    if o == Normal {
      JumpRuns(r.b, end, g, env, regs, h);
      RunAdd(g, env, start, k', 1);
      k' := k' + 1;
    }
  }

  lemma {:induction false} SwitchSim(cond: Expr, body: Stmt, st: State, g: seq<Block>, env: Environment, regs: Regs, h: History, fuel: nat)
    returns (k: nat, regs': Regs)
    requires Structured(SwitchStmt(cond, body)) && Valid(st) && st.c.state == Empty && CompileSwitch(cond, body, st).Ok?
    requires Within(CompileSwitch(cond, body, st).value.b.blocks, g)
    ensures var (o, h') := Exec(SwitchStmt(cond, body), env, h, fuel, Lowered);
            Reaches(g, env, Here(st.b, regs, h), k, fuel, o, regs', h', st.c, CompileSwitch(cond, body, st).value)
    decreases fuel, Size(body), 2
  {
    hide CompileStmt, CompileExpr, SwitchStart, Keeps, Within, CompileSwitch, ExecSections, Run;
    var (x, h1) := Eval(cond, env, h);
    SectionsFrom(body, Selected(body.stmts, x));
    var regs1;
    k, regs1, regs' := AnySwitchSim(cond, body, st, g, env, regs, h, fuel);
    var s1 := SwitchStart(cond, st).0;
    SwitchSetup(cond, body, st, g);
    SwitchBodyStarts(cond, st);
    CleanHasNoneInFront(body.stmts, SelectedKey(body.stmts, x), s1);
  }

  /** The label a switch on `v` goes on at, if there is one. */
  function SelectedKey(ss: seq<Stmt>, v: int): Option<int> {
    if Find(ss, Some(v)) < |ss| then Some(v) else None
  }

  /** Any switch whose labels stand directly in its body: selecting a label runs what
      is in front of it in its block, and only then what C runs. */
  lemma {:induction false} AnySwitchSim(cond: Expr, body: Stmt, st: State, g: seq<Block>, env: Environment, regs: Regs,
                                        h: History, fuel: nat)
    returns (k: nat, regs1: Regs, regs': Regs)
    requires body.Compound? && Sections(body.stmts) && Valid(st) && st.c.state == Empty
    requires CompileSwitch(cond, body, st).Ok? && Within(CompileSwitch(cond, body, st).value.b.blocks, g)
    requires Sections(body.stmts[Selected(body.stmts, Eval(cond, env, h).0)..])
    ensures var (x, h1) := Eval(cond, env, h); var ss := body.stmts;
            var h2 := Replay(InFront(ss, SelectedKey(ss, x), SwitchStart(cond, st).0), env, regs1, h1).1;
            var (o, h') := AfterSwitch(ExecSections(ss[Selected(ss, x)..], env, h2, fuel, Lowered));
            Reaches(g, env, Here(st.b, regs, h), k, fuel, o, regs', h', st.c, CompileSwitch(cond, body, st).value)
    decreases fuel, Size(body), 1
  {
    hide CompileStmt, CompileExpr, SwitchStart, Keeps, Within, CompileSwitch, ExecSections, Run, Replay;
    var (s1, v, d) := SwitchStart(cond, st);
    SwitchSetup(cond, body, st, g);
    var r, final := CompileStmt(body, s1).value, CompileSwitch(cond, body, st).value;
    var (x, h1) := Eval(cond, env, h);
    var j;
    j, regs1 := SwitchStartSim(cond, st, g, env, regs, h);
    k, regs' := ChoiceSim(body, v, d, s1, r, final, st.c, g, env, regs1, h1, fuel);
    var h2 := Replay(InFront(body.stmts, SelectedKey(body.stmts, x), s1), env, regs1, h1).1;
    var (o, h3) := AfterSwitch(ExecSections(body.stmts[Selected(body.stmts, x)..], env, h2, fuel, Lowered));
    ReachesLater(g, env, Here(st.b, regs, h), j, At(d, 0, regs1, h1), k, fuel, o, regs', h3, st.c, st.c, final);
    k := j + k;
  }

  /** From the dispatch block on. */
  lemma {:induction false} ChoiceSim(body: Stmt, v: Reg, d: BlockId, s1: State, r: State, final: State, before: Control,
                                     g: seq<Block>, env: Environment, regs: Regs, h: History, fuel: nat)
    returns (k: nat, regs': Regs)
    requires SwitchShape(body, v, d, s1, r, g) && StartsAt(final, d + 2)
    requires Sections(body.stmts[Selected(body.stmts, Get(regs, v))..])
    ensures var ss, x := body.stmts, Get(regs, v);
            var h1 := Replay(InFront(ss, SelectedKey(ss, x), s1), env, regs, h).1;
            var (o, h') := AfterSwitch(ExecSections(ss[Selected(ss, x)..], env, h1, fuel, Lowered));
            Reaches(g, env, At(d, 0, regs, h), k, fuel, o, regs', h', before, final)
    decreases fuel, Size(body), 0
  {
    hide CompileAll, Keeps, Within, ExecSections, Run, Replay;
    var ss, x := body.stmts, Get(regs, v);
    var i, key := Selected(ss, x), SelectedKey(ss, x);
    DispatchRuns(v, d, Top(r.c), g, env, regs, h);
    if Find(ss, Some(x)) == |ss| {
      NoEntry(ss, s1, Some(x));
    }
    if i == |ss| {
      NoEntry(ss, s1, None);
      NoneInFront(ss, None, s1, env, regs, h);
      NoSections(ss[i..], env, h, fuel);
      k, regs' := 1, regs;
    } else {
      k, regs' := SelectSim(ss, key, s1, g, env, regs, h, fuel);
      var h1 := Replay(InFront(ss, key, s1), env, regs, h).1;
      var (o, h') := ExecSections(ss[i..], env, h1, fuel, Lowered);
      k := SwitchEnds(g, env, At(d, 0, regs, h), At(EntryOf(Top(r.c), key).value, 0, regs, h), 1, k, fuel, o, regs', h',
                      s1.c, r, before, final, d + 2);
    }
  }

  lemma {:induction false} NoneInFront(ss: seq<Stmt>, key: Option<int>, st: State, env: Environment, regs: Regs, h: History)
    requires Find(ss, key) == |ss|
    ensures InFront(ss, key, st) == [] && Replay(InFront(ss, key, st), env, regs, h) == (regs, h)
    decreases |ss|
  {
    if ss != [] && CompileStmt(ss[0], st).Ok? {
      NoneInFront(ss[1..], key, CompileStmt(ss[0], st).value, env, regs, h);
    }
  }
}
