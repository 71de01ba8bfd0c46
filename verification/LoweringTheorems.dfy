/** What lowering a whole function guarantees. */
module LoweringTheorems {
  import opened Wrappers
  import opened Ir
  import opened Hir
  import opened Lowering
  import opened LoweringSound
  import opened LoweringLinked
  import opened Semantics
  import opened LoweringSim
  import opened LoweringStmtSim
  import opened LoweringSwitch
  import opened LoweringLabels

  // ---------- structure ----------

  /** Every block is finished or was never entered, and every branch goes to a
      finished block. */
  ghost predicate WellFormed(blocks: seq<Block>) {
    && (forall i :: 0 <= i < |blocks| && blocks[i].term.None? ==> blocks[i].instrs == [])
    && (forall i, t {:trigger t in Targets(blocks[i].term.value)} ::
          0 <= i < |blocks| && blocks[i].term.Some? && t in Targets(blocks[i].term.value) ==>
            t < |blocks| && blocks[t].term.Some?)
  }

  /** The context a function is lowered in, when nothing around it went wrong. */
  ghost predicate BetweenFunctions(c: Control) {
    c.loops == [] && c.switches == []
  }

  function Start(c: Control): State {
    State(NewBuilder, c.(state := Empty))
  }

  lemma {:induction false} BodySound(body: seq<Stmt>, c: Control)
    requires ParsedAll(body) && CompileAll(body, Start(c)).Ok?
    ensures Valid(Start(c)) && Sound(Start(c), CompileAll(body, Start(c)).value)
  {
    AllSound(body, Start(c));
  }

  /** No label of an earlier function stands in the way of the labels and gotos in `names`. */
  lemma {:induction false} FunctionWellFormed(kind: FunctionKind, body: seq<Stmt>, c: Control, names: set<string>)
    requires ParsedAll(body) && BetweenFunctions(c) && CompileFunction(kind, body, c).Ok?
    requires AllNameOnly(body, names) && forall n :: n in c.labels && n in names ==> c.labels[n] == 0
    ensures var r := CompileFunction(kind, body, c).value;
            !r.b.broken && WellFormed(r.b.blocks) && BetweenFunctions(r.c)
  {
    var c' := Restrict(c, names);
    assert Start(c') == Only(Start(c), names);
    AllOnly(body, Start(c), names);
    FreshTableWellFormed(kind, body, c');
  }

  lemma {:induction false} FreshTableWellFormed(kind: FunctionKind, body: seq<Stmt>, c: Control)
    requires ParsedAll(body) && BetweenFunctions(c) && forall n :: n in c.labels ==> c.labels[n] == 0
    requires CompileFunction(kind, body, c).Ok?
    ensures var r := CompileFunction(kind, body, c).value;
            !r.b.broken && WellFormed(r.b.blocks) && BetweenFunctions(r.c)
  {
    var st := Start(c);
    var r := CompileAll(body, st).value;
    assert LinkedState(st, {});
    BodySound(body, c);
    AllLinked(body, st, {});
    if r.c.state == Empty {
      match kind
      case MainFunction =>
        EmitKeeps(r.b, r.b, Const(r.b.nextReg, 0));
        EmitLinked(r.b, Const(r.b.nextReg, 0), {});
        TerminateLinked(r.b.NewReg().Emit(Const(r.b.nextReg, 0)), Return(Some(r.b.nextReg)), {});
      case VoidFunction => TerminateLinked(r.b, Return(None), {});
    }
  }

  /** Labels outlive the function they were declared in, and no label that is left
      over is at block 0. */
  lemma {:induction false} LabelsAreNotEntries(s: Stmt, st: State)
    requires Parsed(s) && Valid(st) && CompileStmt(s, st).Ok? && 0 !in st.c.labels.Values
    ensures 0 !in CompileStmt(s, st).value.c.labels.Values
  {
    StmtSound(s, st);
  }

  /** A `goto` finds the labels of functions lowered earlier. So the functions that use
      these names only are sure to be well formed exactly when none of them is left over. */
  lemma {:induction false} StaleLabels(c: Control, names: set<string>)
    requires BetweenFunctions(c) && 0 !in c.labels.Values
    ensures names !! c.labels.Keys <==>
            forall kind, body | ParsedAll(body) && AllNameOnly(body, names) && CompileFunction(kind, body, c).Ok? ::
              WellFormed(CompileFunction(kind, body, c).value.b.blocks)
  {
    if names !! c.labels.Keys {
      forall kind, body | ParsedAll(body) && AllNameOnly(body, names) && CompileFunction(kind, body, c).Ok?
        ensures WellFormed(CompileFunction(kind, body, c).value.b.blocks)
      {
        FunctionWellFormed(kind, body, c, names);
      }
    } else {
      var n :| n in names && n in c.labels.Keys;
      assert c.labels[n] in c.labels.Values;
      StaleLabelEscapes(n, c);
      assert AllNameOnly([Goto(n)], names);
    }
  }

  lemma {:induction false} StaleLabelEscapes(n: string, c: Control)
    requires n in c.labels && c.labels[n] != 0
    ensures CompileFunction(VoidFunction, [Goto(n)], c).Ok? && ParsedAll([Goto(n)])
    ensures !WellFormed(CompileFunction(VoidFunction, [Goto(n)], c).value.b.blocks)
  {
    var st := Start(c);
    var r := st.JumpToBlock(c.labels[n]);
    assert [Goto(n)][1..] == [];
    assert CompileStmt(Goto(n), st) == Ok(r);
    assert CompileAll([], r) == Ok(r);
    assert CompileAll([Goto(n)], st) == Ok(r);
    var blocks := CompileFunction(VoidFunction, [Goto(n)], c).value.b.blocks;
    assert blocks[0].term == Some(Jump(Edge(c.labels[n], None)));
    assert c.labels[n] in Targets(blocks[0].term.value);
  }

  // ---------- meaning ----------

  /** What a function whose end is reached gives back: `main` gives 0. */
  function FallOff(kind: FunctionKind): Option<int> {
    if kind == MainFunction then Some(0) else None
  }

  ghost predicate Ends(o: Outcome, kind: FunctionKind, v: Option<int>) {
    o == Returned(v) || (o == Normal && v == FallOff(kind))
  }

  const Entry := At(0, 0, map[], [])

  /** One run of the source against the graph: it ends the same way, or the graph
      is still running, having left the same events, when the fuel is gone. */
  lemma {:induction false} FunctionSim(kind: FunctionKind, body: seq<Stmt>, c: Control, env: Environment, fuel: nat) returns (k: nat)
    requires StructuredAll(body) && BetweenFunctions(c) && CompileFunction(kind, body, c).Ok?
    ensures var g := CompileFunction(kind, body, c).value.b.blocks;
            var (o, h) := ExecAll(body, env, [], fuel, Lowered);
            match o
            case Normal => Run(g, env, Entry, k) == Halted(FallOff(kind), h)
            case Returned(v) => Run(g, env, Entry, k) == Halted(v, h)
            case Running => k > fuel && Run(g, env, Entry, k).At? && Run(g, env, Entry, k).h == h
            case _ => false
  {
    var st := Start(c);
    var r := CompileAll(body, st).value;
    var g := CompileFunction(kind, body, c).value.b.blocks;
    AllParsed(body);
    BodySound(body, c);
    CloseWithin(kind, r, g);
    var regs;
    k, regs := AllSim(body, st, g, env, map[], [], fuel);
    assert Here(st.b, map[], []) == Entry;
    var (o, h) := ExecAll(body, env, [], fuel, Lowered);
    if o == Normal {
      var j := CloseSim(kind, r, g, env, regs, h);
      RunAdd(g, env, Entry, k, j);
      k := k + j;
    }
  }

  lemma {:induction false} CloseWithin(kind: FunctionKind, st: State, g: seq<Block>)
    requires Valid(st) && CloseFunction(kind, st).Ok? && g == CloseFunction(kind, st).value.b.blocks
    ensures Within(st.b.blocks, g)
  {}

  lemma {:induction false} CloseSim(kind: FunctionKind, st: State, g: seq<Block>, env: Environment, regs: Regs, h: History)
    returns (k: nat)
    requires Valid(st) && st.c.state == Empty
    requires CloseFunction(kind, st).Ok? && g == CloseFunction(kind, st).value.b.blocks
    ensures Run(g, env, Here(st.b, regs, h), k) == Halted(FallOff(kind), h)
  {
    match kind
    case MainFunction =>
      var i := Const(st.b.nextReg, 0);
      var b := st.b.NewReg().Emit(i);
      var regs' := regs[st.b.nextReg := 0];
      EmitRuns(st.b, i, g, env, regs, h);
      TerminateRuns(b, Return(Some(st.b.nextReg)), g, env, regs', h);
      Then(g, env, Here(st.b, regs, h), 1, Here(b, regs', h), 1, Halted(Some(0), h));
      k := 2;
    case VoidFunction =>
      TerminateRuns(st.b, Return(None), g, env, regs, h);
      k := 1;
  }

  /** The lowered function and its source, read as C reads it, have the same runs:
      one ends with value `v` after events `h` exactly when the other does. */
  lemma {:induction false} LoweringPreservesMeaning(kind: FunctionKind, body: seq<Stmt>, c: Control, env: Environment,
                                 v: Option<int>, h: History)
    requires StructuredAll(body) && BetweenFunctions(c) && CompileFunction(kind, body, c).Ok?
    requires forall i :: 0 <= i < |body| ==> ContinuesKept(body[i])
    ensures (exists n: nat :: Run(CompileFunction(kind, body, c).value.b.blocks, env, Entry, n) == Halted(v, h)) <==>
            (exists fuel: nat :: var (o, h') := ExecAll(body, env, [], fuel, C); Ends(o, kind, v) && h' == h)
  {
    var g := CompileFunction(kind, body, c).value.b.blocks;
    if fuel: nat :| var (o, h') := ExecAll(body, env, [], fuel, C); Ends(o, kind, v) && h' == h {
      AllReadingsAgree(body, env, [], fuel);
      var k := FunctionSim(kind, body, c, env, fuel);
      assert Run(g, env, Entry, k) == Halted(v, h);
    }
    if n: nat :| Run(g, env, Entry, n) == Halted(v, h) {
      AllReadingsAgree(body, env, [], n);
      var k := FunctionSim(kind, body, c, env, n);
      HaltsOnce(g, env, Entry, n, k);
      var (o, h') := ExecAll(body, env, [], n, C);
      assert Ends(o, kind, v) && h' == h;
    }
  }

  /** And while the source is still running, so is the graph, having left the same events. */
  lemma {:induction false} LoweringPreservesProgress(kind: FunctionKind, body: seq<Stmt>, c: Control, env: Environment, fuel: nat)
    returns (k: nat)
    requires StructuredAll(body) && BetweenFunctions(c) && CompileFunction(kind, body, c).Ok?
    requires forall i :: 0 <= i < |body| ==> ContinuesKept(body[i])
    requires ExecAll(body, env, [], fuel, C).0 == Running
    ensures var g := CompileFunction(kind, body, c).value.b.blocks;
            k > fuel && Run(g, env, Entry, k).At? && Run(g, env, Entry, k).h == ExecAll(body, env, [], fuel, C).1
  {
    AllReadingsAgree(body, env, [], fuel);
    k := FunctionSim(kind, body, c, env, fuel);
  }

  /** A run that has halted after `n` steps is where every later run is. */
  lemma {:induction false} HaltsOnce(g: seq<Block>, env: Environment, start: Config, n: nat, k: nat)
    requires Run(g, env, start, n).Halted?
    ensures k >= n ==> Run(g, env, start, k) == Run(g, env, start, n)
    ensures Run(g, env, start, k).Halted? ==> Run(g, env, start, k) == Run(g, env, start, n)
  {
    if k >= n {
      RunAdd(g, env, start, n, k - n);
      RunHalted(g, env, Run(g, env, start, n), k - n);
    } else if Run(g, env, start, k).Halted? {
      RunAdd(g, env, start, k, n - k);
      RunHalted(g, env, Run(g, env, start, k), n - k);
    }
  }

  // ---------- where the code departs from C ----------

  /** `while (c) continue;` does not keep its meaning: when `c` holds first and
      fails next, the source ends and the graph runs for ever. */
  lemma {:induction false} ContinueInWhileDiverges(cond: Expr, c: Control, env: Environment, n: nat)
    requires BetweenFunctions(c) && CompileFunction(VoidFunction, [While(cond, Continue)], c).Ok?
    requires var (x, h1) := Eval(cond, env, []); x != 0 && Eval(cond, env, h1).0 == 0
    ensures ExecAll([While(cond, Continue)], env, [], 2, C).0 == Normal
    ensures !Run(CompileFunction(VoidFunction, [While(cond, Continue)], c).value.b.blocks, env, Entry, n).Halted?
  {
    var body := [While(cond, Continue)];
    ContinueInWhileSpins(cond, env, [], 2);
    ContinueInWhileSpins(cond, env, [], n + 1);
    ExecSingle(body[0], env, [], 2, C);
    ExecSingle(body[0], env, [], n + 1, Lowered);
    var k := FunctionSim(VoidFunction, body, c, env, n + 1);
    var g := CompileFunction(VoidFunction, body, c).value.b.blocks;
    if Run(g, env, Entry, n).Halted? {
      HaltsOnce(g, env, Entry, n, k);
    }
  }

  function Call(env: Environment, h: History, op: nat): History {
    h + [env.Perform(h, op, [])]
  }

  function TwoCases(v: nat, f: nat, w: nat, p: nat): seq<Stmt> {
    [Case(v, ExprStmt(Leaf(f))), Case(w, ExprStmt(Leaf(p)))]
  }

  /** Nor does `switch (w) { case v: f(); case w: p(); }`: C calls `p` alone, and the
      graph calls `f` first. */
  lemma {:induction false} FallthroughRunsBoth(v: nat, w: nat, f: nat, p: nat, c: Control, env: Environment) returns (n: nat)
    requires v != w && BetweenFunctions(c)
    ensures var ss := TwoCases(v, f, w, p); var r := CompileFunction(VoidFunction, [SwitchStmt(Literal(w), Compound(ss))], c);
            && Sections(ss[1..]) && Selected(ss, w) == 1
            && ExecSections(ss[1..], env, [], 0, C) == (Normal, Call(env, [], p))
            && r.Ok? && Run(r.value.b.blocks, env, Entry, n) == Halted(None, Call(env, Call(env, [], f), p))
  {
    hide CompileStmt, SwitchStart, Run, CompileFunction, ExecSections, Replay, Sections;
    var ss, cond := TwoCases(v, f, w, p), Literal(w);
    var st := Start(c);
    var s1 := SwitchStart(cond, st).0;
    SwitchBodyStarts(cond, st);
    TwoCasesLowered(v, f, w, p, s1);
    TwoCasesRun(v, f, w, p, env, [], C);
    TwoCasesRun(v, f, w, p, env, Call(env, [], f), Lowered);
    var final := OneSwitch(cond, ss, c);
    var g := CloseFunction(VoidFunction, final).value.b.blocks;
    var k, regs1, regs := AnySwitchSim(cond, Compound(ss), st, g, env, map[], [], 0);
    CallReplayed(s1.b.nextReg, f, env, regs1, []);
    var j := CloseSim(VoidFunction, final, g, env, regs, Call(env, Call(env, [], f), p));
    RunAdd(g, env, Entry, k, j);
    n := k + j;
  }

  lemma {:induction false} CallReplayed(dst: Reg, op: nat, env: Environment, regs: Regs, h: History)
    ensures Replay([Do(dst, op, [])], env, regs, h).1 == Call(env, h, op)
  {
    assert [Do(dst, op, [])][..0] == [];
    assert GetAll(regs, []) == [];
    assert Replay([], env, regs, h) == (regs, h);
  }

  /** A function whose body is one switch. */
  lemma {:induction false} OneSwitch(cond: Expr, ss: seq<Stmt>, c: Control) returns (final: State)
    requires Sections(ss) && CompileAll(ss, SwitchStart(cond, Start(c)).0).Ok?
    requires SwitchStart(cond, Start(c)).0.c.state == Empty
    requires CompileAll(ss, SwitchStart(cond, Start(c)).0).value.c.switches != []
    ensures CompileSwitch(cond, Compound(ss), Start(c)) == Ok(final) && Valid(final) && final.c.state == Empty
    ensures CompileFunction(VoidFunction, [SwitchStmt(cond, Compound(ss))], c) == CloseFunction(VoidFunction, final)
    ensures Within(final.b.blocks, CloseFunction(VoidFunction, final).value.b.blocks)
  {
    hide CompileExpr, LeaveSwitch, Keeps, SwitchStart;
    var st := Start(c);
    CompoundIsAll(ss, SwitchStart(cond, st).0);
    SectionsParsed(ss);
    final := CompileSwitch(cond, Compound(ss), st).value;
    SwitchSound(cond, Compound(ss), st);
    SwitchKind(cond, Compound(ss), st);
    var body := [SwitchStmt(cond, Compound(ss))];
    assert CompileStmt(body[0], st) == Ok(final);
    assert body[1..] == [];
    assert CompileAll([], final) == Ok(final);
    CloseWithin(VoidFunction, final, CloseFunction(VoidFunction, final).value.b.blocks);
  }

  lemma {:induction false} TwoCasesRun(v: nat, f: nat, w: nat, p: nat, env: Environment, h: History, r: Reading)
    requires v != w
    ensures var ss := TwoCases(v, f, w, p);
            && Sections(ss) && Sections(ss[1..]) && Selected(ss, w) == 1 && SelectedKey(ss, w) == Some(w as int)
            && ExecSections(ss[1..], env, h, 0, r) == (Normal, Call(env, h, p))
  {
    var ss := TwoCases(v, f, w, p);
    assert Section(ss[0]) && Section(ss[1]);
    assert ss[1..][0] == ss[1] && ss[1..][1..] == [];
    assert HasLabel(ss[1], Some(w as int)) && !HasLabel(ss[0], Some(w as int));
    assert Find(ss[1..], Some(w as int)) == 0;
    assert Unlabelled(ss[1]) == ExprStmt(Leaf(p));
    assert Exec(ExprStmt(Leaf(p)), env, h, 0, r) == (Normal, Call(env, h, p));
    assert ExecSections(ss[1..][1..], env, Call(env, h, p), 0, r) == (Normal, Call(env, h, p));
  }

  lemma {:induction false} CaseLowered(v: nat, op: nat, st: State)
    requires Valid(st) && st.c.state == Empty && st.c.switches != [] && v !in Top(st.c).entries
    ensures var s := Case(v, ExprStmt(Leaf(op))); var r := CompileStmt(s, st);
            && EnterLabels(s, st) == Ok(EnterCase(v, st))
            && r.Ok? && Valid(r.value) && r.value.c == EnterCase(v, st).c && r.value.c.state == Empty
            && r.value.b == st.b.NewReg().Emit(Do(st.b.nextReg, op, []))
  {
    LabelsFirst(Case(v, ExprStmt(Leaf(op))), st);
    StmtSound(Case(v, ExprStmt(Leaf(op))), st);
  }

  lemma {:induction false} TwoCasesLowered(v: nat, f: nat, w: nat, p: nat, st: State)
    requires v != w && Valid(st) && KindOf(st) == Fresh && st.c.switches != []
    requires Top(st.c).entries == map[]
    ensures var ss := TwoCases(v, f, w, p);
            && CompileAll(ss, st).Ok? && CompileAll(ss, st).value.c.switches != []
            && InFront(ss, Some(w as int), st) == [Do(st.b.nextReg, f, [])]
  {
    hide CompileStmt;
    var ss := TwoCases(v, f, w, p);
    CaseLowered(v, f, st);
    var s1 := CompileStmt(ss[0], st).value;
    CaseLowered(w, p, s1);
    var s2 := CompileStmt(ss[1], s1).value;
    assert ss[1..][0] == ss[1] && ss[1..][1..] == [];
    assert CompileAll([], s2) == Ok(s2);
    assert CompileAll(ss[1..], s1) == Ok(s2);
    assert HasLabel(ss[1], Some(w as int)) && !HasLabel(ss[0], Some(w as int));
  }
}
