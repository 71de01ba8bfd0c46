/** The blocks the labels of a switch are put at. */
module LoweringSwitch {
  import opened Wrappers
  import opened Ir
  import opened Hir
  import opened Lowering
  import opened LoweringSound
  import opened Semantics

  // ---------- the block lowering is at ----------

  ghost predicate Blank(b: Builder, i: BlockId) {
    i < |b.blocks| && b.blocks[i] == Block(None, [], None)
  }

  function KindOf(st: State): BlockKind
    requires st.b.cur < |st.b.blocks|
  {
    if st.c.state == Filled then Done
    else if st.b.blocks[st.b.cur] == Block(None, [], None) then Fresh
    else Begun
  }

  lemma {:induction false} BlankStays(a: Builder, b: Builder, i: BlockId)
    requires Keeps(a, b) && Blank(a, i) && i != a.cur
    ensures Blank(b, i) && i != b.cur
  {}

  /** Code was lowered from `mid` to `st`; now the block `end`, blank since `mid`, is started. */
  lemma {:induction false} BlankStarts(mid: Builder, st: State, target: BlockId, end: BlockId)
    requires Keeps(mid, st.b) && Blank(mid, end) && end != mid.cur
    requires !st.JumpToBlock(target).SwitchToBlock(end).b.broken
    ensures var r := st.JumpToBlock(target).SwitchToBlock(end);
            r.b.cur == end < |r.b.blocks| && KindOf(r) == Fresh
  {
    BlankStays(mid, st.b, end);
  }

  lemma {:induction false} NewBlockIsFresh(st: State)
    requires Valid(st)
    ensures NewBlock(st).b.cur < |NewBlock(st).b.blocks| && KindOf(NewBlock(st)) == Fresh
  {
    NewBlockSound(st);
  }

  /** After any expression the block has instructions, or takes the value of a `?:`. */
  lemma {:induction false} ExprBegins(e: Expr, b: Builder)
    requires b.Open()
    ensures var r := CompileExpr(e, b).0; r.cur < |r.blocks| && r.blocks[r.cur] != Block(None, [], None)
    decreases e
  {
    hide Keeps;
    ExprKeeps(e, b);
    match e
    case Literal(_) =>
    case Leaf(_) =>
    case Unary(_, operand) => ExprKeeps(operand, b);
    case Binary(_, left, right) =>
      ExprKeeps(left, b);
      ExprKeeps(right, CompileExpr(left, b).0);
    case Comma(left, right) =>
      ExprKeeps(left, b);
      ExprBegins(right, CompileExpr(left, b).0);
    case Logical(_, _, _) =>
    case Ternary(_, _, _) => TernaryBegins(e, b);
  }

  lemma {:induction false} TernaryBegins(e: Expr, b: Builder)
    requires e.Ternary? && b.Open()
    ensures var r := CompileTernary(e, b).0; r.cur < |r.blocks| && r.blocks[r.cur].param.Some?
  {
    hide CompileExpr;
    var b0 := b.CreateBlockWithParam();
    var target := |b.blocks|;
    CreateKeeps(b, b);
    SelfKeeps(b0);
    ExprKeeps(e.cond, b0);
    var (b1, c) := CompileExpr(e.cond, b0);
    SelfKeeps(b1);
    TernaryForkKeeps(b0, b1, b1, c);
    var b2 := TernaryFork(b1, c);
    ExprKeeps(e.thn, b2);
    var (b3, l) := CompileExpr(e.thn, b2);
    FinishKeeps(b0, b2, b3, Jump(Edge(target, Some(l))), |b1.blocks| + 1);
    var b4 := FinishInto(b3, target, l, |b1.blocks| + 1);
    ExprKeeps(e.els, b4);
    KeepsTrans(b, b0, b4);
    var (b5, r) := CompileExpr(e.els, b4);
    FinishKeeps(b, b4, b5, Jump(Edge(target, Some(r))), target);
    assert b4.blocks[target].param == b0.blocks[target].param == Some(b.nextReg);
  }

  lemma {:induction false} ExprsBegin(es: seq<Expr>, b: Builder)
    requires b.Open() && es != []
    ensures var r := CompileExprs(es, b); r.cur < |r.blocks| && r.blocks[r.cur] != Block(None, [], None)
    decreases |es|
  {
    ExprKeeps(es[0], b);
    ExprBegins(es[0], b);
    if |es| > 1 {
      ExprsBegin(es[1..], CompileExpr(es[0], b).0);
    }
  }

  /** `After` says exactly what block any statement leaves lowering at. */
  lemma {:induction false} StmtKind(s: Stmt, st: State)
    requires Parsed(s) && Valid(st) && CompileStmt(s, st).Ok?
    ensures var r := CompileStmt(s, st).value; r.b.cur < |r.b.blocks| && KindOf(r) == After(s, KindOf(st))
    decreases Size(s), 1
  {
    hide CompileExpr, Keeps;
    StmtSound(s, st);
    match s
    case Compound(stmts) => AllKind(stmts, st);
    case Decl(inits) => if inits != [] { ExprsBegin(inits, st.b); }
    case ExprStmt(e) => ExprBegins(e, st.b);
    case If(cond, thn, els) => IfKind(cond, thn, els, st);
    case While(cond, body) => WhileKind(Some(cond), body, st);
    case For(init, test, post, body) =>
      SimpleIsParsed(init);
      StmtSound(init, st);
      SimpleStaysOpen(init, st);
      WithPostParsed(body, post);
      WhileKind(test, WithPost(body, post), CompileStmt(init, st).value);
    case DoWhile(body, cond) => DoKind(body, cond, st);
    case SwitchStmt(cond, body) => SwitchKind(cond, body, st);
    case Label(name, inner) =>
      LabelSound(name, st);
      NewBlockIsFresh(st);
      StmtKind(inner, EnterLabel(name, st));
    case Case(value, inner) =>
      EnterCaseSound(value, st);
      CaseKind(value, st);
      StmtKind(inner, EnterCase(value, st));
    case Default(inner) =>
      EnterDefaultSound(st);
      DefaultKind(st);
      StmtKind(inner, EnterDefault(st));
    case _ =>
  }

  lemma {:induction false} AllKind(ss: seq<Stmt>, st: State)
    requires ParsedAll(ss) && Valid(st) && CompileAll(ss, st).Ok?
    ensures var r := CompileAll(ss, st).value; r.b.cur < |r.b.blocks| && KindOf(r) == AfterAll(ss, KindOf(st))
    decreases SizeAll(ss), 0
  {
    if ss != [] {
      StmtSound(ss[0], st);
      StmtKind(ss[0], st);
      AllKind(ss[1..], CompileStmt(ss[0], st).value);
    }
  }

  lemma {:induction false} CaseKind(value: nat, st: State)
    requires Valid(st) && st.c.switches != []
    ensures var r := EnterCase(value, st);
            r.b.cur < |r.b.blocks| && KindOf(r) == if st.c.state == Filled then Fresh else KindOf(st)
  {
    if st.c.state == Filled {
      NewBlockIsFresh(st);
    }
  }

  lemma {:induction false} DefaultKind(st: State)
    requires Valid(st) && st.c.switches != []
    ensures var r := EnterDefault(st);
            r.b.cur < |r.b.blocks| && KindOf(r) == if st.c.state == Filled then Fresh else KindOf(st)
  {
    if st.c.state == Filled {
      NewBlockIsFresh(st);
    }
  }

  lemma {:induction false} WhileKind(cond: Option<Expr>, body: Stmt, st: State)
    requires Parsed(body) && Valid(st) && st.c.state == Empty && WhileStmt(cond, body, st).Ok?
    ensures var r := WhileStmt(cond, body, st).value; r.b.cur < |r.b.blocks| && KindOf(r) == Fresh
  {
    hide CompileStmt, CompileExpr, EnterLoop, Keeps;
    var h := |st.b.blocks|;
    var s1 := EnterLoop(st);
    var s2 := LoopTest(cond, h, s1);
    EnterLoopSound(st);
    LoopTestSound(cond, st.b, s1);
    EnterLoopBlank(st);
    LoopTestBlank(cond, h, s1);
    StmtSound(body, s2);
    WhileSound(cond, body, st);
    BlankStarts(s2.b, CompileStmt(body, s2).value, h, h + 2);
  }

  lemma {:induction false} EnterLoopBlank(st: State)
    requires Valid(st) && st.c.state == Empty
    ensures Blank(EnterLoop(st).b, |st.b.blocks| + 2)
  {}

  lemma {:induction false} LoopTestBlank(cond: Option<Expr>, h: BlockId, st: State)
    requires Valid(st) && st.c.state == Empty && st.b.cur == h && Blank(st.b, h + 2)
    ensures Blank(LoopTest(cond, h, st).b, h + 2)
  {
    if cond.Some? {
      ExprKeeps(cond.value, st.b);
    }
  }

  lemma {:induction false} DoKind(body: Stmt, cond: Expr, st: State)
    requires Parsed(body) && Valid(st) && st.c.state == Empty && DoLoop(body, cond, st).Ok?
    ensures var r := DoLoop(body, cond, st).value; r.b.cur < |r.b.blocks| && KindOf(r) == Fresh
  {
    hide CompileStmt, CompileExpr, EnterLoop, Keeps;
    var h := |st.b.blocks|;
    var s1 := EnterLoop(st);
    var r := CompileStmt(body, s1).value;
    EnterLoopSound(st);
    EnterLoopBlank(st);
    StmtSound(body, s1);
    BlankStays(s1.b, r.b, h + 2);
    JumpSwitchKeeps(st.b, s1.b, r, h + 1, h + 1);
    DoSound(body, cond, st);
    DoTestKind(cond, h, r.JumpToBlock(h + 1).SwitchToBlock(h + 1));
  }

  lemma {:induction false} DoTestKind(cond: Expr, h: BlockId, st: State)
    requires Valid(st) && st.c.state == Empty && Blank(st.b, h + 2) && st.b.cur == h + 1
    requires !DoTest(cond, h, st).b.broken
    ensures var r := DoTest(cond, h, st); r.b.cur < |r.b.blocks| && KindOf(r) == Fresh
  {
    ExprKeeps(cond, st.b);
    BlankStays(st.b, CompileExpr(cond, st.b).0, h + 2);
  }

  lemma {:induction false} SwitchKind(cond: Expr, body: Stmt, st: State)
    requires Parsed(body) && Valid(st) && st.c.state == Empty && CompileSwitch(cond, body, st).Ok?
    ensures var r := CompileSwitch(cond, body, st).value; r.b.cur < |r.b.blocks| && KindOf(r) == Fresh
  {
    hide CompileStmt, CompileExpr, EnterSwitch, Keeps;
    var (s1, v, d) := SwitchStart(cond, st);
    var r := CompileStmt(body, s1).value;
    SwitchStartSound(cond, st);
    ExprKeeps(cond, st.b);
    EnterSwitchBlank(st.(b := CompileExpr(cond, st.b).0));
    StmtSound(body, s1);
    BlankStays(s1.b, r.b, d + 2);
    SwitchSound(cond, body, st);
    SwitchPopped(st.c, d + 2, r.c);
    LeaveSwitchKind(v, d, st.c.lastSawLoop, r);
  }

  lemma {:induction false} EnterSwitchBlank(st: State)
    requires Valid(st) && st.c.state == Empty
    ensures var d := |st.b.blocks|; Blank(EnterSwitch(st).b, d + 1) && Blank(EnterSwitch(st).b, d + 2)
  {}

  lemma {:induction false} LeaveSwitchKind(v: Reg, d: BlockId, sawLoop: bool, st: State)
    requires Valid(st) && st.c.switches != [] && Top(st.c).end == d + 2 && Blank(st.b, d + 2) && st.b.cur != d + 2
    requires !LeaveSwitch(v, d, sawLoop, st).b.broken
    ensures var r := LeaveSwitch(v, d, sawLoop, st); r.b.cur == d + 2 < |r.b.blocks| && KindOf(r) == Fresh
  {}

  lemma {:induction false} IfKind(cond: Expr, thn: Stmt, els: Option<Stmt>, st: State)
    requires Parsed(If(cond, thn, els)) && Valid(st) && st.c.state == Empty && IfStmt(cond, thn, els, st).Ok?
    ensures var r := IfStmt(cond, thn, els, st).value;
            r.b.cur < |r.b.blocks| && KindOf(r) == After(If(cond, thn, els), KindOf(st))
    decreases Size(If(cond, thn, els)), 0
  {
    hide CompileStmt, CompileExpr, IfFork, Keeps;
    var (s1, end) := IfStart(cond, els.Some?, st);
    var r := CompileStmt(thn, s1).value;
    IfStartSound(cond, els.Some?, st);
    IfStartBlank(cond, els.Some?, st);
    StmtKind(thn, s1);
    StmtSound(thn, s1);
    IfSound(cond, thn, els, st);
    match els
    case None => BlankStarts(s1.b, r, end, end);
    case Some(other) => ElseKind(other, st, s1, r, end);
  }

  lemma {:induction false} IfStartBlank(cond: Expr, hasElse: bool, st: State)
    requires Valid(st) && st.c.state == Empty
    ensures var (s1, end) := IfStart(cond, hasElse, st);
            && s1.b.cur < |s1.b.blocks| && KindOf(s1) == Fresh
            && Blank(s1.b, end) && (hasElse ==> Blank(s1.b, end + 1))
  {
    hide CompileExpr, Keeps;
    assert CompileExpr(cond, st.b).0.Open() by { ExprKeeps(cond, st.b); }
  }

  lemma {:induction false} ElseKind(els: Stmt, base: State, s1: State, r: State, end: BlockId)
    requires Parsed(els) && IfEntered(base, s1, true, end) && Sound(s1, r)
    requires ElseBranch(els, end, r).Ok? && Blank(s1.b, end) && Blank(s1.b, end + 1)
    ensures var q := ElseBranch(els, end, r).value;
            && q.b.cur < |q.b.blocks|
            && KindOf(q) == if KindOf(r) == Done && After(els, Fresh) == Done then Done else Fresh
    decreases Size(els), 2
  {
    hide CompileStmt, CompileExpr, Keeps;
    var s2 := r.JumpToBlock(end).SwitchToBlock(end + 1);
    ElseStartSound(base, s1, r, end);
    BlankStarts(s1.b, r, end, end + 1);
    BlankStays(s1.b, r.b, end);
    StmtSound(els, s2);
    StmtKind(els, s2);
    var q := CompileStmt(els, s2).value;
    BlankStays(s2.b, q.b, end);
    IfJoinSound(base, s2, q, r.c.state == Filled, end);
  }

  // ---------- labels ----------

  /** Enters the labels of `s` and stops in front of the statement they stand at. */
  function EnterLabels(s: Stmt, st: State): Lowered {
    match s
    case Case(value, inner) =>
      if st.c.switches == [] then Err(CaseOutsideSwitch(false))
      else if value in Top(st.c).entries then Err(DuplicateCase(false))
      else EnterLabels(inner, EnterCase(value, st))
    case Default(inner) =>
      if st.c.switches == [] then Err(CaseOutsideSwitch(true))
      else if Top(st.c).default.Some? then Err(DuplicateCase(true))
      else EnterLabels(inner, EnterDefault(st))
    case _ => Ok(st)
  }

  lemma {:induction false} LabelsFirst(s: Stmt, st: State)
    ensures CompileStmt(s, st) ==
              var t := EnterLabels(s, st);
              if t.Err? then t else CompileStmt(Unlabelled(s), t.value)
  {
    match s
    case Case(value, inner) =>
      if st.c.switches != [] && value !in Top(st.c).entries {
        LabelsFirst(inner, EnterCase(value, st));
      }
    case Default(inner) =>
      if st.c.switches != [] && Top(st.c).default.None? {
        LabelsFirst(inner, EnterDefault(st));
      }
    case _ =>
  }

  lemma {:induction false} LabelsSound(s: Stmt, st: State)
    requires Valid(st) && EnterLabels(s, st).Ok?
    ensures Sound(st, EnterLabels(s, st).value)
    ensures st.c.state == Empty ==> EnterLabels(s, st).value.b == st.b
  {
    match s
    case Case(value, inner) =>
      EnterCaseSound(value, st);
      LabelsSound(inner, EnterCase(value, st));
      SoundTrans(st, EnterCase(value, st), EnterLabels(s, st).value);
    case Default(inner) =>
      EnterDefaultSound(st);
      LabelsSound(inner, EnterDefault(st));
      SoundTrans(st, EnterDefault(st), EnterLabels(s, st).value);
    case _ => SelfKeeps(st.b);
  }

  /** Where the switch goes on for a label. */
  function EntryOf(sw: SwitchContext, key: Option<int>): Option<BlockId> {
    match key
    case Some(v) => if v in sw.entries then Some(sw.entries[v]) else None
    case None => sw.default
  }

  /** Labels that do not follow code in their block get a blank one, and are put at it. */
  lemma {:induction false} LabelsKind(s: Stmt, st: State)
    requires Valid(st) && EnterLabels(s, st).Ok?
    ensures var r := EnterLabels(s, st).value;
            && r.b.cur < |r.b.blocks|
            && KindOf(r) == if Labelled(s) && KindOf(st) == Done then Fresh else KindOf(st)
  {
    match s
    case Case(value, inner) =>
      EnterCaseSound(value, st);
      CaseKind(value, st);
      LabelsKind(inner, EnterCase(value, st));
    case Default(inner) =>
      EnterDefaultSound(st);
      DefaultKind(st);
      LabelsKind(inner, EnterDefault(st));
    case _ =>
  }

  lemma {:induction false} LabelsEntry(s: Stmt, st: State, key: Option<int>)
    requires Valid(st) && EnterLabels(s, st).Ok? && st.c.switches != []
    ensures var r := EnterLabels(s, st).value;
            && r.c.switches != [] && r.c.switches[..|r.c.switches| - 1] == st.c.switches[..|st.c.switches| - 1]
            && EntryOf(Top(r.c), key) == if HasLabel(s, key) then Some(r.b.cur) else EntryOf(Top(st.c), key)
  {
    match s
    case Case(value, inner) =>
      EnterCaseSound(value, st);
      CaseEntry(value, st, key);
      LabelsSound(inner, EnterCase(value, st));
      LabelsEntry(inner, EnterCase(value, st), key);
    case Default(inner) =>
      EnterDefaultSound(st);
      DefaultEntry(st, key);
      LabelsSound(inner, EnterDefault(st));
      LabelsEntry(inner, EnterDefault(st), key);
    case _ =>
  }

  lemma {:induction false} CaseEntry(value: nat, st: State, key: Option<int>)
    requires Valid(st) && st.c.switches != []
    ensures var r := EnterCase(value, st);
            && r.c.switches != [] && r.c.switches[..|r.c.switches| - 1] == st.c.switches[..|st.c.switches| - 1]
            && r.c.state == Empty
            && EntryOf(Top(r.c), key) == if key == Some(value as int) then Some(r.b.cur) else EntryOf(Top(st.c), key)
  {
    NewBlockSound(st);
  }

  lemma {:induction false} DefaultEntry(st: State, key: Option<int>)
    requires Valid(st) && st.c.switches != []
    ensures var r := EnterDefault(st);
            && r.c.switches != [] && r.c.switches[..|r.c.switches| - 1] == st.c.switches[..|st.c.switches| - 1]
            && r.c.state == Empty
            && EntryOf(Top(r.c), key) == if key == None then Some(r.b.cur) else EntryOf(Top(st.c), key)
  {
    NewBlockSound(st);
  }

  /** A structured statement collects labels for no switch but its own. */
  lemma {:induction false} SwitchesKept(s: Stmt, st: State)
    requires Structured(s) && Valid(st) && CompileStmt(s, st).Ok?
    ensures CompileStmt(s, st).value.c.switches == st.c.switches
    decreases Size(s), 1
  {
    hide CompileExpr, Keeps;
    StructuredIsParsed(s);
    match s
    case Compound(stmts) => AllSwitchesKept(stmts, st);
    case If(cond, thn, els) => IfSwitchesKept(cond, thn, els, st);
    case While(cond, body) => WhileSwitchesKept(Some(cond), body, st);
    case For(init, test, post, body) =>
      SimpleIsParsed(init);
      StmtSound(init, st);
      SimpleStaysOpen(init, st);
      PostIsStructured(body, post);
      WhileSwitchesKept(test, WithPost(body, post), CompileStmt(init, st).value);
    case DoWhile(body, cond) =>
      EnterLoopSound(st);
      SwitchesKept(body, EnterLoop(st));
    case SwitchStmt(cond, body) => SwitchSwitchesKept(cond, body, st);
    case _ =>
  }

  lemma {:induction false} PostIsStructured(body: Stmt, post: Option<Expr>)
    requires Structured(body)
    ensures Structured(WithPost(body, post))
  {}

  lemma {:induction false} AllSwitchesKept(ss: seq<Stmt>, st: State)
    requires StructuredAll(ss) && Valid(st) && CompileAll(ss, st).Ok?
    ensures CompileAll(ss, st).value.c.switches == st.c.switches
    decreases SizeAll(ss), 0
  {
    if ss != [] {
      StructuredIsParsed(ss[0]);
      StmtSound(ss[0], st);
      SwitchesKept(ss[0], st);
      AllSwitchesKept(ss[1..], CompileStmt(ss[0], st).value);
    }
  }

  lemma {:induction false} WhileSwitchesKept(cond: Option<Expr>, body: Stmt, st: State)
    requires Structured(body) && Valid(st) && st.c.state == Empty && WhileStmt(cond, body, st).Ok?
    ensures WhileStmt(cond, body, st).value.c.switches == st.c.switches
    decreases Size(body) + 1, 2
  {
    hide CompileStmt, CompileExpr, Keeps, EnterLoop, LoopTest;
    EnterLoopSound(st);
    LoopTestSound(cond, st.b, EnterLoop(st));
    SwitchesKept(body, LoopTest(cond, |st.b.blocks|, EnterLoop(st)));
  }

  lemma {:induction false} SwitchSwitchesKept(cond: Expr, body: Stmt, st: State)
    requires Parsed(body) && Valid(st) && st.c.state == Empty && CompileSwitch(cond, body, st).Ok?
    ensures CompileSwitch(cond, body, st).value.c.switches == st.c.switches
  {
    hide CompileStmt, CompileExpr, Keeps;
    var (s1, v, d) := SwitchStart(cond, st);
    SwitchStartSound(cond, st);
    StmtSound(body, s1);
    SwitchPopped(st.c, d + 2, CompileStmt(body, s1).value.c);
  }

  lemma {:induction false} IfSwitchesKept(cond: Expr, thn: Stmt, els: Option<Stmt>, st: State)
    requires Structured(If(cond, thn, els)) && Valid(st) && st.c.state == Empty && IfStmt(cond, thn, els, st).Ok?
    ensures IfStmt(cond, thn, els, st).value.c.switches == st.c.switches
    decreases Size(If(cond, thn, els)), 0
  {
    hide CompileStmt, CompileExpr, IfFork, Keeps;
    var (s1, end) := IfStart(cond, els.Some?, st);
    var r := CompileStmt(thn, s1).value;
    IfStartSound(cond, els.Some?, st);
    StructuredIsParsed(thn);
    StmtSound(thn, s1);
    SwitchesKept(thn, s1);
    if els.Some? {
      ElseStartSound(st, s1, r, end);
      assert IfRest(els, end, r) == ElseBranch(els.value, end, r);
      SwitchesKept(els.value, r.JumpToBlock(end).SwitchToBlock(end + 1));
    }
  }

  /** A label that no statement carries gets no entry. */
  lemma {:induction false} NoEntry(ss: seq<Stmt>, st: State, key: Option<int>)
    requires Sections(ss) && Valid(st) && CompileAll(ss, st).Ok? && st.c.switches != []
    requires Find(ss, key) == |ss| && EntryOf(Top(st.c), key).None?
    ensures var r := CompileAll(ss, st).value; r.c.switches != [] && EntryOf(Top(r.c), key).None?
    decreases |ss|
  {
    if ss != [] {
      SectionLowered(ss[0], st, key);
      NoEntry(ss[1..], CompileStmt(ss[0], st).value, key);
    }
  }

  /** What one statement of a switch's body adds to the switch. */
  lemma {:induction false} SectionLowered(s: Stmt, st: State, key: Option<int>)
    requires Section(s) && Valid(st) && CompileStmt(s, st).Ok? && st.c.switches != []
    ensures var t := EnterLabels(s, st); var r := CompileStmt(s, st).value;
            && t.Ok? && Valid(t.value) && t.value.c.switches != [] && Sound(st, t.value)
            && Structured(Unlabelled(s)) && CompileStmt(Unlabelled(s), t.value) == Ok(r)
            && Sound(t.value, r) && Sound(st, r) && r.c.switches == t.value.c.switches
            && EntryOf(Top(r.c), key) == if HasLabel(s, key) then Some(t.value.b.cur) else EntryOf(Top(st.c), key)
  {
    hide CompileStmt, Keeps;
    LabelsFirst(s, st);
    LabelsSound(s, st);
    LabelsEntry(s, st, key);
    var t := EnterLabels(s, st).value;
    UnlabelledIsStructured(s);
    StructuredIsParsed(Unlabelled(s));
    StmtSound(Unlabelled(s), t);
    SoundTrans(st, t, CompileStmt(s, st).value);
    SwitchesKept(Unlabelled(s), t);
  }

  /** What the block of a label holds in front of the statement it stands at. */
  function InFront(ss: seq<Stmt>, key: Option<int>, st: State): seq<Instr>
    decreases |ss|
  {
    if ss == [] then []
    else if HasLabel(ss[0], key) then
      var t := EnterLabels(ss[0], st);
      if t.Ok? && t.value.b.cur < |t.value.b.blocks| then t.value.b.blocks[t.value.b.cur].instrs else []
    else
      var r := CompileStmt(ss[0], st);
      if r.Ok? then InFront(ss[1..], key, r.value) else []
  }

  lemma {:induction false} CleanHasNoneInFront(ss: seq<Stmt>, key: Option<int>, st: State)
    requires Sections(ss) && Valid(st) && st.c.switches != [] && CompileAll(ss, st).Ok? && Clean(ss, KindOf(st))
    ensures InFront(ss, key, st) == []
    decreases |ss|
  {
    hide CompileStmt, Keeps;
    if ss != [] {
      SectionLowered(ss[0], st, key);
      if HasLabel(ss[0], key) {
        LabelsKind(ss[0], st);
      } else {
        SectionIsParsed(ss[0]);
        StmtKind(ss[0], st);
        CleanHasNoneInFront(ss[1..], key, CompileStmt(ss[0], st).value);
      }
    }
  }

  /** The label of `ss[i]` is put at a block that holds nothing. */
  ghost predicate OwnBlock(ss: seq<Stmt>, i: nat, st: State)
    requires i < |ss|
  {
    var mid := CompileAll(ss[..i], st);
    && mid.Ok?
    && var t := EnterLabels(ss[i], mid.value); t.Ok? && Blank(t.value.b, t.value.b.cur)
  }

  /** `Clean` is the exact condition for every label of a switch to get such a block. */
  lemma {:induction false} CleanExactly(ss: seq<Stmt>, st: State)
    requires Sections(ss) && Valid(st) && st.c.switches != [] && CompileAll(ss, st).Ok?
    ensures Clean(ss, KindOf(st)) <==> forall i :: 0 <= i < |ss| && Labelled(ss[i]) ==> OwnBlock(ss, i, st)
    decreases |ss|
  {
    hide CompileStmt, Keeps;
    if ss != [] {
      SectionLowered(ss[0], st, None);
      LabelsKind(ss[0], st);
      SectionIsParsed(ss[0]);
      StmtKind(ss[0], st);
      var s1 := CompileStmt(ss[0], st).value;
      CleanExactly(ss[1..], s1);
      assert ss[..0] == [];
      if Labelled(ss[0]) {
        LabelsOpen(ss[0], st);
        assert OwnBlock(ss, 0, st) <==> KindOf(st) != Begun;
      }
      forall i | 0 <= i < |ss| - 1 ensures OwnBlock(ss[1..], i, s1) == OwnBlock(ss, i + 1, st) {
        assert ss[..i + 1][0] == ss[0] && ss[..i + 1][1..] == ss[1..][..i] && ss[1..][i] == ss[i + 1];
      }
      if forall i :: 0 <= i < |ss| && Labelled(ss[i]) ==> OwnBlock(ss, i, st) {
        forall i | 0 <= i < |ss[1..]| && Labelled(ss[1..][i]) ensures OwnBlock(ss[1..], i, s1) {
          assert OwnBlock(ss, i + 1, st);
        }
      }
      if Clean(ss, KindOf(st)) {
        forall i | 0 <= i < |ss| && Labelled(ss[i]) ensures OwnBlock(ss, i, st) {
          if i > 0 {
            assert OwnBlock(ss[1..], i - 1, s1);
          }
        }
      }
    }
  }

  lemma {:induction false} LabelsOpen(s: Stmt, st: State)
    requires Labelled(s) && Valid(st) && EnterLabels(s, st).Ok?
    ensures EnterLabels(s, st).value.c.state == Empty
  {
    LabelsSound(s, st);
    LabelsKind(s, st);
  }
}
