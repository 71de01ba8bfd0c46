/** Lowering looks at no label but those a statement names. */
module LoweringLabels {
  import opened Wrappers
  import opened Hir
  import opened Lowering

  /** Every label that `s` declares or jumps to is in `names`. */
  predicate NamesOnly(s: Stmt, names: set<string>)
    decreases s
  {
    match s
    case Compound(stmts) => AllNameOnly(stmts, names)
    case If(_, thn, els) => NamesOnly(thn, names) && (els.Some? ==> NamesOnly(els.value, names))
    case While(_, body) => NamesOnly(body, names)
    case For(init, _, _, body) => NamesOnly(init, names) && NamesOnly(body, names)
    case DoWhile(body, _) => NamesOnly(body, names)
    case SwitchStmt(_, body) => NamesOnly(body, names)
    case Case(_, inner) => NamesOnly(inner, names)
    case Default(inner) => NamesOnly(inner, names)
    case Label(name, inner) => name in names && NamesOnly(inner, names)
    case Goto(name) => name in names
    case _ => true
  }

  predicate AllNameOnly(ss: seq<Stmt>, names: set<string>)
    decreases ss
  {
    forall i :: 0 <= i < |ss| ==> NamesOnly(ss[i], names)
  }

  /** The same context with only these names in the table. */
  function Restrict(c: Control, names: set<string>): Control {
    c.(labels := map n | n in c.labels && n in names :: c.labels[n])
  }

  function Only(st: State, names: set<string>): State {
    st.(c := Restrict(st.c, names))
  }

  function OnlyOf(r: Lowered, names: set<string>): Lowered {
    if r.Ok? then Ok(Only(r.value, names)) else r
  }

  /** Other names in the table make no difference. */
  lemma {:induction false} StmtOnly(s: Stmt, st: State, names: set<string>)
    requires NamesOnly(s, names)
    ensures CompileStmt(s, Only(st, names)) == OnlyOf(CompileStmt(s, st), names)
    decreases Size(s), 0
  {
    hide CompileExpr, CompileExprs, EnterLabel, EnterCase, EnterDefault, IfStmt, WhileStmt, DoLoop, CompileSwitch;
    if st.c.state == Empty || IsJumpTarget(s) {
      match s
      case Compound(stmts) => AllOnly(stmts, st, names);
      case If(cond, thn, els) => IfOnly(cond, thn, els, st, names);
      case While(cond, body) => WhileOnly(Some(cond), body, st, names);
      case For(init, test, post, body) =>
        StmtOnly(init, st, names);
        if CompileStmt(init, st).Ok? {
          PostNamesOnly(body, post, names);
          WhileOnly(test, WithPost(body, post), CompileStmt(init, st).value, names);
        }
      case DoWhile(body, cond) => DoOnly(body, cond, st, names);
      case SwitchStmt(cond, body) => SwitchOnly(cond, body, st, names);
      case Label(name, inner) =>
        LabelOnly(name, st, names);
        StmtOnly(inner, EnterLabel(name, st), names);
      case Case(value, inner) =>
        if st.c.switches != [] {
          CaseOnly(value, st, names);
          StmtOnly(inner, EnterCase(value, st), names);
        }
      case Default(inner) =>
        if st.c.switches != [] {
          DefaultOnly(st, names);
          StmtOnly(inner, EnterDefault(st), names);
        }
      case _ =>
    }
  }

  lemma {:induction false} LabelOnly(name: string, st: State, names: set<string>)
    requires name in names
    ensures EnterLabel(name, Only(st, names)) == Only(EnterLabel(name, st), names)
  {
    var a, b := EnterLabel(name, Only(st, names)), Only(EnterLabel(name, st), names);
    assert a.c.labels == b.c.labels;
  }

  lemma {:induction false} CaseOnly(value: nat, st: State, names: set<string>)
    requires st.c.switches != []
    ensures EnterCase(value, Only(st, names)) == Only(EnterCase(value, st), names)
  {}

  lemma {:induction false} DefaultOnly(st: State, names: set<string>)
    requires st.c.switches != []
    ensures EnterDefault(Only(st, names)) == Only(EnterDefault(st), names)
  {}

  lemma {:induction false} PostNamesOnly(body: Stmt, post: Option<Expr>, names: set<string>)
    requires NamesOnly(body, names)
    ensures NamesOnly(WithPost(body, post), names)
  {}

  lemma {:induction false} AllOnly(ss: seq<Stmt>, st: State, names: set<string>)
    requires AllNameOnly(ss, names)
    ensures CompileAll(ss, Only(st, names)) == OnlyOf(CompileAll(ss, st), names)
    decreases SizeAll(ss), 0
  {
    hide CompileStmt;
    if ss != [] {
      StmtOnly(ss[0], st, names);
      if CompileStmt(ss[0], st).Ok? {
        AllOnly(ss[1..], CompileStmt(ss[0], st).value, names);
      }
    }
  }

  lemma {:induction false} WhileOnly(cond: Option<Expr>, body: Stmt, st: State, names: set<string>)
    requires NamesOnly(body, names)
    ensures WhileStmt(cond, body, Only(st, names)) == OnlyOf(WhileStmt(cond, body, st), names)
    decreases Size(body) + 1, 1
  {
    hide CompileStmt, CompileExpr, EnterLoop, LoopTest, ExitLoop, Only;
    var h := |st.b.blocks|;
    var s1 := LoopTest(cond, h, EnterLoop(st));
    StmtOnly(body, s1, names);
    StartOnly(cond, st, names);
    if CompileStmt(body, s1).Ok? {
      EndOnly(CompileStmt(body, s1).value, h, st.c.lastSawLoop, names);
    }
  }

  lemma {:induction false} StartOnly(cond: Option<Expr>, st: State, names: set<string>)
    ensures var h := |st.b.blocks|;
            && Only(st, names).b == st.b && Only(st, names).c.lastSawLoop == st.c.lastSawLoop
            && LoopTest(cond, h, EnterLoop(Only(st, names))) == Only(LoopTest(cond, h, EnterLoop(st)), names)
  {
    hide CompileExpr;
    assert EnterLoop(Only(st, names)) == Only(EnterLoop(st), names);
  }

  lemma {:induction false} EndOnly(r: State, h: nat, sawLoop: bool, names: set<string>)
    ensures ExitLoop(Only(r, names).JumpToBlock(h).SwitchToBlock(h + 2), sawLoop)
         == Only(ExitLoop(r.JumpToBlock(h).SwitchToBlock(h + 2), sawLoop), names)
  {}

  lemma {:induction false} DoOnly(body: Stmt, cond: Expr, st: State, names: set<string>)
    requires NamesOnly(body, names)
    ensures DoLoop(body, cond, Only(st, names)) == OnlyOf(DoLoop(body, cond, st), names)
    decreases Size(body), 1
  {
    hide CompileStmt, CompileExpr;
    StmtOnly(body, EnterLoop(st), names);
    assert EnterLoop(Only(st, names)) == Only(EnterLoop(st), names);
  }

  lemma {:induction false} SwitchOnly(cond: Expr, body: Stmt, st: State, names: set<string>)
    requires NamesOnly(body, names)
    ensures CompileSwitch(cond, body, Only(st, names)) == OnlyOf(CompileSwitch(cond, body, st), names)
    decreases Size(body), 1
  {
    hide CompileStmt, CompileExpr, SwitchStart, LeaveSwitch, Only;
    var (s1, v, dispatch) := SwitchStart(cond, st);
    StmtOnly(body, s1, names);
    SwitchStartOnly(cond, st, names);
    if CompileStmt(body, s1).Ok? {
      LeaveOnly(v, dispatch, st.c.lastSawLoop, CompileStmt(body, s1).value, names);
    }
  }

  lemma {:induction false} SwitchStartOnly(cond: Expr, st: State, names: set<string>)
    ensures var (s1, v, dispatch) := SwitchStart(cond, st);
            && SwitchStart(cond, Only(st, names)) == (Only(s1, names), v, dispatch)
            && Only(st, names).c.lastSawLoop == st.c.lastSawLoop
  {
    hide CompileExpr;
  }

  lemma {:induction false} LeaveOnly(v: nat, dispatch: nat, sawLoop: bool, st: State, names: set<string>)
    ensures Only(st, names).c.switches == st.c.switches
    ensures st.c.switches != [] ==>
              LeaveSwitch(v, dispatch, sawLoop, Only(st, names)) == Only(LeaveSwitch(v, dispatch, sawLoop, st), names)
  {}

  lemma {:induction false} IfOnly(cond: Expr, thn: Stmt, els: Option<Stmt>, st: State, names: set<string>)
    requires NamesOnly(thn, names) && (els.Some? ==> NamesOnly(els.value, names))
    ensures IfStmt(cond, thn, els, Only(st, names)) == OnlyOf(IfStmt(cond, thn, els, st), names)
    decreases Size(thn) + (if els.Some? then Size(els.value) else 0), 3
  {
    hide CompileStmt, CompileExpr, IfStart, Only, ElseBranch;
    var (s1, end) := IfStart(cond, els.Some?, st);
    StmtOnly(thn, s1, names);
    IfStartOnly(cond, els.Some?, st, names);
    var r := CompileStmt(thn, s1);
    if r.Ok? {
      match els
      case None => JumpOnly(r.value, end, end, names);
      case Some(other) => ElseOnly(other, end, r.value, names);
    }
  }

  lemma {:induction false} IfStartOnly(cond: Expr, hasElse: bool, st: State, names: set<string>)
    ensures IfStart(cond, hasElse, Only(st, names)) ==
              (Only(IfStart(cond, hasElse, st).0, names), IfStart(cond, hasElse, st).1)
  {
    hide CompileExpr, IfFork;
  }

  lemma {:induction false} JumpOnly(st: State, target: nat, next: nat, names: set<string>)
    ensures Only(st, names).JumpToBlock(target).SwitchToBlock(next)
         == Only(st.JumpToBlock(target).SwitchToBlock(next), names)
    ensures Only(st, names).c.state == st.c.state
  {}

  lemma {:induction false} ElseOnly(els: Stmt, end: nat, st: State, names: set<string>)
    requires NamesOnly(els, names)
    ensures ElseBranch(els, end, Only(st, names)) == OnlyOf(ElseBranch(els, end, st), names)
    decreases Size(els), 2
  {
    hide CompileStmt, Only, IfJoin;
    var s2 := st.JumpToBlock(end).SwitchToBlock(end + 1);
    JumpOnly(st, end, end + 1, names);
    StmtOnly(els, s2, names);
    if CompileStmt(els, s2).Ok? {
      JoinOnly(st.c.state == Filled, end, CompileStmt(els, s2).value, names);
    }
  }

  lemma {:induction false} JoinOnly(ifHasReturn: bool, end: nat, st: State, names: set<string>)
    ensures IfJoin(ifHasReturn, end, Only(st, names)) == Only(IfJoin(ifHasReturn, end, st), names)
  {
    JumpOnly(st, end, end, names);
  }
}
