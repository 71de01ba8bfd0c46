/** Where `break` and `continue` go, and what the labels of a switch get. */
module LoweringControl {
  import opened Wrappers
  import opened Ir
  import opened Hir
  import opened Lowering
  import opened LoweringSound
  import opened LoweringLinked
  import opened LoweringSim
  import opened LoweringStmtSim

  /** `break` and `continue` jump to the targets of the context, if it has them. */
  lemma {:induction false} ExitsJump(isBreak: bool, st: State)
    requires Coherent(st.c)
    ensures var target := if isBreak then BreakTarget(st.c) else ContinueTarget(st.c);
            LoopExit(isBreak, st) ==
              if target.Some? then Ok(st.JumpToBlock(target.value)) else Err(NotInLoop(isBreak))
  {}

  /** Whatever is lowered in between, the targets are the same again afterwards. */
  lemma {:induction false} ExitsUnchanged(s: Stmt, st: State)
    requires Parsed(s) && Valid(st) && CompileStmt(s, st).Ok?
    ensures BreakTarget(CompileStmt(s, st).value.c) == BreakTarget(st.c)
    ensures ContinueTarget(CompileStmt(s, st).value.c) == ContinueTarget(st.c)
  {
    StmtSound(s, st);
    TargetsBalanced(st.c, CompileStmt(s, st).value.c);
  }

  /** `lastSawLoop` is false only inside a switch. */
  ghost predicate Coherent(c: Control) {
    c.lastSawLoop || c.switches != []
  }

  /** The back end's own expectations about its stacks are always met. */
  lemma {:induction false} NeverPanics(s: Stmt, st: State)
    requires Parsed(s) && Valid(st) && Coherent(st.c)
    ensures CompileStmt(s, st) != Err(Panic)
    decreases Size(s), 1
  {
    if st.c.state == Empty || IsJumpTarget(s) {
      match s
      case Compound(stmts) => AllNeverPanic(stmts, st);
      case If(_, _, _) => IfNeverPanics(s, st);
      case While(cond, body) => WhileNeverPanics(Some(cond), body, st);
      case For(init, test, post, body) =>
        SimpleIsParsed(init);
        NeverPanics(init, st);
        if CompileStmt(init, st).Ok? {
          StmtSound(init, st);
          SimpleStaysOpen(init, st);
          WithPostParsed(body, post);
          WhileNeverPanics(test, WithPost(body, post), CompileStmt(init, st).value);
        }
      case DoWhile(body, _) =>
        EnterLoopSound(st);
        NeverPanics(body, EnterLoop(st));
      case SwitchStmt(cond, body) =>
        SwitchStartSound(cond, st);
        var s1 := SwitchStart(cond, st).0;
        NeverPanics(body, s1);
        if CompileStmt(body, s1).Ok? {
          StmtSound(body, s1);
        }
      case Label(name, inner) =>
        if name !in st.c.labels {
          LabelSound(name, st);
          NeverPanics(inner, EnterLabel(name, st));
        }
      case Case(value, inner) =>
        if st.c.switches != [] && value !in Top(st.c).entries {
          EnterCaseSound(value, st);
          NeverPanics(inner, EnterCase(value, st));
        }
      case Default(inner) =>
        if st.c.switches != [] && Top(st.c).default.None? {
          EnterDefaultSound(st);
          NeverPanics(inner, EnterDefault(st));
        }
      case _ =>
    }
  }

  lemma {:induction false} AllNeverPanic(ss: seq<Stmt>, st: State)
    requires ParsedAll(ss) && Valid(st) && Coherent(st.c)
    ensures CompileAll(ss, st) != Err(Panic)
    decreases SizeAll(ss), 0
  {
    if ss != [] {
      NeverPanics(ss[0], st);
      if CompileStmt(ss[0], st).Ok? {
        StmtSound(ss[0], st);
        AllNeverPanic(ss[1..], CompileStmt(ss[0], st).value);
      }
    }
  }

  lemma {:induction false} IfNeverPanics(s: Stmt, st: State)
    requires s.If? && Parsed(s) && Valid(st) && Coherent(st.c) && st.c.state == Empty
    ensures IfStmt(s.cond, s.thn, s.els, st) != Err(Panic)
    decreases Size(s), 0
  {
    var (s1, end) := IfStart(s.cond, s.els.Some?, st);
    assert Valid(s1) && Coherent(s1.c) by { IfStartSound(s.cond, s.els.Some?, st); }
    NeverPanics(s.thn, s1);
    if CompileStmt(s.thn, s1).Ok? && s.els.Some? {
      var r := CompileStmt(s.thn, s1).value;
      var s2 := r.JumpToBlock(end).SwitchToBlock(end + 1);
      assert Valid(s2) && Coherent(s2.c) by {
        IfStartSound(s.cond, s.els.Some?, st);
        StmtSound(s.thn, s1);
        ElseStartSound(st, s1, r, end);
      }
      NeverPanics(s.els.value, s2);
      assert IfRest(s.els, end, r) == ElseBranch(s.els.value, end, r);
    }
  }

  lemma {:induction false} WhileNeverPanics(cond: Option<Expr>, body: Stmt, st: State)
    requires Parsed(body) && Valid(st) && st.c.state == Empty
    ensures WhileStmt(cond, body, st) != Err(Panic)
    decreases Size(body) + 1, 0
  {
    EnterLoopSound(st);
    LoopTestSound(cond, st.b, EnterLoop(st));
    NeverPanics(body, LoopTest(cond, |st.b.blocks|, EnterLoop(st)));
  }

  /** A case label has a block of its own exactly when the block before it is
      finished or still without instructions; otherwise what falls into the label
      is run when the label is selected. */
  lemma {:induction false} CaseStartsFresh(value: nat, st: State)
    requires Valid(st) && st.c.switches != []
    ensures var r := EnterCase(value, st);
            && value in Top(r.c).entries && Top(r.c).entries[value] == r.b.cur < |r.b.blocks|
            && (r.b.blocks[r.b.cur].instrs == [] <==>
                  st.c.state == Filled || st.b.blocks[st.b.cur].instrs == [])
  {
    NewBlockSound(st);
    if st.c.state == Filled {
      SwitchedStarts(st.(b := st.b.CreateBlock()).JumpToBlock(|st.b.blocks|), |st.b.blocks|);
    }
  }

  /** `case v: f(); case w: …` gives both labels one block, which begins with `f()`. */
  lemma {:induction false} FallthroughSharesBlock(v: nat, w: nat, op: nat, st: State)
    requires Valid(st) && st.c.state == Empty && st.c.switches != [] && v != w
    requires v !in Top(st.c).entries && w !in Top(st.c).entries
    ensures var r := CompileStmt(Case(v, ExprStmt(Leaf(op))), st);
            && r.Ok? && r.value.c.switches != [] && w !in Top(r.value.c).entries
            && var q := EnterCase(w, r.value);
               q.c.switches != [] && v in Top(q.c).entries && w in Top(q.c).entries && q.b.cur < |q.b.blocks| &&
               Top(q.c).entries[w] == Top(q.c).entries[v] == q.b.cur &&
               q.b.blocks[q.b.cur].instrs == st.b.blocks[st.b.cur].instrs + [Do(st.b.nextReg, op, [])]
  {
    var s1 := EnterCase(v, st);
    assert CompileStmt(ExprStmt(Leaf(op)), s1) == Ok(s1.(b := CompileExpr(Leaf(op), s1.b).0));
  }

  // ---------- nested statements ----------

  /** One step into a statement: an item of a compound, a branch of an `if`, or
      the only statement inside any other one. */
  datatype Part = Item(i: nat) | Then | Else | Body

  /** A statement, the state it is lowered in, and the loop or switch that most
      closely surrounds it, with the state that one is lowered in. */
  datatype Place = Place(s: Stmt, st: State, around: Option<(Stmt, State)>)
  {
    function Lowered(): Lowered { CompileStmt(s, st) }
  }

  /** The body of a `while`, or of a `for` after its first part. */
  function WhileBody(p: Place, cond: Option<Expr>, body: Stmt, st: State): Place {
    Place(body, LoopTest(cond, |st.b.blocks|, EnterLoop(st)), Some((p.s, p.st)))
  }

  /** Where the statement one step inside `p` is lowered, if lowering comes that far. */
  function Inside(p: Place, part: Part): Option<Place> {
    var st := p.st;
    if st.c.state == Filled && !IsJumpTarget(p.s) then None
    else
      match (p.s, part)
      case (Compound(ss), Item(i)) =>
        if i >= |ss| then None
        else
          var r := CompileAll(ss[..i], st);
          if r.Err? then None else Some(Place(ss[i], r.value, p.around))
      case (If(cond, thn, els), Then) => Some(Place(thn, IfStart(cond, els.Some?, st).0, p.around))
      case (If(cond, thn, Some(els)), Else) =>
        var (s1, end) := IfStart(cond, true, st);
        var r := CompileStmt(thn, s1);
        if r.Err? then None
        else Some(Place(els, r.value.JumpToBlock(end).SwitchToBlock(end + 1), p.around))
      case (While(cond, body), Body) => Some(WhileBody(p, Some(cond), body, st))
      case (For(init, test, post, body), Body) =>
        var r := CompileStmt(init, st);
        if r.Err? then None else Some(WhileBody(p, test, WithPost(body, post), r.value))
      case (DoWhile(body, _), Body) => Some(Place(body, EnterLoop(st), Some((p.s, st))))
      case (SwitchStmt(cond, body), Body) => Some(Place(body, SwitchStart(cond, st).0, Some((p.s, st))))
      case (Label(name, inner), Body) =>
        if name in st.c.labels then None else Some(Place(inner, EnterLabel(name, st), p.around))
      case (Case(value, inner), Body) =>
        if st.c.switches == [] || value in Top(st.c).entries then None
        else Some(Place(inner, EnterCase(value, st), p.around))
      case (Default(inner), Body) =>
        if st.c.switches == [] || Top(st.c).default.Some? then None
        else Some(Place(inner, EnterDefault(st), p.around))
      case _ => None
  }

  function Walk(p: Place, path: seq<Part>): Option<Place>
    decreases |path|
  {
    if path == [] then Some(p)
    else
      var q := Inside(p, path[0]);
      if q.None? then None else Walk(q.value, path[1..])
  }

  /** The number of blocks there are when the loop or switch `s` makes its own. */
  function OwnBlocks(s: Stmt, st: State): nat {
    match s
    case For(init, _, _, _) =>
      var r := CompileStmt(init, st);
      if r.Ok? then |r.value.b.blocks| else 0
    case SwitchStmt(cond, _) => |CompileExpr(cond, st.b).0.blocks|
    case _ => |st.b.blocks|
  }

  /** Where `break` and `continue` are to go in `p`, as its surroundings decide; `c`
      is the context around all of it. A switch has nothing to continue. */
  function Exit(isBreak: bool, c: Control, p: Place): Option<BlockId> {
    match p.around
    case None => if isBreak then BreakTarget(c) else ContinueTarget(c)
    case Some((s, st)) =>
      if isBreak then Some(OwnBlocks(s, st) + 2)
      else if s.SwitchStmt? then None
      else Some(OwnBlocks(s, st) + 1)
  }

  /** What is kept on the way in. */
  ghost predicate Right(p: Place, c: Control) {
    && Parsed(p.s) && Valid(p.st) && Coherent(p.st.c)
    && BreakTarget(p.st.c) == Exit(true, c, p) && ContinueTarget(p.st.c) == Exit(false, c, p)
    && (p.around.Some? ==>
          var (s, st) := p.around.value;
          (s.While? || s.For? || s.DoWhile? || s.SwitchStmt?) && Parsed(s) && Valid(st))
  }

  lemma {:induction false} AllSplit(ss: seq<Stmt>, i: nat, st: State)
    requires i <= |ss|
    ensures CompileAll(ss, st) ==
              var r := CompileAll(ss[..i], st);
              if r.Err? then r else CompileAll(ss[i..], r.value)
    decreases i
  {
    if i == 0 {
      assert ss[..0] == [] && ss[0..] == ss;
    } else {
      assert ss[..i][0] == ss[0] && ss[..i][1..] == ss[1..][..i - 1] && ss[i..] == ss[1..][i - 1..];
      if CompileStmt(ss[0], st).Ok? {
        AllSplit(ss[1..], i - 1, CompileStmt(ss[0], st).value);
      }
    }
  }

  lemma {:induction false} ItemRight(ss: seq<Stmt>, i: nat, st: State)
    requires ParsedAll(ss) && Valid(st) && i < |ss| && CompileAll(ss[..i], st).Ok?
    ensures Parsed(ss[i]) && Sound(st, CompileAll(ss[..i], st).value)
  {
    AllSound(ss[..i], st);
  }

  lemma {:induction false} WhileBodyRight(p: Place, cond: Option<Expr>, body: Stmt, st: State)
    requires Valid(st) && st.c.state == Empty
    ensures var q := WhileBody(p, cond, body, st).st; var h := |st.b.blocks|;
            Valid(q) && Coherent(q.c) && BreakTarget(q.c) == Some(h + 2) && ContinueTarget(q.c) == Some(h + 1)
  {
    EnterLoopSound(st);
    LoopTestSound(cond, st.b, EnterLoop(st));
  }

  lemma {:induction false} DoBodyRight(st: State)
    requires Valid(st) && st.c.state == Empty
    ensures var q := EnterLoop(st); var h := |st.b.blocks|;
            Valid(q) && Coherent(q.c) && BreakTarget(q.c) == Some(h + 2) && ContinueTarget(q.c) == Some(h + 1)
  {
    EnterLoopSound(st);
  }

  lemma {:induction false} ElseRight(cond: Expr, thn: Stmt, st: State)
    requires Parsed(thn) && Valid(st) && st.c.state == Empty
    requires CompileStmt(thn, IfStart(cond, true, st).0).Ok?
    ensures var (s1, end) := IfStart(cond, true, st);
            Sound(st, CompileStmt(thn, s1).value.JumpToBlock(end).SwitchToBlock(end + 1))
  {
    hide CompileStmt, CompileExpr, IfFork, Keeps;
    var (s1, end) := IfStart(cond, true, st);
    IfStartSound(cond, true, st);
    StmtSound(thn, s1);
    ElseStartSound(st, s1, CompileStmt(thn, s1).value, end);
  }

  lemma {:induction false} SwitchBodyRight(cond: Expr, st: State)
    requires Valid(st) && st.c.state == Empty
    ensures var q := SwitchStart(cond, st).0;
            && Valid(q) && Coherent(q.c) && ContinueTarget(q.c) == None
            && BreakTarget(q.c) == Some(|CompileExpr(cond, st.b).0.blocks| + 2)
  {
    SwitchStartSound(cond, st);
  }

  /** A state lowered from another one in the same surroundings. */
  lemma {:induction false} SameExits(st: State, r: State)
    requires Sound(st, r) && Coherent(st.c)
    ensures Valid(r) && Coherent(r.c)
    ensures BreakTarget(r.c) == BreakTarget(st.c) && ContinueTarget(r.c) == ContinueTarget(st.c)
  {
    TargetsBalanced(st.c, r.c);
  }

  lemma {:induction false} InsideRight(p: Place, part: Part, c: Control)
    requires Right(p, c) && Inside(p, part).Some?
    ensures Right(Inside(p, part).value, c)
  {
    hide CompileStmt, CompileExpr, CompileAll, Sound, Coherent, EnterLoop, LoopTest, IfStart, SwitchStart;
    hide EnterLabel, EnterCase, EnterDefault, Keeps, Valid, BreakTarget, ContinueTarget;
    var st, q := p.st, Inside(p, part).value;
    match (p.s, part)
    case (Compound(ss), Item(i)) =>
      ItemRight(ss, i, st);
      SameExits(st, q.st);
    case (If(cond, thn, els), Then) =>
      IfStartSound(cond, els.Some?, st);
      SameExits(st, q.st);
    case (If(cond, thn, Some(els)), Else) =>
      ElseRight(cond, thn, st);
      SameExits(st, q.st);
    case (While(cond, body), Body) => WhileBodyRight(p, Some(cond), body, st);
    case (For(init, test, post, body), Body) =>
      SimpleIsParsed(init);
      StmtSound(init, st);
      SimpleStaysOpen(init, st);
      WithPostParsed(body, post);
      WhileBodyRight(p, test, WithPost(body, post), CompileStmt(init, st).value);
    case (DoWhile(body, _), Body) => DoBodyRight(st);
    case (SwitchStmt(cond, body), Body) => SwitchBodyRight(cond, st);
    case (Label(name, inner), Body) =>
      LabelSound(name, st);
      SameExits(st, q.st);
    case (Case(value, inner), Body) =>
      EnterCaseSound(value, st);
      SameExits(st, q.st);
    case (Default(inner), Body) =>
      EnterDefaultSound(st);
      SameExits(st, q.st);
  }


  // ---------- and out again ----------

  /** An error inside is the error of the whole. */
  lemma {:induction false} ErrorsGoOut(p: Place, part: Part)
    requires Inside(p, part).Some? && Inside(p, part).value.Lowered().Err?
    ensures p.Lowered() == Inside(p, part).value.Lowered()
  {
    hide CompileExpr, EnterLoop, LoopTest, IfStart, SwitchStart, EnterLabel, EnterCase, EnterDefault, IfJoin;
    hide LeaveSwitch, DoTest, ExitLoop;
    match (p.s, part)
    case (Compound(ss), Item(i)) =>
      AllSplit(ss, i, p.st);
      assert ss[i..][0] == ss[i];
    case (If(cond, thn, Some(els)), Else) =>
      var (s1, end) := IfStart(cond, true, p.st);
      var r := CompileStmt(thn, s1).value;
      assert IfRest(Some(els), end, r) == ElseBranch(els, end, r);
      assert p.Lowered() == IfStmt(cond, thn, Some(els), p.st);
    case (If(cond, thn, els), Then) => assert p.Lowered() == IfStmt(cond, thn, els, p.st);
    case (While(cond, body), Body) => assert p.Lowered() == WhileStmt(Some(cond), body, p.st);
    case (For(init, test, post, body), Body) =>
      assert p.Lowered() == WhileStmt(test, WithPost(body, post), CompileStmt(init, p.st).value);
    case (DoWhile(body, cond), Body) => assert p.Lowered() == DoLoop(body, cond, p.st);
    case (SwitchStmt(cond, body), Body) => assert p.Lowered() == CompileSwitch(cond, body, p.st);
    case _ =>
  }

  lemma {:induction false} ThenStays(cond: Expr, thn: Stmt, els: Option<Stmt>, st: State, g: seq<Block>)
    requires Parsed(If(cond, thn, els)) && Valid(st) && st.c.state == Empty
    requires IfStmt(cond, thn, els, st).Ok? && Within(IfStmt(cond, thn, els, st).value.b.blocks, g)
    ensures Within(CompileStmt(thn, IfStart(cond, els.Some?, st).0).value.b.blocks, g)
  {
    hide CompileExpr, CompileStmt, Within, Keeps;
    var (s1, end) := IfStart(cond, els.Some?, st);
    var r := CompileStmt(thn, s1).value;
    match els
    case None => JumpSwitchWithin(r, end, end, g);
    case Some(other) =>
      var s2 := r.JumpToBlock(end).SwitchToBlock(end + 1);
      ElseRight(cond, thn, st);
      ElseStays(cond, thn, other, st, g);
      StmtSound(other, s2);
      WithinEarlier(s2.b, CompileStmt(other, s2).value.b, g);
      JumpSwitchWithin(r, end, end + 1, g);
  }

  lemma {:induction false} ElseStays(cond: Expr, thn: Stmt, els: Stmt, st: State, g: seq<Block>)
    requires Parsed(If(cond, thn, Some(els))) && Valid(st) && st.c.state == Empty
    requires IfStmt(cond, thn, Some(els), st).Ok? && Within(IfStmt(cond, thn, Some(els), st).value.b.blocks, g)
    ensures var (s1, end) := IfStart(cond, true, st);
            var s2 := CompileStmt(thn, s1).value.JumpToBlock(end).SwitchToBlock(end + 1);
            CompileStmt(els, s2).Ok? && Within(CompileStmt(els, s2).value.b.blocks, g)
  {
    hide CompileExpr, CompileStmt, Within, Keeps;
    var (s1, end) := IfStart(cond, true, st);
    var r := CompileStmt(thn, s1).value;
    IfSound(cond, thn, Some(els), st);
    assert IfRest(Some(els), end, r) == ElseBranch(els, end, r);
    JoinStages(r.c.state == Filled, end, CompileStmt(els, r.JumpToBlock(end).SwitchToBlock(end + 1)).value, g);
  }

  lemma {:induction false} WhileBodyStays(cond: Option<Expr>, body: Stmt, st: State, g: seq<Block>)
    requires WhileStmt(cond, body, st).Ok? && Within(WhileStmt(cond, body, st).value.b.blocks, g)
    ensures var r := CompileStmt(body, LoopTest(cond, |st.b.blocks|, EnterLoop(st)));
            r.Ok? && Within(r.value.b.blocks, g)
  {
    hide CompileExpr, CompileStmt, Within, LoopTest, EnterLoop;
    var h := |st.b.blocks|;
    JumpSwitchWithin(CompileStmt(body, LoopTest(cond, h, EnterLoop(st))).value, h, h + 2, g);
  }

  lemma {:induction false} DoBodyStays(body: Stmt, cond: Expr, st: State, g: seq<Block>)
    requires Parsed(body) && Valid(st) && st.c.state == Empty
    requires DoLoop(body, cond, st).Ok? && Within(DoLoop(body, cond, st).value.b.blocks, g)
    ensures Within(CompileStmt(body, EnterLoop(st)).value.b.blocks, g)
  {
    hide CompileExpr, CompileStmt, Within, EnterLoop, Keeps, DoTest;
    var h := |st.b.blocks|;
    var s1 := EnterLoop(st);
    var r := CompileStmt(body, s1).value;
    EnterLoopSound(st);
    StmtSound(body, s1);
    var s2 := r.JumpToBlock(h + 1).SwitchToBlock(h + 1);
    JumpSwitchKeeps(st.b, s1.b, r, h + 1, h + 1);
    DoTestWithin(cond, h, s2, g);
    JumpSwitchWithin(r, h + 1, h + 1, g);
  }

  lemma {:induction false} SwitchBodyStays(cond: Expr, body: Stmt, st: State, g: seq<Block>)
    requires CompileSwitch(cond, body, st).Ok? && Within(CompileSwitch(cond, body, st).value.b.blocks, g)
    ensures var r := CompileStmt(body, SwitchStart(cond, st).0); r.Ok? && Within(r.value.b.blocks, g)
  {
    hide CompileExpr, CompileStmt, Within;
    var (s1, v, dispatch) := SwitchStart(cond, st);
    LeaveSwitchWithin(v, dispatch, st.c.lastSawLoop, CompileStmt(body, s1).value, g);
  }

  /** What is lowered inside stays as it is. */
  lemma {:induction false} InsideStays(p: Place, part: Part, g: seq<Block>)
    requires Parsed(p.s) && Valid(p.st) && Inside(p, part).Some?
    requires p.Lowered().Ok? && Within(p.Lowered().value.b.blocks, g)
    ensures var r := Inside(p, part).value.Lowered(); r.Ok? && Within(r.value.b.blocks, g)
  {
    hide CompileExpr, Within, Keeps;
    var st, r := p.st, Inside(p, part).value.Lowered();
    if r.Err? {
      ErrorsGoOut(p, part);
    }
    match (p.s, part)
    case (Compound(ss), Item(i)) =>
      AllSplit(ss, i, st);
      assert ss[i..][0] == ss[i];
      ItemRight(ss, i, st);
      StmtSound(ss[i], CompileAll(ss[..i], st).value);
      AllSound(ss[i..][1..], r.value);
      WithinEarlier(r.value.b, p.Lowered().value.b, g);
    case (If(cond, thn, els), Then) => ThenStays(cond, thn, els, st, g);
    case (If(cond, thn, Some(els)), Else) =>
      ElseStays(cond, thn, els, st, g);
    case (While(cond, body), Body) => WhileBodyStays(Some(cond), body, st, g);
    case (For(init, test, post, body), Body) =>
      WhileBodyStays(test, WithPost(body, post), CompileStmt(init, st).value, g);
    case (DoWhile(body, cond), Body) => DoBodyStays(body, cond, st, g);
    case (SwitchStmt(cond, body), Body) => SwitchBodyStays(cond, body, st, g);
    case _ =>
  }

  /** After a loop or a switch, control is at the block its `break`s go to. */
  lemma {:induction false} EndsAtExit(s: Stmt, st: State)
    requires s.While? || s.For? || s.DoWhile? || s.SwitchStmt?
    requires Parsed(s) && Valid(st) && CompileStmt(s, st).Ok?
    ensures var r := CompileStmt(s, st).value;
            r.c.state == Empty && r.b.cur == OwnBlocks(s, st) + 2
  {
    hide CompileExpr, Keeps;
    StmtSound(s, st);
    match s
    case SwitchStmt(cond, body) => SwitchEnd(cond, body, st);
    case _ =>
  }

  lemma {:induction false} SwitchEnd(cond: Expr, body: Stmt, st: State)
    requires Parsed(body) && Valid(st) && st.c.state == Empty && CompileSwitch(cond, body, st).Ok?
    ensures var r := CompileSwitch(cond, body, st).value;
            r.c.state == Empty && r.b.cur == |CompileExpr(cond, st.b).0.blocks| + 2
  {
    hide CompileExpr, CompileStmt, Keeps;
    var (s1, v, d) := SwitchStart(cond, st);
    SwitchStartSound(cond, st);
    StmtSound(body, s1);
    SwitchSound(cond, body, st);
    SwitchPopped(st.c, d + 2, CompileStmt(body, s1).value.c);
  }

  lemma {:induction false} WalkRight(p: Place, path: seq<Part>, c: Control)
    requires Right(p, c) && Walk(p, path).Some?
    ensures Right(Walk(p, path).value, c)
    ensures Walk(p, path).value.Lowered().Err? ==> p.Lowered() == Walk(p, path).value.Lowered()
    decreases |path|
  {
    if path != [] {
      InsideRight(p, path[0], c);
      WalkRight(Inside(p, path[0]).value, path[1..], c);
      if Inside(p, path[0]).value.Lowered().Err? {
        ErrorsGoOut(p, path[0]);
      }
    }
  }

  lemma {:induction false} RightIs(p: Place, c: Control)
    requires Right(p, c)
    ensures Parsed(p.s) && Valid(p.st)
  {}

  lemma {:induction false} AroundIs(p: Place, part: Part)
    requires Inside(p, part).Some?
    ensures Inside(p, part).value.around in {p.around, Some((p.s, p.st))}
  {}

  lemma {:induction false} WalkStays(p: Place, path: seq<Part>, c: Control, g: seq<Block>)
    requires Right(p, c) && Walk(p, path).Some?
    requires p.Lowered().Ok? && Within(p.Lowered().value.b.blocks, g)
    requires p.around.Some? ==> CompileStmt(p.around.value.0, p.around.value.1).Ok?
    ensures var q := Walk(p, path).value;
            && q.Lowered().Ok? && Within(q.Lowered().value.b.blocks, g)
            && (q.around.Some? ==> CompileStmt(q.around.value.0, q.around.value.1).Ok?)
    decreases |path|
  {
    hide CompileStmt, Within, Right;
    if path != [] {
      InsideRight(p, path[0], c);
      RightIs(p, c);
      InsideStays(p, path[0], g);
      AroundIs(p, path[0]);
      WalkStays(Inside(p, path[0]).value, path[1..], c, g);
    }
  }

  /** However deep a `break` or `continue` is nested, the block it ends jumps to the
      exit of the loop or switch that most closely surrounds it, which for `break`
      is where that one ends; without an exit, the whole is an error. */
  lemma {:induction false} ExitsInnermost(s: Stmt, st: State, path: seq<Part>)
    requires Parsed(s) && Valid(st) && Coherent(st.c)
    requires var q := Walk(Place(s, st, None), path);
             q.Some? && (q.value.s.Break? || q.value.s.Continue?) && q.value.st.c.state == Empty
    ensures var q := Walk(Place(s, st, None), path).value;
            var exit := Exit(q.s.Break?, st.c, q); var whole := CompileStmt(s, st);
            && (exit.None? ==> whole == Err(NotInLoop(q.s.Break?)))
            && (whole.Ok? ==>
                  && exit.Some? && q.st.b.cur < |whole.value.b.blocks|
                  && whole.value.b.blocks[q.st.b.cur].term == Some(Jump(Edge(exit.value, None)))
                  && (q.s.Break? && q.around.Some? ==>
                        var (loop, at) := q.around.value;
                        CompileStmt(loop, at).Ok? && CompileStmt(loop, at).value.b.cur == exit.value))
  {
    hide Walk, CompileExpr, CompileAll, Parsed, OwnBlocks;
    var p := Place(s, st, None);
    assert Right(p, st.c);
    WalkRight(p, path, st.c);
    var q := Walk(p, path).value;
    ExitsJump(q.s.Break?, q.st);
    if p.Lowered().Ok? {
      var g := p.Lowered().value.b.blocks;
      WalkStays(p, path, st.c, g);
      assert Grew(q.Lowered().value.b.blocks[q.st.b.cur], g[q.st.b.cur]);
      if q.around.Some? {
        EndsAtExit(q.around.value.0, q.around.value.1);
      }
    }
  }
}
