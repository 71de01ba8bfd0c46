/** Stock result types shared by the other modules. */
module Wrappers {
  datatype Option<+T> = None | Some(value: T)

  datatype Result<+T, +E> = Ok(value: T) | Err(error: E)
}

/** A fact about finite sets. */
module FiniteSets {
  lemma {:induction false} SubsetIsSmaller<T>(a: set<T>, b: set<T>)
    requires a <= b
    ensures |a| <= |b|
  {
    assert b == a + (b - a);
  }
}

/** The control-flow graph a function body is lowered to, and how it runs.

    A block has at most one parameter, a list of instructions and, once it is
    finished, one terminator. Registers are numbered and written once. What an
    instruction computes is opaque: an `Environment` decides the result of each
    operation from everything that happened before it, so a run is determined by
    the environment and is observed through the list of events it leaves. */
module Ir {
  import opened Wrappers

  type Reg = nat
  type BlockId = nat

  datatype Instr =
    | Const(dst: Reg, n: int)
    | Do(dst: Reg, op: nat, args: seq<Reg>)
    | IsNonZero(dst: Reg, src: Reg)

  datatype Edge = Edge(target: BlockId, arg: Option<Reg>)

  datatype Term =
    | Jump(to: Edge)
    | Brif(cond: Reg, thn: Edge, els: Edge)
    | Return(result: Option<Reg>)
    | Switch(scrutinee: Reg, entries: map<int, BlockId>, default: BlockId)

  datatype Block = Block(param: Option<Reg>, instrs: seq<Instr>, term: Option<Term>)

  datatype Event = Event(op: nat, args: seq<int>, result: int)

  type History = seq<Event>

  datatype Environment = Environment(respond: (History, nat, seq<int>) -> int)
  {
    function Perform(h: History, op: nat, args: seq<int>): Event {
      Event(op, args, respond(h, op, args))
    }
  }

  type Regs = map<Reg, int>

  function Get(regs: Regs, r: Reg): int {
    if r in regs then regs[r] else 0
  }

  function GetAll(regs: Regs, rs: seq<Reg>): (vs: seq<int>) {
    seq(|rs|, i requires 0 <= i < |rs| => Get(regs, rs[i]))
  }

  datatype Config =
    | At(block: BlockId, pos: nat, regs: Regs, h: History)
    | Halted(result: Option<int>, h: History)
    | Stuck(h: History)

  function Enter(g: seq<Block>, e: Edge, regs: Regs, h: History): Config {
    if e.target < |g| && g[e.target].param.Some? && e.arg.Some? then
      At(e.target, 0, regs[g[e.target].param.value := Get(regs, e.arg.value)], h)
    else
      At(e.target, 0, regs, h)
  }

  function Step(g: seq<Block>, env: Environment, c: Config): Config {
    match c
    case Halted(_, _) => c
    case Stuck(_) => c
    case At(b, i, regs, h) =>
      if b >= |g| then Stuck(h)
      else if i < |g[b].instrs| then
        match g[b].instrs[i] {
          case Const(dst, n) => At(b, i + 1, regs[dst := n], h)
          case Do(dst, op, args) =>
            var ev := env.Perform(h, op, GetAll(regs, args));
            At(b, i + 1, regs[dst := ev.result], h + [ev])
          case IsNonZero(dst, src) =>
            At(b, i + 1, regs[dst := if Get(regs, src) != 0 then 1 else 0], h)
        }
      else
        match g[b].term
        case None => Stuck(h)
        case Some(Jump(e)) => Enter(g, e, regs, h)
        case Some(Brif(cond, thn, els)) =>
          Enter(g, if Get(regs, cond) != 0 then thn else els, regs, h)
        case Some(Return(r)) =>
          Halted(if r.Some? then Some(Get(regs, r.value)) else None, h)
        case Some(Switch(r, entries, default)) =>
          var v := Get(regs, r);
          At(if v in entries then entries[v] else default, 0, regs, h)
  }

  function Run(g: seq<Block>, env: Environment, c: Config, n: nat): Config
    decreases n
  {
    if n == 0 then c else Run(g, env, Step(g, env, c), n - 1)
  }

  lemma {:induction false} RunAdd(g: seq<Block>, env: Environment, c: Config, m: nat, n: nat)
    ensures Run(g, env, c, m + n) == Run(g, env, Run(g, env, c, m), n)
    decreases m
  {
    if m != 0 {
      RunAdd(g, env, Step(g, env, c), m - 1, n);
    }
  }

  lemma {:induction false} RunHalted(g: seq<Block>, env: Environment, c: Config, n: nat)
    requires c.Halted?
    ensures Run(g, env, c, n) == c
    decreases n
  {
    if n != 0 {
      RunHalted(g, env, c, n - 1);
    }
  }

  /** The blocks control can go to from `t`. */
  function Targets(t: Term): set<BlockId> {
    match t
    case Jump(e) => {e.target}
    case Brif(_, thn, els) => {thn.target, els.target}
    case Return(_) => {}
    case Switch(_, entries, default) => (set v | v in entries :: entries[v]) + {default}
  }
}
