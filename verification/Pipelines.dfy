/**
 * The meaning of the main chunk: filters accept or reject goroutines, macros
 * transform a stack of dumps given by their contents.
 */
module Pipelines {
  import opened Results
  import opened Goroutines
  import opened Graphs
  import opened Predicates
  import opened Codegen
  import opened Machine

  // ----- filters -----

  /** Whether filter f lets g through, with room free stack slots. */
  function Accept(w: World, f: Filter, g: Goroutine, room: int): Result<bool> {
    match Eval(w, f.pred, g, room)
    case Ok(SBool(b)) => Ok(b == f.keep)
    case Ok(_) => Err(InvalidType)
    case Err(e) => Err(e)
  }

  /** Whether all filters let g through; the first rejection or error decides. */
  function AcceptAll(w: World, fs: seq<Filter>, g: Goroutine, room: int): Result<bool> {
    if fs == [] then Ok(true)
    else
      match Accept(w, fs[0], g, room)
      case Ok(true) => AcceptAll(w, fs[1..], g, room)
      case other => other
  }

  /** The goroutines of gs all filters let through, in order. The goroutine itself takes one of the room slots. */
  function Survivors(w: World, fs: seq<Filter>, gs: seq<Goroutine>, room: int): Result<seq<Goroutine>> {
    if gs == [] then Ok([])
    else if room <= 0 then Err(StackOverflow)
    else
      match AcceptAll(w, fs, gs[0], room - 1)
      case Err(e) => Err(e)
      case Ok(b) =>
        match Survivors(w, fs, gs[1..], room)
        case Err(e) => Err(e)
        case Ok(rest) => Ok(if b then [gs[0]] + rest else rest)
  }

  // ----- cost -----

  /** Call, the predicate, Return and the conditional jump. */
  function FilterCost(w: World, f: Filter, g: Goroutine, room: int): nat {
    Cost(w, f.pred, g, room) + 3
  }

  function FiltersCost(w: World, fs: seq<Filter>, g: Goroutine, room: int): nat {
    if fs == [] then 0
    else
      FilterCost(w, fs[0], g, room) +
      (if Accept(w, fs[0], g, room) == Ok(true) then FiltersCost(w, fs[1..], g, room) else 0)
  }

  /** Per goroutine: the filters, AddGoroutine and JumpTo if it survives, and the NextGoroutine that follows. */
  function IterCost(w: World, fs: seq<Filter>, gs: seq<Goroutine>, room: int): nat {
    if gs == [] then 0
    else
      FiltersCost(w, fs, gs[0], room - 1) + (if AcceptAll(w, fs, gs[0], room - 1) == Ok(true) then 2 else 0) + 1 +
      IterCost(w, fs, gs[1..], room)
  }

  /** The loop: TempDump, the first NextGoroutine, the iterations, PushDump. */
  function LoopCost(w: World, fs: seq<Filter>, gs: seq<Goroutine>, room: int): nat {
    IterCost(w, fs, gs, room) + 3
  }

  // ----- macros -----

  type AValue = Value<seq<Goroutine>>

  /** A machine state without addresses: every dump is its contents. */
  datatype AState = AState(stack: seq<AValue>, env: map<string, AValue>)

  function ATop(a: AState): AValue
    requires a.stack != []
  {
    a.stack[|a.stack| - 1]
  }

  function Replace(a: AState, drop: nat, v: AValue): AState
    requires drop <= |a.stack|
  {
    a.(stack := a.stack[..|a.stack| - drop] + [v])
  }

  /** The two dumps a binary operation works on: the one on top and the one below. */
  function TopTwo(a: AState): Result<(seq<Goroutine>, seq<Goroutine>)> {
    var n := |a.stack|;
    if n == 0 then Err(EmptyStack)
    else if !a.stack[n - 1].VDump? then Err(InvalidType)
    else if n == 1 then Err(EmptyStack)
    else if !a.stack[n - 2].VDump? then Err(InvalidType)
    else Ok((a.stack[n - 1].dump, a.stack[n - 2].dump))
  }

  function Bind(a: AState, name: string, v: AValue): AState {
    if name == "_" then a else a.(env := a.env[name := v])
  }

  function ExecAssignMany(a: AState, names: seq<string>): Result<AState> {
    if a.stack == [] then Err(EmptyStack)
    else
      match ATop(a)
      case VDiff(left, common, right) =>
        if |names| != 3 then Err(ExpectedDiffAssign)
        else Ok(Bind(Bind(Bind(a, names[0], VDump(left)), names[1], VDump(common)), names[2], VDump(right)))
      case VDump(_) => if names == [] then Ok(a) else Err(BadAddress)
      case _ => Ok(a)
  }

  function PushA(limit: nat, a: AState, v: AValue): Result<AState> {
    if |a.stack| >= limit then Err(StackOverflow) else Ok(a.(stack := a.stack + [v]))
  }

  /** The effect of one macro. */
  function ExecMacro(w: World, limit: nat, m: Macro, a: AState): Result<AState> {
    match m
    case Load(name) =>
      if name !in a.env then Err(NoSuchEnv)
      else if !a.env[name].VDump? then Err(InvalidType)
      else PushA(limit, a, a.env[name])
    case LoadFile(path) =>
      if |a.stack| >= limit then Err(StackOverflow)
      else if w.load(path).None? then Err(LoadFailed)
      else PushA(limit, a, VDump(w.load(path).value))
    case Loop(fs) =>
      if a.stack == [] || !ATop(a).VDump? then Err(UnexpectedStackState)
      else
        (match Survivors(w, fs, ATop(a).dump, limit - |a.stack|)
         case Err(e) => Err(e)
         case Ok(gs) => Ok(Replace(a, 1, VDump(gs))))
    case DupTop => if a.stack == [] then Err(EmptyStack) else PushA(limit, a, ATop(a))
    case Assign(name) =>
      if a.stack == [] then Err(EmptyStack) else Ok(a.(env := a.env[name := ATop(a)]))
    case AssignMany(names) => ExecAssignMany(a, names)
    case _ =>
      match TopTwo(a)
      case Err(e) => Err(e)
      case Ok((top, below)) => Ok(Replace(a, 2, ExecSet(w, m, top, below)))
  }

  function ExecSet(w: World, m: Macro, top: seq<Goroutine>, below: seq<Goroutine>): AValue {
    match m
    case Graph => VDump(w.sort(InGraph(below, top)))
    case Union => VDump(w.sort(top + below))
    case Intersect => VDump(Shared(top, below))
    case _ => VDiff(Unshared(below, top), Shared(below, top) + Shared(top, below), Unshared(top, below))
  }

  function MacroCost(w: World, limit: nat, m: Macro, a: AState): nat {
    match m
    case Loop(fs) =>
      if a.stack == [] || !ATop(a).VDump? then 0 else LoopCost(w, fs, ATop(a).dump, limit - |a.stack|)
    case LoadFile(_) => 2
    case _ => 1
  }

  /** The effect of a list of macros. */
  function Exec(w: World, limit: nat, ms: seq<Macro>, a: AState): Result<AState> {
    if ms == [] then Ok(a)
    else
      match ExecMacro(w, limit, ms[0], a)
      case Err(e) => Err(e)
      case Ok(a1) => Exec(w, limit, ms[1..], a1)
  }

  /** The instructions a list of macros retires when it succeeds. */
  function ExecCost(w: World, limit: nat, ms: seq<Macro>, a: AState): nat {
    if ms == [] then 0
    else
      MacroCost(w, limit, ms[0], a) +
      match ExecMacro(w, limit, ms[0], a)
      case Err(e) => 0
      case Ok(a1) => ExecCost(w, limit, ms[1..], a1)
  }
}
