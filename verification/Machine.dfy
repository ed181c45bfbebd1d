/**
 * The bytecode machine as a step function on states (internal/vm.go). Dump
 * objects live in a heap and are referred to by address, so that values,
 * variables and registers can share one.
 */
module Machine {
  import opened Results
  import opened Goroutines
  import opened Graphs
  import opened Chunks
  import opened Predicates

  /**
   * A stack or environment value; D is how a dump is referred to: by address on the machine, by contents in the
   * pipeline semantics.
   */
  datatype Value<D> =
    | VScalar(v: Scalar)
    | VDump(dump: D)
    | VGoroutine(g: Goroutine)
    | VDiff(left: D, common: D, right: D)

  datatype Frame = Frame(chunk: nat, ip: int, ret: int)

  datatype State = State(
    stack: seq<Value<nat>>,
    frames: seq<Frame>,
    env: map<string, Value<nat>>,
    heap: seq<Dump>,
    regGoroutine: Option<Goroutine>,
    regDump: Option<nat>,
    cache: map<string, string>) // regular expression text to the expression it was compiled from

  /** The fixed surroundings of a run. */
  datatype Setup = Setup(world: World, code: Code, limit: nat)

  datatype Outcome =
    | At(s: State)
    | Halted(s: State)
    | Failed(e: Error, s: State)

  // ----- stack -----

  function Top(s: State): Value<nat>
    requires s.stack != []
  {
    s.stack[|s.stack| - 1]
  }

  function Pop(s: State): State
    requires s.stack != []
  {
    s.(stack := s.stack[..|s.stack| - 1])
  }

  function Push(m: Setup, s: State, v: Value<nat>): Outcome {
    if |s.stack| >= m.limit then Failed(StackOverflow, s) else At(s.(stack := s.stack + [v]))
  }

  function PushBoolean(m: Setup, s: State, r: Result<Scalar>): Outcome {
    match r
    case Err(e) => Failed(e, s)
    case Ok(v) => Push(m, s, VScalar(v))
  }

  function SetIp(s: State, ip: int): State
    requires s.frames != []
  {
    var f := s.frames[|s.frames| - 1];
    s.(frames := s.frames[..|s.frames| - 1] + [f.(ip := ip)])
  }

  function Ip(s: State): int
    requires s.frames != []
  {
    s.frames[|s.frames| - 1].ip
  }

  // ----- constants -----

  function FetchConstant(m: Setup, index: nat): Result<Const> {
    var consts := m.code.consts;
    if index > |consts| || consts == [] then Err(NoSuchConstant)
    else if index == |consts| then Err(BadAddress)
    else Ok(consts[index])
  }

  function FetchString(m: Setup, index: nat): Result<string> {
    match FetchConstant(m, index)
    case Err(e) => Err(e)
    case Ok(CStr(s)) => Ok(s)
    case Ok(_) => Err(InvalidType)
  }

  // ----- comparisons -----

  function Tag(v: Value<nat>): nat {
    match v
    case VScalar(SBool(_)) => 1
    case VScalar(SNum(_)) => 2
    case VScalar(SStr(_)) => 3
    case VDump(_) => 7
    case VGoroutine(_) => 8
    case VDiff(_, _, _) => 10
    case VScalar(SMap(_)) => 11
  }

  predicate CompareNum(l: int, r: int, op: OpCode) {
    match op
    case Less => l < r
    case LessEqual => l <= r
    case Greater => l > r
    case GreaterEqual => l >= r
    case Equal => l == r
    case NotEqual => l != r
    case _ => false
  }

  predicate CompareStr(l: string, r: string, op: OpCode) {
    match op
    case Less => StringLess(l, r)
    case LessEqual => !StringLess(r, l)
    case Greater => StringLess(r, l)
    case GreaterEqual => !StringLess(l, r)
    case Equal => l == r
    case NotEqual => l != r
    case _ => false
  }

  function Comparison(left: Value<nat>, right: Value<nat>, op: OpCode): Result<Scalar> {
    if Tag(left) != Tag(right) then Err(MismatchedTypes)
    else
      match (left, right)
      case (VScalar(SNum(l)), VScalar(SNum(r))) => Ok(SBool(CompareNum(l, r, op)))
      case (VScalar(SStr(l)), VScalar(SStr(r))) => Ok(SBool(CompareStr(l, r, op)))
      case _ => Ok(SBool(false))
  }

  function Containment(left: Value<nat>, right: Value<nat>, op: OpCode): Result<Scalar> {
    var container := if op.Contains? then left else right;
    var contained := if op.Contains? then right else left;
    match container
    case VScalar(SStr(c)) =>
      (match contained
       case VScalar(SStr(p)) => Ok(SBool(Substring(c, p)))
       case _ => Err(InvalidType))
    case VScalar(SMap(c)) =>
      (match contained
       case VScalar(SStr(p)) => Ok(SBool(p in c))
       case _ => Err(InvalidType))
    case _ => Err(InvalidType)
  }

  function OpComparison(m: Setup, s: State, op: OpCode): Outcome {
    if s.stack == [] then Failed(EmptyStack, s)
    else
      var right, s1 := Top(s), Pop(s);
      if s1.stack == [] then Failed(EmptyStack, s1)
      else
        var left, s2 := Top(s1), Pop(s1);
        PushBoolean(m, s2, if op.Contains? || op.In? then Containment(left, right, op) else Comparison(left, right, op))
  }

  function OpRegexMatches(m: Setup, s: State, op: OpCode): Outcome {
    if s.stack == [] then Failed(EmptyStack, s)
    else
      var right, s1 := Top(s), Pop(s);
      if !right.VScalar? || !right.v.SStr? then Failed(InvalidType, s1)
      else if s1.stack == [] then Failed(EmptyStack, s1)
      else
        var left, s2 := Top(s1), Pop(s1);
        if !left.VScalar? || !left.v.SStr? then Failed(InvalidType, s2)
        else
          var pattern := right.v.s;
          if pattern !in s2.cache && !m.world.compiles(pattern) then Failed(BadRegex, s2)
          else
            var s3 := if pattern in s2.cache then s2 else s2.(cache := s2.cache[pattern := pattern]);
            var val := m.world.matches(s3.cache[pattern], left.v.s);
            Push(m, s3, VScalar(SBool(if op.RegexNotMatches? then !val else val)))
  }

  // ----- loads -----

  function OpLoadGoroutineDump(m: Setup, s: State, index: nat): Outcome {
    match FetchString(m, index)
    case Err(e) => Failed(e, s)
    case Ok(name) =>
      if name !in s.env then Failed(NoSuchEnv, s)
      else if !s.env[name].VDump? then Failed(InvalidType, s)
      else Push(m, s, s.env[name])
  }

  function OpLoadFieldAccessor(m: Setup, s: State, index: nat): Outcome {
    match FetchString(m, index)
    case Err(e) => Failed(e, s)
    case Ok(name) =>
      if s.regGoroutine.None? then Failed(NotIterating, s)
      else
        match FieldValue(s.regGoroutine.value, name)
        case None => At(s)
        case Some(v) => Push(m, s, VScalar(v))
  }

  function OpLoadNumber(m: Setup, s: State, index: nat): Outcome {
    match FetchConstant(m, index)
    case Err(e) => Failed(e, s)
    case Ok(CNum(n)) => Push(m, s, VScalar(SNum(n)))
    case Ok(_) => Failed(InvalidType, s)
  }

  function OpLoadString(m: Setup, s: State, index: nat): Outcome {
    match FetchString(m, index)
    case Err(e) => Failed(e, s)
    case Ok(str) => Push(m, s, VScalar(SStr(str)))
  }

  // ----- dumps -----

  function Allocate(s: State, gs: seq<Goroutine>, indexed: bool): State {
    s.(heap := s.heap + [Dump(gs, 0, indexed)])
  }

  function PushNew(m: Setup, s: State, gs: seq<Goroutine>, indexed: bool): Outcome {
    Push(m, Allocate(s, gs, indexed), VDump(|s.heap|))
  }

  function OpTempDump(s: State): State {
    Allocate(s, [], false).(regDump := Some(|s.heap|))
  }

  function StartIter(s: State, a: nat): State
    requires a < |s.heap|
  {
    s.(heap := s.heap[a := s.heap[a].(iter := 0)])
  }

  function OpPushDump(m: Setup, s: State): Outcome {
    if s.regDump.None? then Failed(NilRegister, s)
    else if s.regDump.value >= |s.heap| then Failed(BadAddress, s)
    else Push(m, StartIter(s, s.regDump.value), VDump(s.regDump.value))
  }

  function OpAddGoroutine(s: State): Outcome {
    if s.regDump.None? || s.regGoroutine.None? then Failed(NilRegister, s)
    else if s.regDump.value >= |s.heap| then Failed(BadAddress, s)
    else
      var d := s.heap[s.regDump.value];
      var s1 := s.(heap := s.heap[s.regDump.value := d.(goroutines := d.goroutines + [s.regGoroutine.value])]);
      if d.indexed then Failed(IndexedDump, s1) else At(s1)
  }

  /** After NextGoroutine has found its dump at address a on top of the stack. */
  function Advance(m: Setup, s: State, a: nat, addr: nat): Outcome
    requires a < |s.heap| && s.stack != [] && s.frames != []
  {
    var d := s.heap[a];
    if d.iter >= |d.goroutines| then
      At(Pop(SetIp(s, addr - 1)).(regGoroutine := None))
    else
      var g := d.goroutines[d.iter];
      Push(m, s.(heap := s.heap[a := d.(iter := d.iter + 1)], regGoroutine := Some(g)), VGoroutine(g))
  }

  function OpNextGoroutine(m: Setup, s: State, addr: nat): Outcome
    requires s.frames != []
  {
    if s.stack == [] then Failed(UnexpectedStackState, s)
    else
      match Top(s)
      case VDump(a) =>
        if a >= |s.heap| then Failed(BadAddress, s) else Advance(m, StartIter(s, a), a, addr)
      case VGoroutine(_) =>
        var s1 := Pop(s);
        if s1.stack == [] then Failed(UnexpectedStackState, s1)
        else if !Top(s1).VDump? then Failed(InvalidType, s1)
        else if Top(s1).dump >= |s1.heap| then Failed(BadAddress, s1)
        else Advance(m, s1, Top(s1).dump, addr)
      case _ => Failed(UnexpectedStackState, s)
  }

  /** The address of the dump on top of the stack. */
  function PopDump(s: State): Result<nat> {
    if s.stack == [] then Err(EmptyStack)
    else if !Top(s).VDump? then Err(InvalidType)
    else if Top(s).dump >= |s.heap| then Err(BadAddress)
    else Ok(Top(s).dump)
  }

  function AfterPop(s: State): State {
    if s.stack == [] then s else Pop(s)
  }

  /** The three dumps of a diff; the common part has the copies of both sides. */
  function PushDiff(m: Setup, s: State, inLeft: seq<Goroutine>, inRight: seq<Goroutine>): Outcome {
    var n := |s.heap|;
    var left, right := Unshared(inLeft, inRight), Unshared(inRight, inLeft);
    var common := Shared(inLeft, inRight) + Shared(inRight, inLeft);
    Push(m, Allocate(Allocate(Allocate(s, left, false), right, false), common, false), VDiff(n, n + 2, n + 1))
  }

  /**
   * The new dumps of union, intersect, graph and diff, from the contents of the dump that was on top and the one
   * below.
   */
  function Combine(m: Setup, s: State, op: OpCode, top: seq<Goroutine>, below: seq<Goroutine>): Outcome {
    if op.FuncUnion? then PushNew(m, s, m.world.sort(top + below), false)
    else if op.FuncIntersect? then PushNew(m, s, Shared(top, below), false)
    else if op.FuncGraph? then PushNew(m, s, m.world.sort(InGraph(below, top)), true)
    else PushDiff(m, s, below, top)
  }

  function OpSet(m: Setup, s: State, op: OpCode): Outcome {
    match PopDump(s)
    case Err(e) => Failed(e, AfterPop(s))
    case Ok(a) =>
      match PopDump(Pop(s))
      case Err(e) => Failed(e, AfterPop(Pop(s)))
      case Ok(b) => Combine(m, Pop(Pop(s)), op, s.heap[a].goroutines, s.heap[b].goroutines)
  }

  function OpFuncLoad(m: Setup, s: State): Outcome {
    if s.stack == [] then Failed(EmptyStack, s)
    else if !Top(s).VScalar? || !Top(s).v.SStr? then Failed(InvalidType, Pop(s))
    else
      match m.world.load(Top(s).v.s)
      case None => Failed(LoadFailed, Pop(s))
      case Some(gs) => PushNew(m, Pop(s), gs, false)
  }

  // ----- assignment -----

  function AssignName(m: Setup, s: State, index: nat, v: Value<nat>): Outcome {
    match FetchString(m, index)
    case Err(e) => Failed(e, s)
    case Ok(name) => At(if name == "_" then s else s.(env := s.env[name := v]))
  }

  function MultiAssign(m: Setup, s: State, targets: seq<nat>): Outcome {
    if s.stack == [] then Failed(EmptyStack, s)
    else
      match Top(s)
      case VDiff(left, common, right) =>
        if |targets| != 3 then Failed(ExpectedDiffAssign, s)
        else
          (match AssignName(m, s, targets[0], VDump(left))
           case At(s1) =>
             (match AssignName(m, s1, targets[1], VDump(common))
              case At(s2) => AssignName(m, s2, targets[2], VDump(right))
              case other => other)
           case other => other)
      case VDump(_) => if targets == [] then At(s) else Failed(BadAddress, s)
      case _ => At(s)
  }

  function OpAssignment(m: Setup, s: State, index: nat): Outcome {
    match FetchConstant(m, index)
    case Err(e) => Failed(e, s)
    case Ok(CStr(name)) =>
      if s.stack == [] then Failed(EmptyStack, s) else At(s.(env := s.env[name := Top(s)]))
    case Ok(CMulti(targets)) => MultiAssign(m, s, targets)
    case Ok(_) => Failed(InvalidType, s)
  }

  // ----- control flow -----

  function OpConditionalJump(s: State, op: OpCode, addr: nat): Outcome
    requires s.frames != []
  {
    if s.stack == [] then Failed(EmptyStack, s)
    else if !Top(s).VScalar? || !Top(s).v.SBool? then Failed(InvalidType, Pop(s))
    else if Top(s).v.b == op.JumpIfTrue? then At(SetIp(Pop(s), addr - 1))
    else At(Pop(s))
  }

  function OpCall(m: Setup, s: State, chunk: nat): Outcome
    requires s.frames != []
  {
    if chunk >= |m.code.chunks| then Failed(BadAddress, s)
    else At(s.(frames := s.frames + [Frame(chunk, -1, Ip(s))]))
  }

  function OpReturn(s: State): Outcome
    requires s.frames != []
  {
    var f := s.frames[|s.frames| - 1];
    var s1 := s.(frames := s.frames[..|s.frames| - 1]);
    if s1.frames == [] then Failed(NoFrame, s1) else At(SetIp(s1, f.ret))
  }

  // ----- the run loop -----

  /** The handler of an instruction, in a state whose ip already points at it. */
  function Dispatch(m: Setup, s: State, i: Instr): Outcome
    requires s.frames != []
  {
    match i.op
    case Noop => At(s)
    case LoadGoroutineDump => OpLoadGoroutineDump(m, s, i.arg)
    case LoadFieldAccessor => OpLoadFieldAccessor(m, s, i.arg)
    case LoadNumber => OpLoadNumber(m, s, i.arg)
    case LoadString => OpLoadString(m, s, i.arg)
    case Assignment => OpAssignment(m, s, i.arg)
    case PushBool => Push(m, s, VScalar(SBool(i.arg == 1)))
    case PushDump => OpPushDump(m, s)
    case Dup => if s.stack == [] then Failed(EmptyStack, s) else Push(m, s, Top(s))
    case AddGoroutine => OpAddGoroutine(s)
    case NextGoroutine => OpNextGoroutine(m, s, i.arg)
    case TempDump => At(OpTempDump(s))
    case ResetDump =>
      if s.regDump.None? then Failed(NilRegister, s)
      else if s.regDump.value >= |s.heap| then Failed(BadAddress, s)
      else At(StartIter(s, s.regDump.value))
    case JumpIfFalse => OpConditionalJump(s, i.op, i.arg)
    case JumpIfTrue => OpConditionalJump(s, i.op, i.arg)
    case JumpTo => At(SetIp(s, i.arg - 1))
    case Call => OpCall(m, s, i.arg)
    case Return => OpReturn(s)
    case RegexMatches => OpRegexMatches(m, s, i.op)
    case RegexNotMatches => OpRegexMatches(m, s, i.op)
    case FuncUnion => OpSet(m, s, i.op)
    case FuncIntersect => OpSet(m, s, i.op)
    case FuncGraph => OpSet(m, s, i.op)
    case FuncDiff => OpSet(m, s, i.op)
    case FuncLoad => OpFuncLoad(m, s)
    case Contains => OpComparison(m, s, i.op)
    case In => OpComparison(m, s, i.op)
    case Equal => OpComparison(m, s, i.op)
    case Greater => OpComparison(m, s, i.op)
    case GreaterEqual => OpComparison(m, s, i.op)
    case Less => OpComparison(m, s, i.op)
    case LessEqual => OpComparison(m, s, i.op)
    case NotEqual => OpComparison(m, s, i.op)
    case _ => Failed(NotModelled, s)
  }

  /** The instruction after ip; None at the end of the chunk. */
  function Fetch(m: Setup, s: State): Option<Instr>
    requires s.frames != []
  {
    var f := s.frames[|s.frames| - 1];
    if f.chunk >= |m.code.chunks| || f.ip + 1 < 0 || f.ip + 1 >= |m.code.chunks[f.chunk]| then None
    else Some(m.code.chunks[f.chunk][f.ip + 1])
  }

  /** One turn of the run loop: fetch and dispatch, or halt at the end of the current chunk. */
  function Step(m: Setup, s: State): Outcome {
    if s.frames == [] then Failed(NoFrame, s)
    else
      var s1 := SetIp(s, Ip(s) + 1);
      match Fetch(m, s)
      case None => Halted(s1)
      case Some(i) => Dispatch(m, s1, i)
  }

  /** n turns of the run loop without a gas limit; a run that has ended stays ended. */
  function Steps(m: Setup, s: State, n: nat): Outcome
    decreases n
  {
    if n == 0 then At(s)
    else
      match Step(m, s)
      case At(s1) => Steps(m, s1, n - 1)
      case ended => ended
  }

  /** Run with gas: the counter is decremented and checked before every turn. */
  function Run(m: Setup, s: State, gas: int): Outcome
    decreases gas
  {
    if gas - 1 <= 0 then Failed(OutOfGas, s)
    else
      match Step(m, s)
      case At(s1) => Run(m, s1, gas - 1)
      case ended => ended
  }

  /** Reset: a fresh stack, frame and cache; registers, heap and environment stay. */
  function Reset(s: State): State {
    s.(stack := [], frames := [Frame(0, -1, 0)], cache := map[])
  }
}
