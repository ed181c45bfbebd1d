/**
 * The virtual machine as the source writes it: an object whose handlers change
 * its stack, frames, environment, heap and registers, and a run loop that
 * counts gas (internal/vm.go). Every handler is proved against the function of
 * the same name on machine states.
 */
module VirtualMachine {
  import opened Results
  import opened Goroutines
  import opened Graphs
  import opened Chunks
  import opened Predicates
  import opened Machine
  import opened SetOps

  class VM {
    const world: World
    const limit: nat
    var code: Code
    var stack: seq<Value<nat>>
    var frames: seq<Frame>
    var env: map<string, Value<nat>>
    var heap: seq<Dump>
    var regGoroutine: Option<Goroutine>
    var regDump: Option<nat>
    var cache: map<string, string>

    ghost function Now(): State
      reads this
    {
      State(stack, frames, env, heap, regGoroutine, regDump, cache)
    }

    ghost function Fixed(): Setup
      reads this
    {
      Setup(world, code, limit)
    }

    /** The error and the state a handler ends with. */
    ghost predicate Ends(err: Option<Error>, out: Outcome)
      reads this
    {
      match out
      case At(s) => err.None? && Now() == s
      case Failed(e, s) => err == Some(e) && Now() == s
      case Halted(_) => false
    }

    constructor (world: World, limit: nat)
      ensures this.world == world && this.limit == limit && env == map[] && heap == []
    {
      this.world, this.limit := world, limit;
      code := Code([[]], []);
      stack, frames, env, heap := [], [], map[], [];
      regGoroutine, regDump, cache := None, None, map[];
    }

    method ResetWith(code: Code)
      modifies this
      ensures this.code == code && Now() == Reset(old(Now()))
    {
      this.code := code;
      frames := [Frame(0, -1, 0)];
      stack := [];
      cache := map[];
    }

    // ----- stack -----

    method PushValue(v: Value<nat>) returns (err: Option<Error>)
      modifies this`stack
      ensures Ends(err, Push(Fixed(), old(Now()), v))
    {
      if |stack| >= limit {
        return Some(StackOverflow);
      }
      stack := stack + [v];
      err := None;
    }

    method PopValue() returns (v: Option<Value<nat>>)
      modifies this`stack
      ensures v.None? <==> old(stack) == []
      ensures v.None? ==> stack == old(stack)
      ensures v.Some? ==> v.value == Top(old(Now())) && Now() == Pop(old(Now()))
    {
      if stack == [] {
        return None;
      }
      v := Some(stack[|stack| - 1]);
      stack := stack[..|stack| - 1];
    }

    method SetTopIp(ip: int)
      requires frames != []
      modifies this`frames
      ensures Now() == SetIp(old(Now()), ip)
    {
      frames := frames[..|frames| - 1] + [frames[|frames| - 1].(ip := ip)];
    }

    method PushResult(r: Result<Scalar>) returns (err: Option<Error>)
      modifies this`stack
      ensures Ends(err, PushBoolean(Fixed(), old(Now()), r))
    {
      match r
      case Err(e) => err := Some(e);
      case Ok(v) => err := PushValue(VScalar(v));
    }

    // ----- comparisons -----

    method Compare(op: OpCode) returns (err: Option<Error>)
      modifies this`stack
      ensures Ends(err, OpComparison(Fixed(), old(Now()), op))
    {
      hide Comparison, Containment;
      var right := PopValue();
      if right.None? {
        return Some(EmptyStack);
      }
      var left := PopValue();
      if left.None? {
        return Some(EmptyStack);
      }
      err := PushResult(if op.Contains? || op.In? then Containment(left.value, right.value, op)
                        else Comparison(left.value, right.value, op));
    }

    method MatchRegexes(op: OpCode) returns (err: Option<Error>)
      modifies this`stack, this`cache
      ensures Ends(err, OpRegexMatches(Fixed(), old(Now()), op))
    {
      var right := PopValue();
      if right.None? {
        return Some(EmptyStack);
      }
      if !right.value.VScalar? || !right.value.v.SStr? {
        return Some(InvalidType);
      }
      var left := PopValue();
      if left.None? {
        return Some(EmptyStack);
      }
      if !left.value.VScalar? || !left.value.v.SStr? {
        return Some(InvalidType);
      }
      var pattern := right.value.v.s;
      if pattern !in cache {
        if !world.compiles(pattern) {
          return Some(BadRegex);
        }
        cache := cache[pattern := pattern];
      }
      var val := world.matches(cache[pattern], left.value.v.s);
      err := PushValue(VScalar(SBool(if op.RegexNotMatches? then !val else val)));
    }

    // ----- loads -----

    /** An index one past the end gets through the check and panics. */
    method Constant(index: nat) returns (c: Result<Const>)
      ensures c == FetchConstant(Fixed(), index)
    {
      if index > |code.consts| || |code.consts| == 0 {
        return Err(NoSuchConstant);
      }
      if index == |code.consts| {
        return Err(BadAddress);
      }
      c := Ok(code.consts[index]);
    }

    method ConstantString(index: nat) returns (s: Result<string>)
      ensures s == FetchString(Fixed(), index)
    {
      var c := Constant(index);
      if c.Err? {
        return Err(c.error);
      }
      s := if c.value.CStr? then Ok(c.value.s) else Err(InvalidType);
    }

    method LoadDump(index: nat) returns (err: Option<Error>)
      modifies this`stack
      ensures Ends(err, OpLoadGoroutineDump(Fixed(), old(Now()), index))
    {
      var name := ConstantString(index);
      if name.Err? {
        return Some(name.error);
      }
      if name.value !in env {
        return Some(NoSuchEnv);
      }
      if !env[name.value].VDump? {
        return Some(InvalidType);
      }
      err := PushValue(env[name.value]);
    }

    method LoadField(index: nat) returns (err: Option<Error>)
      modifies this`stack
      ensures Ends(err, OpLoadFieldAccessor(Fixed(), old(Now()), index))
    {
      hide FieldValue;
      var name := ConstantString(index);
      if name.Err? {
        return Some(name.error);
      }
      if regGoroutine.None? {
        return Some(NotIterating);
      }
      var v := FieldValue(regGoroutine.value, name.value);
      err := None;
      if v.Some? {
        err := PushValue(VScalar(v.value));
      }
    }

    method LoadConstant(index: nat, number: bool) returns (err: Option<Error>)
      modifies this`stack
      ensures number ==> Ends(err, OpLoadNumber(Fixed(), old(Now()), index))
      ensures !number ==> Ends(err, OpLoadString(Fixed(), old(Now()), index))
    {
      var c := Constant(index);
      if c.Err? {
        return Some(c.error);
      }
      if number && c.value.CNum? {
        err := PushValue(VScalar(SNum(c.value.n)));
      } else if !number && c.value.CStr? {
        err := PushValue(VScalar(SStr(c.value.s)));
      } else {
        err := Some(InvalidType);
      }
    }

    // ----- dumps -----

    method PushNewDump(gs: seq<Goroutine>, indexed: bool) returns (err: Option<Error>)
      modifies this`stack, this`heap
      ensures Ends(err, PushNew(Fixed(), old(Now()), gs, indexed))
    {
      var a := |heap|;
      heap := heap + [Dump(gs, 0, indexed)];
      err := PushValue(VDump(a));
    }

    method StartIterAt(a: nat)
      requires a < |heap|
      modifies this`heap
      ensures Now() == StartIter(old(Now()), a)
    {
      heap := heap[a := heap[a].(iter := 0)];
    }

    method PushTempDump() returns (err: Option<Error>)
      modifies this`stack, this`heap
      ensures Ends(err, OpPushDump(Fixed(), old(Now())))
    {
      if regDump.None? {
        return Some(NilRegister);
      }
      if regDump.value >= |heap| {
        return Some(BadAddress);
      }
      StartIterAt(regDump.value);
      err := PushValue(VDump(regDump.value));
    }

    method AddCurrent() returns (err: Option<Error>)
      modifies this`heap
      ensures Ends(err, OpAddGoroutine(old(Now())))
    {
      if regDump.None? || regGoroutine.None? {
        return Some(NilRegister);
      }
      if regDump.value >= |heap| {
        return Some(BadAddress);
      }
      var d := heap[regDump.value];
      heap := heap[regDump.value := d.(goroutines := d.goroutines + [regGoroutine.value])];
      err := if d.indexed then Some(IndexedDump) else None;
    }

    /** NextGoroutine: the tag on top of the stack tells a first call from a later one. */
    method NextInDump(addr: nat) returns (err: Option<Error>)
      requires frames != []
      modifies this`stack, this`heap, this`frames, this`regGoroutine
      ensures Ends(err, OpNextGoroutine(Fixed(), old(Now()), addr))
    {
      hide SetIp;
      if stack == [] {
        return Some(UnexpectedStackState);
      }
      var a: nat;
      match stack[|stack| - 1] {
      case VDump(d) =>
        if d >= |heap| {
          return Some(BadAddress);
        }
        a := d;
        StartIterAt(a);
      case VGoroutine(_) =>
        var _ := PopValue();
        if stack == [] {
          return Some(UnexpectedStackState);
        }
        var below := stack[|stack| - 1];
        if !below.VDump? {
          return Some(InvalidType);
        }
        if below.dump >= |heap| {
          return Some(BadAddress);
        }
        a := below.dump;
      case _ =>
        return Some(UnexpectedStackState);
      }
      err := AdvanceAt(a, addr);
    }

    method AdvanceAt(a: nat, addr: nat) returns (err: Option<Error>)
      requires frames != [] && stack != [] && a < |heap|
      modifies this`stack, this`heap, this`frames, this`regGoroutine
      ensures Ends(err, Advance(Fixed(), old(Now()), a, addr))
    {
      var d := heap[a];
      err := None;
      if d.iter >= |d.goroutines| {
        SetTopIp(addr - 1);
        regGoroutine := None;
        var _ := PopValue();
        return;
      }
      var g := d.goroutines[d.iter];
      heap := heap[a := d.(iter := d.iter + 1)];
      regGoroutine := Some(g);
      err := PushValue(VGoroutine(g));
    }

    method PopDumpAddress() returns (r: Result<nat>)
      modifies this`stack
      ensures r == PopDump(old(Now())) && Now() == AfterPop(old(Now()))
      ensures r.Ok? ==> old(stack) != [] && r.value < |heap| && Now() == Pop(old(Now()))
    {
      var v := PopValue();
      if v.None? {
        return Err(EmptyStack);
      }
      if !v.value.VDump? {
        return Err(InvalidType);
      }
      if v.value.dump >= |heap| {
        return Err(BadAddress);
      }
      r := Ok(v.value.dump);
    }

    /** union, intersect, graph and diff: two dumps are popped and their contents combined in new dumps. */
    method CombineDumps(op: OpCode) returns (err: Option<Error>)
      modifies this`stack, this`heap
      ensures Ends(err, OpSet(Fixed(), old(Now()), op))
    {
      hide PopDump, Combine;
      var a := PopDumpAddress();
      if a.Err? {
        return Some(a.error);
      }
      var b := PopDumpAddress();
      if b.Err? {
        return Some(b.error);
      }
      err := PushCombined(op, heap[a.value].goroutines, heap[b.value].goroutines);
    }

    method PushCombined(op: OpCode, top: seq<Goroutine>, below: seq<Goroutine>) returns (err: Option<Error>)
      modifies this`stack, this`heap
      ensures Ends(err, Combine(Fixed(), old(Now()), op, top, below))
    {
      hide Shared, Unshared, InGraph, PushNew, Push, Allocate, PushDiff;
      if op.FuncUnion? {
        err := PushNewDump(world.sort(top + below), false);
      } else if op.FuncIntersect? {
        var r := IntersectLoop(top, below);
        err := PushNewDump(r, false);
      } else if op.FuncGraph? {
        var r := InGraphOf(below, top);
        err := PushNewDump(world.sort(r), true);
      } else {
        err := PushDiffOf(below, top);
      }
    }

    method PushDiffOf(inLeft: seq<Goroutine>, inRight: seq<Goroutine>) returns (err: Option<Error>)
      modifies this`stack, this`heap
      ensures Ends(err, PushDiff(Fixed(), old(Now()), inLeft, inRight))
    {
      hide Shared, Unshared;
      var n := |heap|;
      var left, common := DiffLoop(inLeft, inRight, []);
      var right, common1 := DiffLoop(inRight, inLeft, common);
      assert [] + Shared(inLeft, inRight) == Shared(inLeft, inRight);
      heap := heap + [Dump(left, 0, false)] + [Dump(right, 0, false)] + [Dump(common1, 0, false)];
      err := PushValue(VDiff(n, n + 2, n + 1));
    }

    method LoadFromFile() returns (err: Option<Error>)
      modifies this`stack, this`heap
      ensures Ends(err, OpFuncLoad(Fixed(), old(Now())))
    {
      var path := PopValue();
      if path.None? {
        return Some(EmptyStack);
      }
      if !path.value.VScalar? || !path.value.v.SStr? {
        return Some(InvalidType);
      }
      var gs := world.load(path.value.v.s);
      if gs.None? {
        return Some(LoadFailed);
      }
      err := PushNewDump(gs.value, false);
    }

    // ----- assignment -----

    method AssignVariable(index: nat, v: Value<nat>) returns (err: Option<Error>)
      modifies this`env
      ensures Ends(err, AssignName(Fixed(), old(Now()), index, v))
    {
      var name := ConstantString(index);
      if name.Err? {
        return Some(name.error);
      }
      if name.value != "_" {
        env := env[name.value := v];
      }
      err := None;
    }

    method AssignTargets(targets: seq<nat>) returns (err: Option<Error>)
      modifies this`env
      ensures Ends(err, MultiAssign(Fixed(), old(Now()), targets))
    {
      hide FetchString;
      if stack == [] {
        return Some(EmptyStack);
      }
      match stack[|stack| - 1]
      case VDiff(left, common, right) =>
        if |targets| != 3 {
          return Some(ExpectedDiffAssign);
        }
        err := AssignVariable(targets[0], VDump(left));
        if err.None? {
          err := AssignVariable(targets[1], VDump(common));
        }
        if err.None? {
          err := AssignVariable(targets[2], VDump(right));
        }
      case VDump(_) => err := if targets == [] then None else Some(BadAddress);
      case _ => err := None;
    }

    method Assign(index: nat) returns (err: Option<Error>)
      modifies this`env
      ensures Ends(err, OpAssignment(Fixed(), old(Now()), index))
    {
      hide MultiAssign;
      var c := Constant(index);
      if c.Err? {
        return Some(c.error);
      }
      match c.value
      case CStr(name) =>
        if stack == [] {
          return Some(EmptyStack);
        }
        env := env[name := stack[|stack| - 1]];
        err := None;
      case CMulti(targets) => err := AssignTargets(targets);
      case _ => err := Some(InvalidType);
    }

    // ----- control flow -----

    method ConditionalJump(op: OpCode, addr: nat) returns (err: Option<Error>)
      requires frames != []
      modifies this`stack, this`frames
      ensures Ends(err, OpConditionalJump(old(Now()), op, addr))
    {
      var v := PopValue();
      if v.None? {
        return Some(EmptyStack);
      }
      if !v.value.VScalar? || !v.value.v.SBool? {
        return Some(InvalidType);
      }
      if v.value.v.b == op.JumpIfTrue? {
        SetTopIp(addr - 1);
      }
      err := None;
    }

    method CallChunk(chunk: nat) returns (err: Option<Error>)
      requires frames != []
      modifies this`frames
      ensures Ends(err, OpCall(Fixed(), old(Now()), chunk))
    {
      if chunk >= |code.chunks| {
        return Some(BadAddress);
      }
      frames := frames + [Frame(chunk, -1, frames[|frames| - 1].ip)];
      err := None;
    }

    method ReturnFromChunk() returns (err: Option<Error>)
      requires frames != []
      modifies this`frames
      ensures Ends(err, OpReturn(old(Now())))
    {
      var ip := frames[|frames| - 1].ret;
      frames := frames[..|frames| - 1];
      if frames == [] {
        return Some(NoFrame);
      }
      SetTopIp(ip);
      err := None;
    }

    // ----- the run loop -----

    /** The jump table. */
    method Execute(i: Instr) returns (err: Option<Error>)
      requires frames != []
      modifies this`stack, this`frames, this`env, this`heap, this`regGoroutine, this`regDump, this`cache
      ensures Ends(err, Dispatch(Fixed(), old(Now()), i))
    {
      hide OpComparison, OpRegexMatches, OpLoadGoroutineDump, OpLoadFieldAccessor, OpLoadNumber, OpLoadString, OpSet,
        OpFuncLoad, OpAssignment, OpNextGoroutine, OpConditionalJump, OpPushDump, OpAddGoroutine, OpReturn, OpCall,
        SetIp, Push;
      err := None;
      match i.op
      case Noop =>
      case LoadGoroutineDump => err := LoadDump(i.arg);
      case LoadFieldAccessor => err := LoadField(i.arg);
      case LoadNumber => err := LoadConstant(i.arg, true);
      case LoadString => err := LoadConstant(i.arg, false);
      case Assignment => err := Assign(i.arg);
      case PushBool => err := PushValue(VScalar(SBool(i.arg == 1)));
      case PushDump => err := PushTempDump();
      case Dup =>
        if stack == [] {
          return Some(EmptyStack);
        }
        err := PushValue(stack[|stack| - 1]);
      case AddGoroutine => err := AddCurrent();
      case NextGoroutine => err := NextInDump(i.arg);
      case TempDump =>
        regDump := Some(|heap|);
        heap := heap + [Dump([], 0, false)];
      case ResetDump =>
        if regDump.None? {
          return Some(NilRegister);
        }
        if regDump.value >= |heap| {
          return Some(BadAddress);
        }
        StartIterAt(regDump.value);
      case JumpIfFalse => err := ConditionalJump(i.op, i.arg);
      case JumpIfTrue => err := ConditionalJump(i.op, i.arg);
      case JumpTo => SetTopIp(i.arg - 1);
      case Call => err := CallChunk(i.arg);
      case Return => err := ReturnFromChunk();
      case RegexMatches => err := MatchRegexes(i.op);
      case RegexNotMatches => err := MatchRegexes(i.op);
      case FuncUnion => err := CombineDumps(i.op);
      case FuncIntersect => err := CombineDumps(i.op);
      case FuncGraph => err := CombineDumps(i.op);
      case FuncDiff => err := CombineDumps(i.op);
      case FuncLoad => err := LoadFromFile();
      case Contains => err := Compare(i.op);
      case In => err := Compare(i.op);
      case Equal => err := Compare(i.op);
      case Greater => err := Compare(i.op);
      case GreaterEqual => err := Compare(i.op);
      case Less => err := Compare(i.op);
      case LessEqual => err := Compare(i.op);
      case NotEqual => err := Compare(i.op);
      case _ => err := Some(NotModelled);
    }

    /** nextOp: advance ip; None at the end of the chunk. */
    method NextOp() returns (i: Option<Instr>)
      requires frames != []
      modifies this`frames
      ensures i == Fetch(Fixed(), old(Now())) && Now() == SetIp(old(Now()), Ip(old(Now())) + 1)
    {
      var f := frames[|frames| - 1];
      SetTopIp(f.ip + 1);
      if f.chunk >= |code.chunks| || f.ip + 1 < 0 || f.ip + 1 >= |code.chunks[f.chunk]| {
        return None;
      }
      i := Some(code.chunks[f.chunk][f.ip + 1]);
    }

    /** Run: the state it ends in and its error are those of the run function; no error means the machine has halted. */
    method RunLoop(initialGas: int) returns (err: Option<Error>)
      modifies this`stack, this`frames, this`env, this`heap, this`regGoroutine, this`regDump, this`cache
      ensures Run(Fixed(), old(Now()), initialGas) == (if err.None? then Halted(Now()) else Failed(err.value, Now()))
    {
      hide Dispatch, Fetch, SetIp;
      var gas := initialGas;
      while true
        invariant Run(Fixed(), Now(), gas) == Run(Fixed(), old(Now()), initialGas)
        decreases gas
      {
        gas := gas - 1;
        if gas <= 0 {
          return Some(OutOfGas);
        }
        if frames == [] {
          return Some(NoFrame);
        }
        ghost var before := Now();
        var i := NextOp();
        if i.None? {
          return None;
        }
        KeepsFrames(before);
        err := Execute(i.value);
        assert Step(Fixed(), before) == Dispatch(Fixed(), SetIp(before, Ip(before) + 1), i.value);
        if err.Some? {
          return;
        }
      }
    }
  }

  lemma KeepsFrames(s: State)
    requires s.frames != []
    ensures SetIp(s, Ip(s) + 1).frames != []
  {
  }
}
