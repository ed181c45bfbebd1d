/**
 * Whole runs: what the machine does with the code of a program from Reset to
 * the end, before and after the optimizer, without and with gas.
 */
module Programs {
  import opened Results
  import opened Goroutines
  import opened Graphs
  import opened Chunks
  import opened Predicates
  import opened Codegen
  import opened Machine
  import opened PredicateRuns
  import opened Pipelines
  import opened LoopRuns
  import opened MacroRuns
  import opened Fusion
  import opened ErrorOrder
  import opened Optimizer

  /** The state seen through the heap at the start of a run. */
  function Initial(s: State): AState {
    AState([], DerefEnv(s.heap, s.env))
  }

  /** No predicate chunk is being executed. */
  predicate InMain(s: State) {
    |s.frames| == 1 && s.frames[0].chunk == 0
  }

  /**
   * How a run of a program with macros ms ends: halted in the main chunk, in the state the macros mean, or
   * failed with their error.
   */
  ghost predicate ProgramResult(m: Setup, s: State, ms: seq<Macro>, out: Outcome) {
    && HeapGrows(s.heap, out.s.heap)
    && match Exec(m.world, m.limit, ms, Initial(s))
       case Ok(a) => out.Halted? && Abs(out.s) == a && EnvProper(out.s) && InMain(out.s)
       case Err(e) => out.Failed? && out.e == e
  }

  /**
   * Every run of linked code ends without gas, as its macros mean; a successful run retires ExecCost
   * instructions and then halts.
   */
  lemma ProgramRun(m: Setup, s: State, ms: seq<Macro>) returns (n: nat)
    requires Linked(m.code, ms) && EnvProper(s)
    ensures ProgramResult(m, s, ms, Steps(m, Reset(s), n))
    ensures Exec(m.world, m.limit, ms, Initial(s)).Ok? ==>
              n == ExecCost(m.world, m.limit, ms, Initial(s)) + 1 && Steps(m, Reset(s), n - 1).At?
  {
    hide Layout, MacroInterned, FilterLinked, Exec, ExecCost, Dispatch;
    var s0 := Reset(s);
    assert Abs(s0) == Initial(s);
    assert m.code.chunks[0][0..0 + Length(ms)] == m.code.chunks[0];
    n := MacrosRun(m, s0, 0, ms);
    if Exec(m.world, m.limit, ms, Initial(s)).Ok? {
      var s1 := Steps(m, s0, n).s;
      assert Fetch(m, s1) == None;
      HaltRuns(m, s1);
      StepsJoin(m, s0, n, s1, 1);
      n := n + 1;
    }
  }

  lemma HaltRuns(m: Setup, s: State)
    requires s.frames != [] && Fetch(m, s) == None
    ensures Steps(m, s, 1) == Halted(SetIp(s, Ip(s) + 1)) && Abs(SetIp(s, Ip(s) + 1)) == Abs(s)
  {
    hide Dispatch;
  }

  // ----- the optimizer -----

  function OptimizedCode(code: Code): Code
    requires code.chunks != []
  {
    Code([Optimized(code.chunks[0], 0)] + code.chunks[1..], code.consts)
  }

  lemma LinkedNonempty(code: Code, ms: seq<Macro>)
    requires Linked(code, ms)
    ensures code.chunks != [] && LoopsNonempty(ms) && LoopsLinked(code, ms)
  {
  }

  /** A filter is linked in code with another main chunk. */
  lemma FiltersRelinked(code: Code, code': Code, fs: seq<Filter>)
    requires FiltersLinked(code, fs) && code'.consts == code.consts
    requires |code'.chunks| == |code.chunks| > 0 && code'.chunks[1..] == code.chunks[1..]
    ensures FiltersLinked(code', fs)
  {
    forall f | f in fs ensures FilterLinked(code', f) {
      assert FilterLinked(code, f);
      assert code'.chunks[f.chunk] == code'.chunks[1..][f.chunk - 1];
      assert code.chunks[f.chunk] == code.chunks[1..][f.chunk - 1];
    }
  }

  /** The filters of the fused loops are filters of the program. */
  ghost predicate AllFiltersLinked(code: Code, ms: seq<Macro>) {
    forall mac | mac in ms && mac.Loop? :: FiltersLinked(code, mac.filters)
  }

  lemma {:induction false} FuseLinked(code: Code, ms: seq<Macro>, skip: nat)
    requires AllFiltersLinked(code, ms)
    ensures AllFiltersLinked(code, Fuse(ms, skip))
    decreases |ms|
  {
    hide FilterLinked;
    if ms != [] {
      var n := RunOf(ms);
      if skip > 0 || n <= 1 {
        FuseLinked(code, ms[1..], if skip > 0 then Minus(skip, MacroLen(ms[0])) else n);
      } else {
        FuseLinked(code, ms[n..], 5 * n - 4);
        var fs := FiltersOf(ms[..n]);
        forall f | f in fs ensures FilterLinked(code, f) {
          var k :| 0 <= k < n && fs[k] == f;
          FiltersOfAt(ms[..n], k);
          assert ms[k] in ms;
          assert ms[k].filters[0] in ms[k].filters;
        }
      }
    }
  }

  /** The optimized code is linked too, for the fused macros: it stays well formed. */
  lemma OptimizedLinked(code: Code, ms: seq<Macro>)
    requires Linked(code, ms)
    ensures Linked(OptimizedCode(code), Fuse(ms, 0))
  {
    hide Layout, MacroInterned, FilterLinked, Fuse, Optimized;
    LinkedNonempty(code, ms);
    OptimizerFuses(ms, code.consts);
    FuseLinked(code, ms, 0);
    var code' := OptimizedCode(code);
    forall mac | mac in Fuse(ms, 0) && mac.Loop? ensures FiltersLinked(code', mac.filters) {
      FiltersRelinked(code, code', mac.filters);
    }
  }

  /**
   * The main result on the optimizer. The run of the optimized code succeeds
   * exactly when the run of the original code does, with the same stack and
   * environment seen through the heap, and it retires exactly Saving fewer
   * instructions. If both fail, they report the same error exactly if
   * ErrorsAgree holds of the fused program.
   */
  lemma FusionPreservesRuns(m: Setup, s: State, ms: seq<Macro>) returns (n: nat, k: nat)
    requires Linked(m.code, ms) && (forall mac | mac in ms && mac.Loop? :: IsSingle(mac)) && EnvProper(s)
    ensures var before := Steps(m, Reset(s), n);
            var after := Steps(m.(code := OptimizedCode(m.code)), Reset(s), k);
            && (before.Halted? || before.Failed?) && (after.Halted? || after.Failed?)
            && (before.Halted? <==> after.Halted?)
            && (before.Halted? ==>
                  && Abs(after.s) == Abs(before.s) && InMain(before.s) && InMain(after.s)
                  && n > 0 && Steps(m, Reset(s), n - 1).At?
                  && n == k + Saving(m.world, m.limit, Fuse(ms, 0), Initial(s)))
            && (before.Failed? ==>
                  (after.e == before.e <==> ErrorsAgree(m.world, m.limit, Fuse(ms, 0), Initial(s))))
            && HeapGrows(s.heap, before.s.heap) && HeapGrows(s.heap, after.s.heap)
  {
    hide Steps, Linked, Exec, ExecCost, Fuse, Optimized, Split, Saving, ErrorsAgree;
    LinkedNonempty(m.code, ms);
    OptimizedLinked(m.code, ms);
    var m' := m.(code := OptimizedCode(m.code));
    n := ProgramRun(m, s, ms);
    k := ProgramRun(m', s, Fuse(ms, 0));
    FusedMeaning(m, s, ms);
  }

  lemma FusedMeaning(m: Setup, s: State, ms: seq<Macro>)
    requires Linked(m.code, ms) && forall mac | mac in ms && mac.Loop? :: IsSingle(mac)
    ensures Same(Exec(m.world, m.limit, Fuse(ms, 0), Initial(s)), Exec(m.world, m.limit, ms, Initial(s)))
    ensures Exec(m.world, m.limit, ms, Initial(s)).Ok? ==>
              ExecCost(m.world, m.limit, ms, Initial(s)) ==
              ExecCost(m.world, m.limit, Fuse(ms, 0), Initial(s)) + Saving(m.world, m.limit, Fuse(ms, 0), Initial(s))
    ensures Exec(m.world, m.limit, Fuse(ms, 0), Initial(s)) == Exec(m.world, m.limit, ms, Initial(s)) <==>
            ErrorsAgree(m.world, m.limit, Fuse(ms, 0), Initial(s))
  {
    hide Exec, ExecCost, Fuse, Split, Saving, Layout, ErrorsAgree;
    LinkedNonempty(m.code, ms);
    OptimizerFuses(ms, m.code.consts);
    SplitErrors(m.world, m.limit, Fuse(ms, 0), Initial(s));
    SplitMeaning(m.world, m.limit, Fuse(ms, 0), Initial(s));
    SplitOfSingles(ms);
  }

  lemma {:induction false} SplitOfSingles(ms: seq<Macro>)
    requires forall mac | mac in ms && mac.Loop? :: IsSingle(mac)
    ensures Split(ms) == ms
  {
    if ms != [] {
      assert ms[0] in ms && forall mac | mac in ms[1..] :: mac in ms;
      SplitOfSingles(ms[1..]);
      if ms[0].Loop? {
        var fs := ms[0].filters;
        assert fs == [fs[0]] && Singles(fs[1..]) == [];
      }
    }
  }

  // ----- gas -----

  /** Run with gas is gas - 1 turns of the loop; if the run has not ended by then, it is out of gas. */
  lemma {:induction false} RunIsSteps(m: Setup, s: State, gas: int)
    ensures var out := Steps(m, s, if gas > 1 then gas - 1 else 0);
            Run(m, s, gas) == if out.At? then Failed(OutOfGas, out.s) else out
    decreases gas
  {
    hide Step;
    if gas > 1 && Step(m, s).At? {
      RunIsSteps(m, Step(m, s).s, gas - 1);
    }
  }

  /** A run that has ended after n turns stays as it is with more. */
  lemma StaysEnded(m: Setup, s: State, n: nat, k: nat)
    requires n <= k && !Steps(m, s, n).At?
    ensures Steps(m, s, k) == Steps(m, s, n)
  {
    hide Steps;
    StepsThen(m, s, n, k - n);
  }

  /** A run that has ended after n turns needs more than n gas, and then gas makes no difference. */
  lemma GasIsEnough(m: Setup, s: State, n: nat, gas: int)
    requires !Steps(m, s, n).At? && gas > n
    ensures Run(m, s, gas) == Steps(m, s, n)
  {
    hide Steps, Run;
    RunIsSteps(m, s, gas);
    if n == 0 {
      NoTurn(m, s);
    } else {
      StaysEnded(m, s, n, gas - 1);
    }
  }

  lemma NoTurn(m: Setup, s: State)
    ensures Steps(m, s, 0) == At(s)
  {
  }

  lemma {:induction false} EndedBefore(m: Setup, s: State, n: nat, k: nat)
    requires Steps(m, s, n).At? && k <= n
    ensures Steps(m, s, k).At?
  {
    hide Steps;
    StepsThen(m, s, k, n - k);
  }

  /** A run that halts within its gas still does after fusion. */
  lemma FusionFitsGas(m: Setup, s: State, ms: seq<Macro>, gas: int)
    requires Linked(m.code, ms) && (forall mac | mac in ms && mac.Loop? :: IsSingle(mac)) && EnvProper(s)
    requires Run(m, Reset(s), gas).Halted?
    ensures m.code.chunks != []
    ensures var after := Run(m.(code := OptimizedCode(m.code)), Reset(s), gas);
            after.Halted? && Abs(after.s) == Abs(Run(m, Reset(s), gas).s)
  {
    hide Steps, Linked, Run, Optimized, Saving, Fuse, Abs;
    LinkedNonempty(m.code, ms);
    var m' := m.(code := OptimizedCode(m.code));
    var n, k := FusionPreservesRuns(m, s, ms);
    RunIsSteps(m, Reset(s), gas);
    var j := if gas > 1 then gas - 1 else 0;
    if j < n {
      StaysEnded(m, Reset(s), j, n);
      EndedBefore(m, Reset(s), n - 1, j);
    } else {
      StaysEnded(m, Reset(s), n, j);
    }
    NoTurn(m, Reset(s));
    GasIsEnough(m', Reset(s), k, gas);
  }

  // ----- dumps are never changed -----

  /** No dump is gone, and every dump has kept its goroutines, possibly with more behind them. */
  ghost predicate HeapExtends(before: seq<Dump>, after: seq<Dump>) {
    && |before| <= |after|
    && forall i | 0 <= i < |before| :: before[i].goroutines <= after[i].goroutines
  }

  lemma DispatchExtends(m: Setup, s: State, i: Instr)
    requires s.frames != []
    ensures HeapExtends(s.heap, Dispatch(m, s, i).s.heap)
  {
    hide OpComparison, OpRegexMatches, OpLoadGoroutineDump, OpLoadFieldAccessor, OpLoadNumber, OpLoadString, OpSet,
      OpFuncLoad, OpAssignment, OpNextGoroutine, OpConditionalJump, SetIp;
    match i.op
    case LoadGoroutineDump => LoadsExtend(m, s, i.arg);
    case LoadFieldAccessor => LoadsExtend(m, s, i.arg);
    case LoadNumber => LoadsExtend(m, s, i.arg);
    case LoadString => LoadsExtend(m, s, i.arg);
    case Assignment => AssignmentExtends(m, s, i.arg);
    case NextGoroutine => NextExtends(m, s, i.arg);
    case JumpIfFalse => JumpsExtend(s, i.op, i.arg);
    case JumpIfTrue => JumpsExtend(s, i.op, i.arg);
    case JumpTo => SetIpExtends(s, i.arg - 1);
    case Return => ReturnExtends(s);
    case RegexMatches => RegexExtends(m, s, i.op);
    case RegexNotMatches => RegexExtends(m, s, i.op);
    case FuncUnion => SetExtends(m, s, i.op);
    case FuncIntersect => SetExtends(m, s, i.op);
    case FuncGraph => SetExtends(m, s, i.op);
    case FuncDiff => SetExtends(m, s, i.op);
    case FuncLoad => FuncLoadExtends(m, s);
    case _ => ComparisonExtends(m, s, i.op);
  }

  lemma SetIpExtends(s: State, ip: int)
    requires s.frames != []
    ensures SetIp(s, ip).heap == s.heap
  {
  }

  lemma ReturnExtends(s: State)
    requires s.frames != []
    ensures OpReturn(s).s.heap == s.heap
  {
  }

  lemma LoadsExtend(m: Setup, s: State, index: nat)
    ensures OpLoadGoroutineDump(m, s, index).s.heap == s.heap && OpLoadFieldAccessor(m, s, index).s.heap == s.heap
    ensures OpLoadNumber(m, s, index).s.heap == s.heap && OpLoadString(m, s, index).s.heap == s.heap
  {
    hide FieldValue;
  }

  lemma AssignmentExtends(m: Setup, s: State, index: nat)
    ensures OpAssignment(m, s, index).s.heap == s.heap
  {
  }

  lemma NextExtends(m: Setup, s: State, addr: nat)
    requires s.frames != []
    ensures HeapExtends(s.heap, OpNextGoroutine(m, s, addr).s.heap)
  {
  }

  lemma JumpsExtend(s: State, op: OpCode, addr: nat)
    requires s.frames != []
    ensures OpConditionalJump(s, op, addr).s.heap == s.heap
  {
  }

  lemma RegexExtends(m: Setup, s: State, op: OpCode)
    ensures OpRegexMatches(m, s, op).s.heap == s.heap
  {
  }

  lemma PushKeeps(m: Setup)
    ensures forall s, v :: Push(m, s, v).s.heap == s.heap
    ensures forall s :: PopDump(s).Ok? ==> s.stack != [] && PopDump(s).value < |s.heap|
  {
  }

  lemma CombineExtends(m: Setup, s: State, op: OpCode, top: seq<Goroutine>, below: seq<Goroutine>)
    ensures HeapExtends(s.heap, Combine(m, s, op, top, below).s.heap)
  {
    hide Shared, Unshared, InGraph, Push;
    PushKeeps(m);
  }

  lemma SetExtends(m: Setup, s: State, op: OpCode)
    ensures HeapExtends(s.heap, OpSet(m, s, op).s.heap)
  {
    hide Combine, PopDump;
    PushKeeps(m);
    if PopDump(s).Ok? && PopDump(Pop(s)).Ok? {
      CombineExtends(m, Pop(Pop(s)), op, s.heap[PopDump(s).value].goroutines, s.heap[PopDump(Pop(s)).value].goroutines);
    }
  }

  lemma FuncLoadExtends(m: Setup, s: State)
    ensures HeapExtends(s.heap, OpFuncLoad(m, s).s.heap)
  {
  }

  lemma ComparisonExtends(m: Setup, s: State, op: OpCode)
    ensures OpComparison(m, s, op).s.heap == s.heap
  {
    hide Comparison, Containment;
  }

  lemma {:induction false} StepsExtend(m: Setup, s: State, n: nat)
    ensures HeapExtends(s.heap, Steps(m, s, n).s.heap)
    decreases n
  {
    hide Dispatch;
    if n > 0 {
      if s.frames != [] && Fetch(m, s).Some? {
        DispatchExtends(m, SetIp(s, Ip(s) + 1), Fetch(m, s).value);
      }
      if Step(m, s).At? {
        StepsExtend(m, Step(m, s).s, n - 1);
      }
    }
  }

  /**
   * Dumps are immutable: at every point of a run, with whatever gas and however
   * it ends, every dump that existed before still has the same goroutines.
   */
  lemma DumpsImmutable(m: Setup, s: State, ms: seq<Macro>, gas: int)
    requires Linked(m.code, ms) && EnvProper(s)
    ensures HeapGrows(s.heap, Run(m, Reset(s), gas).s.heap)
  {
    hide Steps, Linked, Run, Exec, ExecCost;
    var n := ProgramRun(m, s, ms);
    RunIsSteps(m, Reset(s), gas);
    var j := if gas > 1 then gas - 1 else 0;
    StepsExtend(m, Reset(s), j);
    if j < n {
      if Steps(m, Reset(s), j).At? {
        StepsThen(m, Reset(s), j, n - j);
        StepsExtend(m, Steps(m, Reset(s), j).s, n - j);
      } else {
        StaysEnded(m, Reset(s), j, n);
      }
    } else {
      StaysEnded(m, Reset(s), n, j);
    }
  }

  /** With gas, a run ends as without it or out of gas. */
  lemma RunEnds(m: Setup, s: State, ms: seq<Macro>, gas: int)
    requires Linked(m.code, ms) && EnvProper(s)
    ensures var out := Run(m, Reset(s), gas);
            (out.Failed? && out.e == OutOfGas) || ProgramResult(m, s, ms, out)
  {
    hide Steps, Linked, Run, Exec, ExecCost;
    var n := ProgramRun(m, s, ms);
    RunIsSteps(m, Reset(s), gas);
    var j := if gas > 1 then gas - 1 else 0;
    if !Steps(m, Reset(s), j).At? {
      if j < n {
        StaysEnded(m, Reset(s), j, n);
      } else {
        StaysEnded(m, Reset(s), n, j);
      }
    }
  }
}
