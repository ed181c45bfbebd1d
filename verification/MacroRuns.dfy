/**
 * The main chunk on the machine: the code of a list of macros does what the
 * macros mean, on stacks and environments seen through the heap.
 */
module MacroRuns {
  import opened Results
  import opened Goroutines
  import opened Chunks
  import opened Predicates
  import opened Codegen
  import opened Machine
  import opened PredicateRuns
  import opened Pipelines
  import opened LoopRuns

  // ----- looking through the heap -----

  function Contents(heap: seq<Dump>, a: nat): seq<Goroutine> {
    if a < |heap| then heap[a].goroutines else []
  }

  function Deref(heap: seq<Dump>, v: Value<nat>): AValue {
    match v
    case VScalar(x) => VScalar(x)
    case VDump(a) => VDump(Contents(heap, a))
    case VGoroutine(g) => VGoroutine(g)
    case VDiff(l, c, r) => VDiff(Contents(heap, l), Contents(heap, c), Contents(heap, r))
  }

  function DerefStack(heap: seq<Dump>, stack: seq<Value<nat>>): (r: seq<AValue>)
    ensures |r| == |stack|
    ensures forall i | 0 <= i < |r| :: r[i] == Deref(heap, stack[i])
  {
    seq(|stack|, i requires 0 <= i < |stack| => Deref(heap, stack[i]))
  }

  function DerefEnv(heap: seq<Dump>, env: map<string, Value<nat>>): map<string, AValue> {
    map x | x in env :: Deref(heap, env[x])
  }

  function Abs(s: State): AState {
    AState(DerefStack(s.heap, s.stack), DerefEnv(s.heap, s.env))
  }

  /** The addresses of v exist, and v is not a goroutine. */
  predicate Proper(heap: seq<Dump>, v: Value<nat>) {
    match v
    case VScalar(_) => true
    case VDump(a) => a < |heap|
    case VGoroutine(_) => false
    case VDiff(l, c, r) => l < |heap| && c < |heap| && r < |heap|
  }

  /** The machine is in the main chunk, about to execute address base, between macros. */
  ghost predicate Ready(m: Setup, s: State, base: nat) {
    && |m.code.chunks| > 0
    && |s.frames| == 1 && s.frames[0].chunk == 0
    && Before(m, s, m.code.chunks[0], base)
    && CacheOk(m.world, s.cache)
    && (forall v | v in s.stack :: Proper(s.heap, v))
    && EnvProper(s)
  }

  ghost predicate EnvProper(s: State) {
    forall x | x in s.env :: Proper(s.heap, s.env[x])
  }

  lemma HeapGrowsTrans(a: seq<Dump>, b: seq<Dump>, c: seq<Dump>)
    requires HeapGrows(a, b) && HeapGrows(b, c)
    ensures HeapGrows(a, c)
  {
  }

  lemma DerefGrows(before: seq<Dump>, after: seq<Dump>, v: Value<nat>)
    requires HeapGrows(before, after) && Proper(before, v)
    ensures Proper(after, v) && Deref(after, v) == Deref(before, v)
  {
  }

  lemma EnvGrows(before: seq<Dump>, after: seq<Dump>, env: map<string, Value<nat>>)
    requires HeapGrows(before, after) && forall x | x in env :: Proper(before, env[x])
    ensures forall x | x in env :: Proper(after, env[x])
    ensures DerefEnv(after, env) == DerefEnv(before, env)
  {
    forall x | x in env ensures Proper(after, env[x]) && Deref(after, env[x]) == Deref(before, env[x]) {
      DerefGrows(before, after, env[x]);
    }
  }

  lemma StackGrows(before: seq<Dump>, after: seq<Dump>, stack: seq<Value<nat>>)
    requires HeapGrows(before, after) && forall v | v in stack :: Proper(before, v)
    ensures forall v | v in stack :: Proper(after, v)
    ensures DerefStack(after, stack) == DerefStack(before, stack)
  {
    forall v | v in stack ensures Proper(after, v) && Deref(after, v) == Deref(before, v) {
      DerefGrows(before, after, v);
    }
  }

  lemma DerefConcat(heap: seq<Dump>, a: seq<Value<nat>>, b: seq<Value<nat>>)
    ensures DerefStack(heap, a + b) == DerefStack(heap, a) + DerefStack(heap, b)
  {
  }

  // ----- one macro -----

  /** The result of running the code of macro mac at base from s, n steps. */
  ghost predicate MacroResult(m: Setup, s: State, mac: Macro, base: nat, n: nat) {
    var out := Steps(m, s, n);
    match ExecMacro(m.world, m.limit, mac, Abs(s))
    case Ok(a) =>
      && out.At? && Ready(m, out.s, base + MacroLen(mac)) && Abs(out.s) == a
      && HeapGrows(s.heap, out.s.heap)
      && n == MacroCost(m.world, m.limit, mac, Abs(s))
    case Err(e) => out.Failed? && out.e == e && HeapGrows(s.heap, out.s.heap)
  }

  /** A state in which values drop from the stack and one is pushed; dumps may have been added to the heap. */
  lemma Replaced(m: Setup, s: State, base: nat, s': State, len: nat, rest: seq<Value<nat>>, v: Value<nat>)
    requires Ready(m, s, base) && rest <= s.stack && |rest| < m.limit
    requires s'.frames == SetIp(s, base + len - 1).frames && s'.env == s.env && s'.stack == rest + [v]
    requires HeapGrows(s.heap, s'.heap) && Proper(s'.heap, v) && CacheOk(m.world, s'.cache)
    ensures Ready(m, s', base + len)
    ensures Abs(s') == Replace(Abs(s), |s.stack| - |rest|, Deref(s'.heap, v))
  {
    EnvGrows(s.heap, s'.heap, s.env);
    StackGrows(s.heap, s'.heap, s.stack);
    assert forall x | x in rest :: x in s.stack;
    DerefConcat(s'.heap, rest, [v]);
    assert DerefStack(s'.heap, rest) == DerefStack(s'.heap, s.stack)[..|rest|];
  }

  lemma LoopMacro(m: Setup, s: State, base: nat, fs: seq<Filter>) returns (n: nat)
    requires Ready(m, s, base) && FiltersLinked(m.code, fs)
    requires CodeAt(m.code.chunks[0], base, LoopCode(fs, base))
    ensures MacroResult(m, s, Loop(fs), base, n)
  {
    hide LoopCode, Survivors, FiltersLinked, Steps, IterCost, CodeAt, CacheOk;
    var ops := m.code.chunks[0];
    if s.stack != [] && Top(s).VDump? {
      var rest, a := s.stack[..|s.stack| - 1], Top(s).dump;
      assert s.stack == rest + [VDump(a)];
      assert Top(s) in s.stack;
      assert ATop(Abs(s)) == Deref(s.heap, Top(s));
      n := LoopRun(m, s, ops, base, fs, rest, a);
      if Survivors(m.world, fs, s.heap[a].goroutines, Room(m, s)).Ok? {
        Replaced(m, s, base, Steps(m, s, n).s, MacroLen(Loop(fs)), rest, VDump(|s.heap|));
      }
    } else {
      n := NotADump(m, s, base, fs);
    }
  }

  lemma NoDumpRuns(m: Setup, s: State, ops: Chunk, base: nat, fs: seq<Filter>)
    requires Before(m, s, ops, base) && CodeAt(ops, base, LoopCode(fs, base))
    requires s.stack == [] || !(Top(s).VDump? || Top(s).VGoroutine?)
    ensures var out := Steps(m, s, 2); out.Failed? && out.e == UnexpectedStackState && HeapGrows(s.heap, out.s.heap)
  {
    hide LoopCode, Steps, CodeAt;
    LoopParts(ops, base, fs);
    OneStep(m, s, ops[base]);
    var s1 := OpTempDump(SetIp(s, base));
    assert Steps(m, s, 1) == At(s1);
    OneStep(m, s1, ops[base + 1]);
    StepsJoin(m, s, 1, s1, 1);
  }

  lemma NotADump(m: Setup, s: State, base: nat, fs: seq<Filter>) returns (n: nat)
    requires Ready(m, s, base) && (s.stack == [] || !Top(s).VDump?)
    requires CodeAt(m.code.chunks[0], base, LoopCode(fs, base))
    ensures MacroResult(m, s, Loop(fs), base, n)
  {
    hide LoopCode, Survivors, Steps, IterCost, CodeAt, CacheOk, Before, HeapGrows, EnvProper;
    if s.stack != [] {
      assert Top(s) in s.stack;
      assert ATop(Abs(s)) == Deref(s.heap, Top(s));
    }
    NoDumpRuns(m, s, m.code.chunks[0], base, fs);
    n := 2;
  }

  lemma FetchOne(m: Setup, s: State, base: nat, i: Instr)
    requires Ready(m, s, base) && CodeAt(m.code.chunks[0], base, [i])
    ensures Steps(m, s, 1) == Dispatch(m, SetIp(s, base), i)
  {
    hide Steps, Dispatch;
    FetchAt(m, s, m.code.chunks[0], base, [i]);
    OneStep(m, s, i);
  }

  /** The state behind an instruction that pushes v. */
  lemma PushedOne(m: Setup, s: State, base: nat, len: nat, v: Value<nat>)
    requires Ready(m, s, base) && |s.stack| < m.limit && Proper(s.heap, v)
    ensures var s' := SetIp(s, base + len - 1).(stack := s.stack + [v]);
            Ready(m, s', base + len) && Ok(Abs(s')) == PushA(m.limit, Abs(s), Deref(s.heap, v))
  {
    var s' := SetIp(s, base + len - 1).(stack := s.stack + [v]);
    Replaced(m, s, base, s', len, s.stack, v);
    assert Abs(s').stack == Abs(s).stack + [Deref(s.heap, v)];
  }

  lemma LoadMacro(m: Setup, s: State, base: nat, name: string)
    requires Ready(m, s, base) && CStr(name) in m.code.consts
    requires CodeAt(m.code.chunks[0], base, MacroCode(Load(name), base, m.code.consts))
    ensures MacroResult(m, s, Load(name), base, 1)
  {
    hide Steps, CodeAt;
    FetchOne(m, s, base, Instr(LoadGoroutineDump, IndexOf(m.code.consts, CStr(name))));
    if name in s.env && s.env[name].VDump? && |s.stack| < m.limit {
      PushedOne(m, s, base, 1, s.env[name]);
    }
  }

  lemma DupMacro(m: Setup, s: State, base: nat)
    requires Ready(m, s, base)
    requires CodeAt(m.code.chunks[0], base, MacroCode(DupTop, base, m.code.consts))
    ensures MacroResult(m, s, DupTop, base, 1)
  {
    hide Steps, CodeAt;
    FetchOne(m, s, base, Instr(Dup, 0));
    if s.stack != [] && |s.stack| < m.limit {
      assert Top(s) in s.stack;
      PushedOne(m, s, base, 1, Top(s));
    }
  }

  lemma LoadFileMacro(m: Setup, s: State, base: nat, path: string) returns (n: nat)
    requires Ready(m, s, base) && CStr(path) in m.code.consts
    requires CodeAt(m.code.chunks[0], base, MacroCode(LoadFile(path), base, m.code.consts))
    ensures MacroResult(m, s, LoadFile(path), base, n)
  {
    hide Steps, CodeAt;
    var load, call := Instr(LoadString, IndexOf(m.code.consts, CStr(path))), Instr(FuncLoad, 0);
    assert [load, call] == [load] + [call];
    CodeAtParts(m.code.chunks[0], base, [load], [call]);
    FetchOne(m, s, base, load);
    n := 1;
    if |s.stack| < m.limit {
      var s1 := SetIp(s, base).(stack := s.stack + [VScalar(SStr(path))]);
      assert Steps(m, s, 1) == At(s1);
      PushedOne(m, s, base, 1, VScalar(SStr(path)));
      FetchOne(m, s1, base + 1, call);
      StepsJoin(m, s, 1, s1, 1);
      n := 2;
      LoadFileCall(m, s, base, path);
    }
  }

  lemma LoadFileCall(m: Setup, s: State, base: nat, path: string)
    requires Ready(m, s, base) && |s.stack| < m.limit
    ensures var s1 := SetIp(s, base + 1).(stack := s.stack + [VScalar(SStr(path))]);
            var out := Dispatch(m, s1, Instr(FuncLoad, 0));
            if m.world.load(path).None? then out == Failed(LoadFailed, Pop(s1))
            else
              && out.At? && Ready(m, out.s, base + 2) && HeapGrows(s.heap, out.s.heap)
              && Ok(Abs(out.s)) == PushA(m.limit, Abs(s), VDump(m.world.load(path).value))
  {
    var s1 := SetIp(s, base + 1).(stack := s.stack + [VScalar(SStr(path))]);
    assert Pop(s1).stack == s.stack;
    if m.world.load(path).Some? {
      var s2 := Dispatch(m, s1, Instr(FuncLoad, 0)).s;
      Replaced(m, s, base, s2, 2, s.stack, VDump(|s.heap|));
      assert Abs(s2).stack == Abs(s).stack + [VDump(m.world.load(path).value)];
    }
  }

  function SetOp(mac: Macro): OpCode
    requires mac.Graph? || mac.Union? || mac.Intersect? || mac.Diff?
  {
    match mac
    case Graph => FuncGraph
    case Union => FuncUnion
    case Intersect => FuncIntersect
    case Diff => FuncDiff
  }

  lemma SetDispatched(m: Setup, s: State, mac: Macro)
    requires mac.Graph? || mac.Union? || mac.Intersect? || mac.Diff?
    requires s.frames != []
    ensures Dispatch(m, s, Instr(SetOp(mac), 0)) == OpSet(m, s, SetOp(mac))
  {
    hide OpSet;
  }

  /** The new dumps of a set operation. */
  lemma CombineRuns(m: Setup, s: State, mac: Macro, top: seq<Goroutine>, below: seq<Goroutine>)
    returns (s': State, v: Value<nat>)
    requires mac.Graph? || mac.Union? || mac.Intersect? || mac.Diff?
    requires |s.stack| < m.limit
    ensures Combine(m, s, SetOp(mac), top, below) == At(s')
    ensures s'.frames == s.frames && s'.env == s.env && s'.cache == s.cache && s'.stack == s.stack + [v]
    ensures HeapGrows(s.heap, s'.heap) && Proper(s'.heap, v)
    ensures Deref(s'.heap, v) == ExecSet(m.world, mac, top, below)
  {
    s' := Combine(m, s, SetOp(mac), top, below).s;
    v := Top(s');
  }

  /** Two dumps are popped, and one or three new dumps are made from their contents. */
  lemma SetRuns(m: Setup, s: State, mac: Macro, rest: seq<Value<nat>>, b: nat, a: nat)
    returns (s': State, v: Value<nat>)
    requires mac.Graph? || mac.Union? || mac.Intersect? || mac.Diff?
    requires s.frames != [] && s.stack == rest + [VDump(b), VDump(a)] && |s.stack| <= m.limit
    requires a < |s.heap| && b < |s.heap|
    ensures Dispatch(m, s, Instr(SetOp(mac), 0)) == At(s')
    ensures s'.frames == s.frames && s'.env == s.env && s'.cache == s.cache && s'.stack == rest + [v]
    ensures HeapGrows(s.heap, s'.heap) && Proper(s'.heap, v)
    ensures Deref(s'.heap, v) == ExecSet(m.world, mac, s.heap[a].goroutines, s.heap[b].goroutines)
  {
    hide Dispatch, Combine, ExecSet, SetOp, HeapGrows, Proper, Deref;
    SetDispatched(m, s, mac);
    assert Pop(s).stack == rest + [VDump(b)];
    assert Pop(Pop(s)).stack == rest;
    s', v := CombineRuns(m, Pop(Pop(s)), mac, s.heap[a].goroutines, s.heap[b].goroutines);
  }

  /** The two dumps on top of the stack, and their contents. */
  lemma TwoOnTop(m: Setup, s: State, base: nat) returns (rest: seq<Value<nat>>, b: nat, a: nat)
    requires Ready(m, s, base) && TopTwo(Abs(s)).Ok?
    ensures s.stack == rest + [VDump(b), VDump(a)] && a < |s.heap| && b < |s.heap| && |s.stack| <= m.limit
    ensures TopTwo(Abs(s)).value == (s.heap[a].goroutines, s.heap[b].goroutines)
  {
    var n := |s.stack|;
    rest, b, a := s.stack[..n - 2], s.stack[n - 2].dump, s.stack[n - 1].dump;
    assert s.stack[n - 2] in s.stack && s.stack[n - 1] in s.stack;
    assert Abs(s).stack[n - 1] == Deref(s.heap, s.stack[n - 1]);
    assert Abs(s).stack[n - 2] == Deref(s.heap, s.stack[n - 2]);
  }

  lemma ReadyParts(m: Setup, s: State, base: nat)
    requires Ready(m, s, base)
    ensures s.frames != []
    ensures SetIp(s, base).stack == s.stack && SetIp(s, base).heap == s.heap && SetIp(s, base).env == s.env
    ensures SetIp(s, base).frames != [] && SetIp(s, base).cache == s.cache && CacheOk(m.world, s.cache)
    ensures SetIp(s, base).frames == SetIp(s, base + 1 - 1).frames
    ensures Abs(SetIp(s, base)) == Abs(s) && forall v | v in s.stack :: Proper(s.heap, v)
  {
  }

  lemma SetExec(w: World, limit: nat, mac: Macro, a: AState)
    requires mac.Graph? || mac.Union? || mac.Intersect? || mac.Diff?
    ensures match TopTwo(a)
            case Err(e) => ExecMacro(w, limit, mac, a) == Err(e)
            case Ok(two) =>
              |a.stack| >= 2 && ExecMacro(w, limit, mac, a) == Ok(Replace(a, 2, ExecSet(w, mac, two.0, two.1)))
    ensures MacroCost(w, limit, mac, a) == 1 && MacroLen(mac) == 1
  {
    hide ExecSet;
  }

  lemma SetMacroRuns(m: Setup, s: State, base: nat, mac: Macro)
    requires mac.Graph? || mac.Union? || mac.Intersect? || mac.Diff?
    requires Ready(m, s, base) && CodeAt(m.code.chunks[0], base, [Instr(SetOp(mac), 0)])
    ensures MacroResult(m, s, mac, base, 1)
  {
    hide Steps, CodeAt, ExecSet, Dispatch, SetOp, Ready, Abs, TopTwo, ExecMacro, MacroCost, MacroLen, SetIp, Proper,
      Deref, CacheOk;
    FetchOne(m, s, base, Instr(SetOp(mac), 0));
    ReadyParts(m, s, base);
    SetExec(m.world, m.limit, mac, Abs(s));
    if TopTwo(Abs(s)).Ok? {
      var rest, b, a := TwoOnTop(m, s, base);
      var s', v := SetRuns(m, SetIp(s, base), mac, rest, b, a);
      Replaced(m, s, base, s', 1, rest, v);
    } else {
      SetFails(m, SetIp(s, base), mac);
    }
  }

  lemma SetFails(m: Setup, s: State, mac: Macro)
    requires mac.Graph? || mac.Union? || mac.Intersect? || mac.Diff?
    requires s.frames != [] && TopTwo(Abs(s)).Err? && forall v | v in s.stack :: Proper(s.heap, v)
    ensures FailedClean(Dispatch(m, s, Instr(SetOp(mac), 0)), TopTwo(Abs(s)).error, s)
  {
    hide Dispatch, Combine, SetOp;
    SetDispatched(m, s, mac);
    var n := |s.stack|;
    if n > 0 {
      assert Top(s) in s.stack;
      assert Abs(s).stack[n - 1] == Deref(s.heap, Top(s));
    }
    if n > 1 {
      assert s.stack[n - 2] in s.stack;
      assert Top(Pop(s)) == s.stack[n - 2];
      assert Abs(s).stack[n - 2] == Deref(s.heap, s.stack[n - 2]);
    }
  }

  // ----- assignment -----

  lemma BindDeref(m: Setup, s: State, base: nat, name: string, v: Value<nat>)
    requires Ready(m, s, base) && Proper(s.heap, v)
    ensures var s' := s.(env := s.env[name := v]);
            Ready(m, s', base) && Abs(s') == Abs(s).(env := Abs(s).env[name := Deref(s.heap, v)])
  {
    var s' := s.(env := s.env[name := v]);
    assert DerefEnv(s.heap, s'.env) == DerefEnv(s.heap, s.env)[name := Deref(s.heap, v)];
  }

  lemma AssignMacro(m: Setup, s: State, base: nat, name: string)
    requires Ready(m, s, base) && CStr(name) in m.code.consts
    requires CodeAt(m.code.chunks[0], base, MacroCode(Assign(name), base, m.code.consts))
    ensures MacroResult(m, s, Assign(name), base, 1)
  {
    hide Steps, CodeAt, IndexOf;
    FetchOne(m, s, base, Instr(Assignment, IndexOf(m.code.consts, CStr(name))));
    if s.stack != [] {
      assert Top(s) in s.stack;
      BindDeref(m, s, base, name, Top(s));
    }
  }

  lemma AssignOne(m: Setup, s: State, base: nat, index: nat, name: string, a: nat)
    requires Ready(m, s, base) && index < |m.code.consts| && m.code.consts[index] == CStr(name) && a < |s.heap|
    ensures var out := AssignName(m, s, index, VDump(a));
            && out.At? && Ready(m, out.s, base)
            && out.s.heap == s.heap && out.s.stack == s.stack && out.s.frames == s.frames
            && Abs(out.s) == Bind(Abs(s), name, VDump(s.heap[a].goroutines))
  {
    BindDeref(m, s, base, name, VDump(a));
  }

  lemma MultiAssignRuns(m: Setup, s: State, base: nat, names: seq<string>, targets: seq<nat>)
    requires Ready(m, s, base) && |targets| == |names|
    requires forall i | 0 <= i < |targets| ::
               targets[i] < |m.code.consts| && m.code.consts[targets[i]] == CStr(names[i])
    ensures var out := MultiAssign(m, s, targets);
            match ExecAssignMany(Abs(s), names)
            case Ok(a) => out.At? && Ready(m, out.s, base) && Abs(out.s) == a && out.s.heap == s.heap
            case Err(e) => FailedClean(out, e, s)
  {
    hide AssignName, Bind;
    if s.stack != [] {
      assert Top(s) in s.stack;
      assert ATop(Abs(s)) == Deref(s.heap, Top(s));
      if Top(s).VDiff? && |targets| == 3 {
        var v := Top(s);
        AssignOne(m, s, base, targets[0], names[0], v.left);
        var s1 := AssignName(m, s, targets[0], VDump(v.left)).s;
        AssignOne(m, s1, base, targets[1], names[1], v.common);
        var s2 := AssignName(m, s1, targets[1], VDump(v.common)).s;
        AssignOne(m, s2, base, targets[2], names[2], v.right);
      }
    }
  }

  lemma AssignManyMacro(m: Setup, s: State, base: nat, names: seq<string>)
    requires Ready(m, s, base) && MacroInterned(AssignMany(names), m.code.consts)
    requires CodeAt(m.code.chunks[0], base, MacroCode(AssignMany(names), base, m.code.consts))
    ensures MacroResult(m, s, AssignMany(names), base, 1)
  {
    hide Steps, CodeAt, MultiAssign, ExecAssignMany;
    var targets := Targets(names, m.code.consts);
    FetchOne(m, s, base, Instr(Assignment, IndexOf(m.code.consts, CMulti(targets))));
    forall i | 0 <= i < |names|
      ensures targets[i] < |m.code.consts| && m.code.consts[targets[i]] == CStr(names[i])
    {
      assert names[i] in names;
    }
    MultiAssignRuns(m, SetIp(s, base), base + 1, names, targets);
  }

  // ----- all macros -----

  ghost predicate LoopsLinked(code: Code, ms: seq<Macro>) {
    forall mac | mac in ms && mac.Loop? :: FiltersLinked(code, mac.filters)
  }

  lemma MacroRun(m: Setup, s: State, base: nat, mac: Macro) returns (n: nat)
    requires Ready(m, s, base) && MacroInterned(mac, m.code.consts)
    requires mac.Loop? ==> FiltersLinked(m.code, mac.filters)
    requires CodeAt(m.code.chunks[0], base, MacroCode(mac, base, m.code.consts))
    ensures MacroResult(m, s, mac, base, n)
  {
    hide MacroResult, CodeAt, LoopCode, Ready;
    n := 1;
    match mac
    case Load(name) => LoadMacro(m, s, base, name);
    case LoadFile(path) => n := LoadFileMacro(m, s, base, path);
    case Loop(fs) => n := LoopMacro(m, s, base, fs);
    case DupTop => DupMacro(m, s, base);
    case Assign(name) => AssignMacro(m, s, base, name);
    case AssignMany(names) => AssignManyMacro(m, s, base, names);
    case _ => SetMacroRuns(m, s, base, mac);
  }

  ghost predicate MacrosResult(m: Setup, s: State, ms: seq<Macro>, base: nat, n: nat) {
    var out := Steps(m, s, n);
    match Exec(m.world, m.limit, ms, Abs(s))
    case Ok(a) =>
      && out.At? && Ready(m, out.s, base + Length(ms)) && Abs(out.s) == a
      && HeapGrows(s.heap, out.s.heap)
      && n == ExecCost(m.world, m.limit, ms, Abs(s))
    case Err(e) => out.Failed? && out.e == e && HeapGrows(s.heap, out.s.heap)
  }

  lemma {:induction false} MacrosRun(m: Setup, s: State, base: nat, ms: seq<Macro>) returns (n: nat)
    requires Ready(m, s, base) && |m.code.chunks| > 0
    requires MacrosInterned(ms, m.code.consts) && LoopsLinked(m.code, ms)
    requires CodeAt(m.code.chunks[0], base, Layout(ms, base, m.code.consts))
    ensures MacrosResult(m, s, ms, base, n)
    decreases |ms|
  {
    hide MacroInterned, FiltersLinked, CodeAt, MacroCode, Ready, ExecMacro, MacroCost, Step;
    n := 0;
    if ms != [] {
      assert ms[0] in ms && (forall mac | mac in ms[1..] :: mac in ms);
      CodeAtParts(m.code.chunks[0], base, MacroCode(ms[0], base, m.code.consts),
        Layout(ms[1..], base + MacroLen(ms[0]), m.code.consts));
      n := MacroRun(m, s, base, ms[0]);
      if Steps(m, s, n).At? {
        var k := MacrosRun(m, Steps(m, s, n).s, base + MacroLen(ms[0]), ms[1..]);
        StepsJoin(m, s, n, Steps(m, s, n).s, k);
        n := n + k;
      }
    }
  }
}
