/**
 * Filter loops on the machine: the loop from TempDump to PushDump replaces the
 * dump on the stack by a new one that holds exactly the surviving goroutines
 * in order. It ends because goroutines run out, not because gas does.
 */
module LoopRuns {
  import opened Results
  import opened Goroutines
  import opened Chunks
  import opened Predicates
  import opened Codegen
  import opened Machine
  import opened PredicateRuns
  import opened Pipelines

  /** Continue an outcome for k more turns. */
  function Continue(m: Setup, out: Outcome, k: nat): Outcome {
    match out
    case At(s) => Steps(m, s, k)
    case ended => ended
  }

  lemma {:induction false} StepsThen(m: Setup, s: State, n: nat, k: nat)
    ensures Steps(m, s, n + k) == Continue(m, Steps(m, s, n), k)
    decreases n
  {
    hide Step;
    if n > 0 && Step(m, s).At? {
      StepsThen(m, Step(m, s).s, n - 1, k);
    }
  }

  // ----- one filter -----

  /** The result of running filters on g from s: past them, back at next, or an error. */
  ghost predicate FilterResult(m: Setup, s: State, r: Result<bool>, out: Outcome, past: nat, next: nat,
                               cache: map<string, string>)
    requires s.frames != []
  {
    match r
    case Ok(b) => out == At(SetIp(s, if b then past - 1 else next - 1).(cache := cache))
    case Err(e) => FailedClean(out, e, s)
  }

  lemma CallRuns(m: Setup, s: State, f: Filter)
    requires s.frames != [] && FilterLinked(m.code, f)
    ensures Dispatch(m, s, Instr(Call, f.chunk)) == At(s.(frames := s.frames + [Frame(f.chunk, -1, Ip(s))]))
  {
  }

  lemma ReturnRuns(m: Setup, s: State, frames: seq<Frame>, f: Frame)
    requires frames != [] && s.frames == frames + [f]
    ensures Dispatch(m, s, Instr(Return, 0)) == At(SetIp(s.(frames := frames), f.ret))
  {
    assert s.frames[..|s.frames| - 1] == frames;
  }

  lemma FilterJumpRuns(m: Setup, s: State, rest: seq<Value<nat>>, f: Filter, v: Scalar, next: nat)
    requires s.frames != [] && s.stack == rest + [VScalar(v)]
    ensures Dispatch(m, s, FilterJump(f, next)) ==
            (if !v.SBool? then Failed(InvalidType, s.(stack := rest))
             else if v.b == f.keep then At(s.(stack := rest))
             else At(SetIp(s, next - 1).(stack := rest)))
  {
    assert Pop(s) == s.(stack := rest);
  }

  /** Call, predicate, Return: the value of the predicate on top of the stack, the caller's frame restored. */
  lemma PredicateCall(m: Setup, s: State, ops: Chunk, at: nat, f: Filter, g: Goroutine)
    returns (n: nat, cache: map<string, string>)
    requires Before(m, s, ops, at) && at < |ops| && ops[at] == Instr(Call, f.chunk)
    requires FilterLinked(m.code, f) && s.regGoroutine == Some(g) && CacheOk(m.world, s.cache)
    ensures CacheOk(m.world, cache)
    ensures match Eval(m.world, f.pred, g, Room(m, s))
            case Ok(v) => n == Cost(m.world, f.pred, g, Room(m, s)) + 2 && Steps(m, s, n) == At(Pushed(s, at, v, cache))
            case Err(e) => FailedClean(Steps(m, s, n), e, s)
  {
    hide Dispatch, Steps, ExprCode, Known, Interned;
    OneStep(m, s, ops[at]);
    CallRuns(m, SetIp(s, at), f);
    var s1 := SetIp(s, at).(frames := SetIp(s, at).frames + [Frame(f.chunk, -1, at)]);
    var chunk := m.code.chunks[f.chunk];
    var k;
    k, cache := ExprRuns(m, s1, chunk, 0, f.pred, g);
    StepsJoin(m, s, 1, s1, k);
    n := 1 + k;
    if Eval(m.world, f.pred, g, Room(m, s)).Ok? {
      var v := Eval(m.world, f.pred, g, Room(m, s)).value;
      var s2 := Pushed(s1, Size(f.pred) - 1, v, cache);
      assert chunk[Size(f.pred)] == Instr(Return, 0);
      OneStep(m, s2, Instr(Return, 0));
      var s3 := SetIp(s2, Size(f.pred));
      ReturnRuns(m, s3, SetIp(s, at).frames, s3.frames[|s3.frames| - 1]);
      assert SetIp(s3.(frames := SetIp(s, at).frames), at) == Pushed(s, at, v, cache);
      StepsJoin(m, s, n, s2, 1);
      n := n + 1;
    }
  }

  lemma FilterRuns(m: Setup, s: State, ops: Chunk, at: nat, f: Filter, next: nat, g: Goroutine)
    returns (n: nat, cache: map<string, string>)
    requires Before(m, s, ops, at) && at + 1 < |ops|
    requires ops[at] == Instr(Call, f.chunk) && ops[at + 1] == FilterJump(f, next)
    requires FilterLinked(m.code, f) && s.regGoroutine == Some(g) && CacheOk(m.world, s.cache)
    ensures CacheOk(m.world, cache)
    ensures FilterResult(m, s, Accept(m.world, f, g, Room(m, s)), Steps(m, s, n), at + 2, next, cache)
    ensures Accept(m.world, f, g, Room(m, s)).Ok? ==> n == FilterCost(m.world, f, g, Room(m, s))
  {
    hide Dispatch, Steps, FilterLinked, FilterJump;
    n, cache := PredicateCall(m, s, ops, at, f, g);
    if Eval(m.world, f.pred, g, Room(m, s)).Ok? {
      var v := Eval(m.world, f.pred, g, Room(m, s)).value;
      var s1 := Pushed(s, at, v, cache);
      OneStep(m, s1, ops[at + 1]);
      FilterJumpRuns(m, SetIp(s1, at + 1), s.stack, f, v, next);
      StepsJoin(m, s, n, s1, 1);
      n := n + 1;
    }
  }

  // ----- all filters on one goroutine -----

  lemma {:induction false} FiltersRun(m: Setup, s: State, ops: Chunk, at: nat, fs: seq<Filter>, next: nat, g: Goroutine)
    returns (n: nat, cache: map<string, string>)
    requires Before(m, s, ops, at) && CodeAt(ops, at, FilterCalls(fs, next))
    requires FiltersLinked(m.code, fs) && s.regGoroutine == Some(g) && CacheOk(m.world, s.cache)
    ensures CacheOk(m.world, cache)
    ensures FilterResult(m, s, AcceptAll(m.world, fs, g, Room(m, s)), Steps(m, s, n), at + 2 * |fs|, next, cache)
    ensures AcceptAll(m.world, fs, g, Room(m, s)).Ok? ==> n == FiltersCost(m.world, fs, g, Room(m, s))
    decreases |fs|
  {
    hide Step, Accept, FilterLinked, FilterJump, FilterCost, CodeAt, CacheOk;
    if fs == [] {
      n, cache := 0, s.cache;
    } else {
      var pair := [Instr(Call, fs[0].chunk), FilterJump(fs[0], next)];
      CodeAtParts(ops, at, pair, FilterCalls(fs[1..], next));
      CodeAtIndex(ops, at, pair, 0);
      CodeAtIndex(ops, at, pair, 1);
      n, cache := FilterRuns(m, s, ops, at, fs[0], next, g);
      if Accept(m.world, fs[0], g, Room(m, s)) == Ok(true) {
        var s1 := SetIp(s, at + 1).(cache := cache);
        var k;
        k, cache := FiltersRun(m, s1, ops, at + 2, fs[1..], next, g);
        StepsJoin(m, s, n, s1, k);
        n := n + k;
      }
    }
  }

  // ----- the loop -----

  /** The contents of every dump but d are as before, and no dump is gone. */
  ghost predicate HeapKept(before: seq<Dump>, after: seq<Dump>, d: nat) {
    && |before| == |after|
    && forall i | 0 <= i < |before| && i != d :: after[i].goroutines == before[i].goroutines
  }

  /**
   * In a loop of ops at base over the dump at address a: NextGoroutine has just
   * been fetched and found its dump on top of the stack, above rest; what has
   * survived so far is in the dump at d.
   */
  ghost predicate Looping(m: Setup, s: State, ops: Chunk, base: nat, rest: seq<Value<nat>>, a: nat, d: nat) {
    && Before(m, s, ops, base + 2)
    && s.stack == rest + [VDump(a)]
    && a < |s.heap| && d < |s.heap| && a != d
    && s.heap[a].iter <= |s.heap[a].goroutines|
    && !s.heap[d].indexed
    && s.regDump == Some(d)
    && CacheOk(m.world, s.cache)
  }

  /** The loop is over: ip is before PushDump, the dump is off the stack, and the survivors are in d. */
  ghost predicate LoopDone(m: Setup, s: State, s': State, end: nat, rest: seq<Value<nat>>, d: nat, gs: seq<Goroutine>)
    requires s.frames != [] && d < |s.heap|
  {
    && s'.frames == SetIp(s, end - 1).frames
    && s'.stack == rest
    && s'.env == s.env
    && HeapKept(s.heap, s'.heap, d)
    && s'.heap[d].goroutines == s.heap[d].goroutines + gs
    && s'.regDump == Some(d)
    && CacheOk(m.world, s'.cache)
  }

  ghost predicate LoopFailed(out: Outcome, e: Error, s: State, d: nat) {
    out.Failed? && out.e == e && HeapKept(s.heap, out.s.heap, d) && out.s.env == s.env
  }

  /** NextGoroutine with the previous goroutine on top: it is dropped and the iteration advances. */
  lemma NextRuns(m: Setup, s: State, ops: Chunk, base: nat, rest: seq<Value<nat>>, a: nat, g: Goroutine, end: nat)
    requires Before(m, s, ops, base + 1) && base + 1 < |ops| && ops[base + 1] == Instr(NextGoroutine, end)
    requires s.stack == rest + [VDump(a), VGoroutine(g)] && a < |s.heap|
    ensures Steps(m, s, 1) == Advance(m, SetIp(s, base + 1).(stack := rest + [VDump(a)]), a, end)
  {
    hide Steps, Advance;
    OneStep(m, s, ops[base + 1]);
    assert Pop(SetIp(s, base + 1)) == SetIp(s, base + 1).(stack := rest + [VDump(a)]);
  }

  lemma FirstNextRuns(m: Setup, s: State, ops: Chunk, base: nat, rest: seq<Value<nat>>, a: nat, end: nat)
    requires Before(m, s, ops, base + 1) && base + 1 < |ops| && ops[base + 1] == Instr(NextGoroutine, end)
    requires s.stack == rest + [VDump(a)] && a < |s.heap|
    ensures Steps(m, s, 1) == Advance(m, StartIter(SetIp(s, base + 1), a), a, end)
  {
    hide Steps, Advance;
    OneStep(m, s, ops[base + 1]);
  }

  /** AddGoroutine and JumpTo: the goroutine joins the dump at d and control is back before NextGoroutine. */
  lemma KeepRuns(m: Setup, s: State, ops: Chunk, at: nat, base: nat, g: Goroutine, d: nat)
    requires Before(m, s, ops, at) && at + 1 < |ops|
    requires ops[at] == Instr(AddGoroutine, 0) && ops[at + 1] == Instr(JumpTo, base + 1)
    requires s.regGoroutine == Some(g) && s.regDump == Some(d) && d < |s.heap| && !s.heap[d].indexed
    ensures var dump := s.heap[d].(goroutines := s.heap[d].goroutines + [g]);
            Steps(m, s, 2) == At(SetIp(s, base).(heap := s.heap[d := dump]))
  {
    hide Steps;
    OneStep(m, s, ops[at]);
    var dump := s.heap[d].(goroutines := s.heap[d].goroutines + [g]);
    var s1 := SetIp(s, at).(heap := s.heap[d := dump]);
    assert Steps(m, s, 1) == At(s1);
    OneStep(m, s1, ops[at + 1]);
    JumpToRuns(m, SetIp(s1, at + 1), base + 1);
    StepsJoin(m, s, 1, s1, 1);
  }

  /** The addresses of a loop's instructions. */
  lemma LoopParts(ops: Chunk, base: nat, fs: seq<Filter>)
    requires CodeAt(ops, base, LoopCode(fs, base))
    ensures var end := base + 2 * |fs| + 4;
            && end < |ops|
            && ops[base] == Instr(TempDump, 0)
            && ops[base + 1] == Instr(NextGoroutine, end)
            && CodeAt(ops, base + 2, FilterCalls(fs, base + 1))
            && ops[end - 2] == Instr(AddGoroutine, 0)
            && ops[end - 1] == Instr(JumpTo, base + 1)
            && ops[end] == Instr(PushDump, 0)
  {
    hide FilterCalls;
    var end := base + 2 * |fs| + 4;
    var head := [Instr(TempDump, 0), Instr(NextGoroutine, end)];
    var tail := [Instr(AddGoroutine, 0), Instr(JumpTo, base + 1), Instr(PushDump, 0)];
    CodeAtParts(ops, base, head + FilterCalls(fs, base + 1), tail);
    CodeAtParts(ops, base, head, FilterCalls(fs, base + 1));
    assert forall i | 0 <= i < 2 :: ops[base..base + 2][i] == head[i];
    assert forall i | 0 <= i < 3 :: ops[end - 2..end + 1][i] == tail[i];
  }

  function AppendTo(heap: seq<Dump>, d: nat, g: Goroutine): seq<Dump>
    requires d < |heap|
  {
    heap[d := heap[d].(goroutines := heap[d].goroutines + [g])]
  }

  /**
   * From a goroutine on the stack back to the state before NextGoroutine: the filters, and if all accept,
   * AddGoroutine and JumpTo.
   */
  lemma BodyRuns(m: Setup, s: State, ops: Chunk, base: nat, fs: seq<Filter>, g: Goroutine, d: nat)
    returns (n: nat, cache: map<string, string>)
    requires CodeAt(ops, base, LoopCode(fs, base)) && FiltersLinked(m.code, fs) && CacheOk(m.world, s.cache)
    requires Before(m, s, ops, base + 2) && s.regGoroutine == Some(g)
    requires s.regDump == Some(d) && d < |s.heap| && !s.heap[d].indexed
    ensures CacheOk(m.world, cache)
    ensures match AcceptAll(m.world, fs, g, Room(m, s))
            case Err(e) => FailedClean(Steps(m, s, n), e, s)
            case Ok(b) =>
              && n == FiltersCost(m.world, fs, g, Room(m, s)) + (if b then 2 else 0)
              && Steps(m, s, n) ==
                 At(SetIp(s, base).(cache := cache, heap := if b then AppendTo(s.heap, d, g) else s.heap))
  {
    hide Steps, LoopCode, FilterCalls, AcceptAll, FiltersCost, FiltersLinked, CodeAt;
    var end := base + 2 * |fs| + 4;
    LoopParts(ops, base, fs);
    n, cache := FiltersRun(m, s, ops, base + 2, fs, base + 1, g);
    if AcceptAll(m.world, fs, g, Room(m, s)) == Ok(true) {
      var s1 := SetIp(s, end - 3).(cache := cache);
      KeepRuns(m, s1, ops, end - 2, base, g, d);
      StepsJoin(m, s, n, s1, 2);
      n := n + 2;
    }
  }

  /** After one turn: the iteration has moved on, and g has joined the dump at d if it was accepted. */
  ghost predicate Turned(s: State, s': State, a: nat, d: nat, g: Goroutine, accepted: bool)
    requires a < |s.heap| && d < |s.heap|
  {
    && s'.frames == s.frames && s'.env == s.env
    && HeapKept(s.heap, s'.heap, d)
    && s'.heap[a].iter == s.heap[a].iter + 1
    && s'.heap[d].goroutines == s.heap[d].goroutines + (if accepted then [g] else [])
  }

  /** The state in which the next goroutine has been taken from the dump at a. */
  function Taken(s: State, a: nat): State
    requires a < |s.heap| && s.heap[a].iter < |s.heap[a].goroutines|
  {
    var dump := s.heap[a];
    var g := dump.goroutines[dump.iter];
    s.(heap := s.heap[a := dump.(iter := dump.iter + 1)], regGoroutine := Some(g), stack := s.stack + [VGoroutine(g)])
  }

  /** The state before the next NextGoroutine, after the filters have decided. */
  function Decision(s: State, base: nat, a: nat, d: nat, accepted: bool, cache: map<string, string>): State
    requires s.frames != [] && a < |s.heap| && s.heap[a].iter < |s.heap[a].goroutines| && d < |s.heap|
  {
    var g, s1 := s.heap[a].goroutines[s.heap[a].iter], Taken(s, a);
    SetIp(s1, base).(cache := cache, heap := if accepted then AppendTo(s1.heap, d, g) else s1.heap)
  }

  lemma TakenRuns(m: Setup, s: State, ops: Chunk, base: nat, rest: seq<Value<nat>>, a: nat, d: nat, end: nat)
    requires Looping(m, s, ops, base, rest, a, d)
    requires s.heap[a].iter < |s.heap[a].goroutines| && |s.stack| < m.limit
    ensures var s1 := Taken(s, a);
            && Advance(m, s, a, end) == At(s1) && Before(m, s1, ops, base + 2) && CacheOk(m.world, s1.cache)
            && s1.regDump == Some(d) && d < |s1.heap| && !s1.heap[d].indexed
            && Room(m, s1) == Room(m, s) - 1 && s1.env == s.env && HeapKept(s.heap, s1.heap, d)
  {
  }

  lemma DecisionTurns(m: Setup, s: State, ops: Chunk, base: nat, rest: seq<Value<nat>>, a: nat, d: nat, accepted: bool,
                      cache: map<string, string>)
    requires Looping(m, s, ops, base, rest, a, d) && CacheOk(m.world, cache)
    requires s.heap[a].iter < |s.heap[a].goroutines| && |s.stack| < m.limit
    ensures var g := s.heap[a].goroutines[s.heap[a].iter];
            var s2 := Decision(s, base, a, d, accepted, cache);
            var s' := SetIp(s2, base + 1).(stack := rest + [VDump(a)]);
            && Before(m, s2, ops, base + 1) && s2.stack == rest + [VDump(a), VGoroutine(g)] && a < |s2.heap|
            && Looping(m, s', ops, base, rest, a, d) && Turned(s, s', a, d, g, accepted)
  {
    hide CacheOk;
  }

  /** From one NextGoroutine to the next. */
  lemma TurnRuns(m: Setup, s: State, ops: Chunk, base: nat, fs: seq<Filter>, rest: seq<Value<nat>>, a: nat, d: nat)
    returns (n: nat, s': State)
    requires CodeAt(ops, base, LoopCode(fs, base)) && FiltersLinked(m.code, fs)
    requires Looping(m, s, ops, base, rest, a, d)
    requires s.heap[a].iter < |s.heap[a].goroutines| && |s.stack| < m.limit
    ensures var g := s.heap[a].goroutines[s.heap[a].iter];
            var end := base + 2 * |fs| + 4;
            var out := Continue(m, Advance(m, s, a, end), n);
            match AcceptAll(m.world, fs, g, Room(m, s) - 1)
            case Err(e) => LoopFailed(out, e, s, d)
            case Ok(b) =>
              && Looping(m, s', ops, base, rest, a, d)
              && Turned(s, s', a, d, g, b)
              && out == Advance(m, s', a, end)
              && n == FiltersCost(m.world, fs, g, Room(m, s) - 1) + (if b then 2 else 0) + 1
  {
    hide Steps, LoopCode, FilterCalls, AcceptAll, FiltersCost, FiltersLinked, CodeAt, CacheOk, Before, Advance,
      Turned, Room;
    var end := base + 2 * |fs| + 4;
    LoopParts(ops, base, fs);
    var g, s1 := s.heap[a].goroutines[s.heap[a].iter], Taken(s, a);
    TakenRuns(m, s, ops, base, rest, a, d, end);
    var cache;
    n, cache := BodyRuns(m, s1, ops, base, fs, g, d);
    s' := s;
    if AcceptAll(m.world, fs, g, Room(m, s) - 1).Ok? {
      var b := AcceptAll(m.world, fs, g, Room(m, s) - 1).value;
      var s2 := Decision(s, base, a, d, b, cache);
      DecisionTurns(m, s, ops, base, rest, a, d, b, cache);
      NextRuns(m, s2, ops, base, rest, a, g, end);
      StepsJoin(m, s1, n, s2, 1);
      n := n + 1;
      s' := SetIp(s2, base + 1).(stack := rest + [VDump(a)]);
    }
  }

  lemma LoopEnds(m: Setup, s: State, ops: Chunk, base: nat, rest: seq<Value<nat>>, a: nat, d: nat, end: nat)
    requires Looping(m, s, ops, base, rest, a, d) && s.heap[a].iter == |s.heap[a].goroutines|
    ensures Advance(m, s, a, end).At? && LoopDone(m, s, Advance(m, s, a, end).s, end, rest, d, [])
  {
    assert Pop(SetIp(s, end - 1)).stack == rest;
    assert s.heap[d].goroutines + [] == s.heap[d].goroutines;
  }

  lemma LoopDoneTurned(m: Setup, s: State, s': State, t: State, end: nat, rest: seq<Value<nat>>, a: nat, d: nat,
                       g: Goroutine, b: bool, r: seq<Goroutine>)
    requires s.frames != [] && s'.frames != [] && a < |s.heap| && d < |s.heap| && d < |s'.heap|
    requires Turned(s, s', a, d, g, b) && LoopDone(m, s', t, end, rest, d, r)
    ensures LoopDone(m, s, t, end, rest, d, if b then [g] + r else r)
  {
    if b {
      assert s.heap[d].goroutines + [g] + r == s.heap[d].goroutines + ([g] + r);
    } else {
      assert s.heap[d].goroutines + [] + r == s.heap[d].goroutines + r;
    }
  }

  /** What is left of the loop: its survivors, or its error. */
  ghost predicate LoopResult(m: Setup, s: State, fs: seq<Filter>, gs: seq<Goroutine>, room: int, out: Outcome, n: nat,
                             end: nat, rest: seq<Value<nat>>, d: nat)
    requires s.frames != [] && d < |s.heap|
  {
    match Survivors(m.world, fs, gs, room)
    case Ok(r) => out.At? && LoopDone(m, s, out.s, end, rest, d, r) && n == IterCost(m.world, fs, gs, room)
    case Err(e) => LoopFailed(out, e, s, d)
  }

  /** All remaining turns, by induction on the goroutines left. */
  lemma {:induction false} TurnsRun(m: Setup, s: State, ops: Chunk, base: nat, fs: seq<Filter>,
                                    rest: seq<Value<nat>>, a: nat, d: nat)
    returns (n: nat)
    requires CodeAt(ops, base, LoopCode(fs, base)) && FiltersLinked(m.code, fs)
    requires Looping(m, s, ops, base, rest, a, d)
    ensures LoopResult(m, s, fs, s.heap[a].goroutines[s.heap[a].iter..], Room(m, s),
                       Continue(m, Advance(m, s, a, base + 2 * |fs| + 4), n), n, base + 2 * |fs| + 4, rest, d)
    decreases |s.heap[a].goroutines| - s.heap[a].iter
  {
    hide LoopCode, AcceptAll, FiltersCost, FiltersLinked, LoopDone, Steps, CodeAt;
    var end := base + 2 * |fs| + 4;
    var gs := s.heap[a].goroutines[s.heap[a].iter..];
    n := 0;
    if gs == [] {
      hide Advance;
      LoopEnds(m, s, ops, base, rest, a, d, end);
      ContinueZero(m, Advance(m, s, a, end));
    } else if |s.stack| < m.limit {
      hide Advance;
      assert gs[0] == s.heap[a].goroutines[s.heap[a].iter];
      assert gs[1..] == s.heap[a].goroutines[s.heap[a].iter + 1..];
      var s';
      n, s' := TurnRuns(m, s, ops, base, fs, rest, a, d);
      if AcceptAll(m.world, fs, gs[0], Room(m, s) - 1).Ok? {
        var b := AcceptAll(m.world, fs, gs[0], Room(m, s) - 1).value;
        var k := TurnsRun(m, s', ops, base, fs, rest, a, d);
        ContinueThen(m, Advance(m, s, a, end), n, k);
        n := n + k;
        if Survivors(m.world, fs, gs[1..], Room(m, s)).Ok? {
          LoopDoneTurned(m, s, s', Continue(m, Advance(m, s', a, end), k).s, end, rest, a, d, gs[0], b,
            Survivors(m.world, fs, gs[1..], Room(m, s)).value);
        }
      }
    }
  }

  lemma ContinueZero(m: Setup, out: Outcome)
    ensures Continue(m, out, 0) == out
  {
  }

  lemma ContinueThen(m: Setup, out: Outcome, n: nat, k: nat)
    ensures Continue(m, out, n + k) == Continue(m, Continue(m, out, n), k)
  {
    hide Steps;
    if out.At? {
      StepsThen(m, out.s, n, k);
    }
  }

  /** No dump is gone and none has changed its contents. */
  ghost predicate HeapGrows(before: seq<Dump>, after: seq<Dump>) {
    && |before| <= |after|
    && forall i | 0 <= i < |before| :: after[i].goroutines == before[i].goroutines
  }

  /** The state behind a loop: the dump on top has been replaced by a new one. */
  ghost predicate Filtered(m: Setup, s: State, s': State, ip: int, rest: seq<Value<nat>>, r: seq<Goroutine>)
    requires s.frames != []
  {
    && s'.frames == SetIp(s, ip).frames
    && s'.stack == rest + [VDump(|s.heap|)]
    && s'.env == s.env
    && HeapGrows(s.heap, s'.heap) && |s'.heap| == |s.heap| + 1
    && s'.heap[|s.heap|].goroutines == r
    && CacheOk(m.world, s'.cache)
  }

  /** TempDump and the first NextGoroutine. */
  lemma EnterRuns(m: Setup, s: State, ops: Chunk, base: nat, fs: seq<Filter>, rest: seq<Value<nat>>, a: nat)
    returns (s': State)
    requires Before(m, s, ops, base) && CodeAt(ops, base, LoopCode(fs, base)) && CacheOk(m.world, s.cache)
    requires s.stack == rest + [VDump(a)] && a < |s.heap|
    ensures Looping(m, s', ops, base, rest, a, |s.heap|)
    ensures s'.frames == SetIp(s, base + 1).frames && s'.env == s.env
    ensures HeapGrows(s.heap, s'.heap) && |s'.heap| == |s.heap| + 1
    ensures s'.heap[a].iter == 0 && s'.heap[|s.heap|].goroutines == []
    ensures Steps(m, s, 2) == Advance(m, s', a, base + 2 * |fs| + 4)
  {
    hide Steps, Advance, LoopCode;
    LoopParts(ops, base, fs);
    OneStep(m, s, ops[base]);
    var s1 := OpTempDump(SetIp(s, base));
    assert Steps(m, s, 1) == At(s1);
    FirstNextRuns(m, s1, ops, base, rest, a, base + 2 * |fs| + 4);
    StepsJoin(m, s, 1, s1, 1);
    s' := StartIter(SetIp(s1, base + 1), a);
  }

  lemma LeaveLoop(m: Setup, s: State, ops: Chunk, end: nat, d: nat)
    requires Before(m, s, ops, end) && |s.stack| < m.limit && end < |ops| && ops[end] == Instr(PushDump, 0)
    requires s.regDump == Some(d) && d < |s.heap|
    ensures Steps(m, s, 1) == At(StartIter(SetIp(s, end), d).(stack := s.stack + [VDump(d)]))
  {
    hide Steps;
    OneStep(m, s, ops[end]);
  }

  /**
   * The main result on filter loops, for every dump, wherever its iteration was
   * left: exactly the survivors, in order, in a new dump; the other dumps keep
   * their contents; the cost is LoopCost.
   */
  lemma LoopRun(m: Setup, s: State, ops: Chunk, base: nat, fs: seq<Filter>, rest: seq<Value<nat>>, a: nat)
    returns (n: nat)
    requires Before(m, s, ops, base) && CodeAt(ops, base, LoopCode(fs, base)) && CacheOk(m.world, s.cache)
    requires FiltersLinked(m.code, fs)
    requires s.stack == rest + [VDump(a)] && a < |s.heap|
    ensures var gs := s.heap[a].goroutines;
            var out := Steps(m, s, n);
            match Survivors(m.world, fs, gs, Room(m, s))
            case Ok(r) =>
              && out.At? && Filtered(m, s, out.s, base + 2 * |fs| + 4, rest, r)
              && n == LoopCost(m.world, fs, gs, Room(m, s))
            case Err(e) => out.Failed? && out.e == e && HeapGrows(s.heap, out.s.heap)
  {
    hide Steps, Advance, LoopCode, CodeAt, Survivors, IterCost;
    var end := base + 2 * |fs| + 4;
    var d := |s.heap|;
    LoopParts(ops, base, fs);
    var s1 := EnterRuns(m, s, ops, base, fs, rest, a);
    assert s1.heap[a].goroutines[0..] == s.heap[a].goroutines;
    var k := TurnsRun(m, s1, ops, base, fs, rest, a, d);
    StepsThen(m, s, 2, k);
    n := 2 + k;
    if Survivors(m.world, fs, s.heap[a].goroutines, Room(m, s)).Ok? {
      var s2 := Steps(m, s, n).s;
      LeaveLoop(m, s2, ops, end, d);
      StepsJoin(m, s, n, s2, 1);
      n := n + 1;
    }
  }
}
