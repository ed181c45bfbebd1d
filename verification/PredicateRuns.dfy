/**
 * Compiled predicates compute the short-circuit evaluation of their source:
 * the machine started before the code of an expression arrives behind it with
 * exactly its value pushed, or fails with exactly its error.
 */
module PredicateRuns {
  import opened Results
  import opened Goroutines
  import opened Chunks
  import opened Predicates
  import opened Codegen
  import opened Machine

  // ----- runs -----

  lemma {:induction false} StepsJoin(m: Setup, s: State, n: nat, s1: State, k: nat)
    requires Steps(m, s, n) == At(s1)
    ensures Steps(m, s, n + k) == Steps(m, s1, k)
    decreases n
  {
    hide Step;
    if n > 0 {
      StepsJoin(m, Step(m, s).s, n - 1, s1, k);
    }
  }

  lemma OneStep(m: Setup, s: State, i: Instr)
    requires s.frames != [] && Fetch(m, s) == Some(i)
    ensures Steps(m, s, 1) == Dispatch(m, SetIp(s, Ip(s) + 1), i)
  {
    hide Dispatch;
    assert Step(m, s) == Dispatch(m, SetIp(s, Ip(s) + 1), i);
    if Step(m, s).At? {
      assert Steps(m, Step(m, s).s, 0) == At(Step(m, s).s);
    }
  }

  /** A failed run has left every dump and the environment as they were. */
  ghost predicate FailedClean(out: Outcome, e: Error, s: State) {
    out.Failed? && out.e == e && out.s.heap == s.heap && out.s.env == s.env
  }

  /** The regular expression cache maps a text only to what it compiles to. */
  ghost predicate CacheOk(w: World, cache: map<string, string>) {
    forall p | p in cache :: cache[p] == p && w.compiles(p)
  }

  ghost predicate CodeAt(ops: Chunk, base: nat, code: Chunk) {
    base + |code| <= |ops| && ops[base..base + |code|] == code
  }

  lemma CodeAtParts(ops: Chunk, base: nat, a: Chunk, b: Chunk)
    requires CodeAt(ops, base, a + b)
    ensures CodeAt(ops, base, a) && CodeAt(ops, base + |a|, b)
  {
    assert (a + b)[..|a|] == a && (a + b)[|a|..] == b;
    assert ops[base..base + |a|] == ops[base..base + |a + b|][..|a|];
    assert ops[base + |a|..base + |a| + |b|] == ops[base..base + |a + b|][|a|..];
  }

  lemma CodeAtIndex(ops: Chunk, base: nat, code: Chunk, i: nat)
    requires CodeAt(ops, base, code) && i < |code|
    ensures base + i < |ops| && ops[base + i] == code[i]
  {
    assert ops[base..base + |code|][i] == ops[base + i];
  }

  /** The machine is about to execute address base of ops. */
  ghost predicate Before(m: Setup, s: State, ops: Chunk, base: nat) {
    && s.frames != []
    && |s.stack| <= m.limit
    && var f := s.frames[|s.frames| - 1];
       f.chunk < |m.code.chunks| && m.code.chunks[f.chunk] == ops && f.ip == base - 1
  }

  lemma FetchAt(m: Setup, s: State, ops: Chunk, base: nat, code: Chunk)
    requires Before(m, s, ops, base) && CodeAt(ops, base, code) && code != []
    ensures Fetch(m, s) == Some(code[0]) && ops[base] == code[0]
  {
    assert ops[base] == ops[base..base + |code|][0];
  }

  // ----- single instructions -----

  function Room(m: Setup, s: State): int {
    m.limit - |s.stack|
  }

  /** The state behind an expression with value v. */
  function Pushed(s: State, ip: int, v: Scalar, cache: map<string, string>): State
    requires s.frames != []
  {
    SetIp(s, ip).(stack := s.stack + [VScalar(v)], cache := cache)
  }

  lemma AtomRuns(m: Setup, s: State, a: Atom, g: Goroutine)
    requires s.frames != [] && AtomConst(a) in m.code.consts && KnownAtom(a) && s.regGoroutine == Some(g)
    ensures Dispatch(m, s, Instr(AtomOp(a), IndexOf(m.code.consts, AtomConst(a)))) ==
            (if Room(m, s) <= 0 then Failed(StackOverflow, s)
             else At(s.(stack := s.stack + [VScalar(AtomValue(a, g).value)])))
    ensures AtomValue(a, g).Some?
  {
    WellTypedAtom(a, g);
    hide FieldValue, IsField;
  }

  lemma PopTwo(s: State, rest: seq<Value<nat>>, l: Value<nat>, r: Value<nat>)
    requires s.stack == rest + [l, r]
    ensures Top(s) == r && Pop(s).stack != [] && Top(Pop(s)) == l && Pop(Pop(s)) == s.(stack := rest)
  {
    assert Pop(s).stack == rest + [l];
    assert Pop(Pop(s)).stack == rest;
  }

  predicate IsMatch(op: Cmp) {
    op.CmpMatches? || op.CmpRegex? || op.CmpNotRegex?
  }

  lemma CompareDispatched(m: Setup, s: State, op: Cmp)
    requires s.frames != []
    ensures Dispatch(m, s, Instr(OpOf(op), 0)) ==
            if IsMatch(op) then OpRegexMatches(m, s, OpOf(op)) else OpComparison(m, s, OpOf(op))
  {
    hide OpRegexMatches, OpComparison;
  }

  lemma MatchRuns(m: Setup, s: State, rest: seq<Value<nat>>, op: Cmp, l: Scalar, r: Scalar)
    returns (cache: map<string, string>)
    requires IsMatch(op)
    requires s.frames != [] && s.stack == rest + [VScalar(l), VScalar(r)] && |s.stack| <= m.limit
    requires CacheOk(m.world, s.cache)
    ensures CacheOk(m.world, cache)
    ensures var out := OpRegexMatches(m, s, OpOf(op));
            match Apply(m.world, op, l, r)
            case Ok(v) => out == At(s.(stack := rest + [VScalar(v)], cache := cache))
            case Err(e) => FailedClean(out, e, s)
  {
    PopTwo(s, rest, VScalar(l), VScalar(r));
    cache := s.cache;
    if r.SStr? && l.SStr? && m.world.compiles(r.s) {
      cache := if r.s in s.cache then s.cache else s.cache[r.s := r.s];
    }
  }

  lemma ComparisonRuns(m: Setup, s: State, rest: seq<Value<nat>>, op: Cmp, l: Scalar, r: Scalar)
    requires !IsMatch(op)
    requires s.frames != [] && s.stack == rest + [VScalar(l), VScalar(r)] && |s.stack| <= m.limit
    ensures var out := OpComparison(m, s, OpOf(op));
            match Apply(m.world, op, l, r)
            case Ok(v) => out == At(s.(stack := rest + [VScalar(v)]))
            case Err(e) => FailedClean(out, e, s)
  {
    hide CompareNum, CompareStr, StringLess, Substring;
    PopTwo(s, rest, VScalar(l), VScalar(r));
    if !(op.CmpContains? || op.CmpIn?) {
      OrderedCompare(op, l, r);
    }
  }

  lemma CompareRuns(m: Setup, s: State, rest: seq<Value<nat>>, op: Cmp, l: Scalar, r: Scalar)
    returns (cache: map<string, string>)
    requires s.frames != [] && s.stack == rest + [VScalar(l), VScalar(r)] && |s.stack| <= m.limit
    requires CacheOk(m.world, s.cache)
    ensures CacheOk(m.world, cache)
    ensures var out := Dispatch(m, s, Instr(OpOf(op), 0));
            match Apply(m.world, op, l, r)
            case Ok(v) => out == At(s.(stack := rest + [VScalar(v)], cache := cache))
            case Err(e) => FailedClean(out, e, s)
  {
    hide Dispatch, OpRegexMatches, OpComparison, Apply, OpOf;
    CompareDispatched(m, s, op);
    cache := s.cache;
    if IsMatch(op) {
      cache := MatchRuns(m, s, rest, op, l, r);
    } else {
      ComparisonRuns(m, s, rest, op, l, r);
    }
  }

  lemma OrderedCompare(op: Cmp, l: Scalar, r: Scalar)
    requires !(op.CmpMatches? || op.CmpRegex? || op.CmpNotRegex? || op.CmpContains? || op.CmpIn?)
    ensures l.SNum? && r.SNum? ==> CompareNum(l.n, r.n, OpOf(op)) == Ordered(op, l.n < r.n, l.n == r.n)
    ensures l.SStr? && r.SStr? ==> CompareStr(l.s, r.s, OpOf(op)) == Ordered(op, StringLess(l.s, r.s), l.s == r.s)
  {
    if l.SStr? && r.SStr? {
      StringOrderTotal(l.s, r.s);
    }
  }

  // ----- expressions -----

  /** What running the code of e from s, n steps, ends with. */
  ghost predicate ExprResult(m: Setup, s: State, e: Expr, base: nat, g: Goroutine, n: nat, cache: map<string, string>)
    requires s.frames != []
  {
    match Eval(m.world, e, g, Room(m, s))
    case Ok(v) =>
      && |s.stack| < m.limit
      && n == Cost(m.world, e, g, Room(m, s))
      && Steps(m, s, n) == At(Pushed(s, base + Size(e) - 1, v, cache))
    case Err(err) => FailedClean(Steps(m, s, n), err, s)
  }

  /**
   * The main result on predicates: from the state before its code, a
   * well-formed expression evaluates to its short-circuit value, in the number
   * of instructions Cost says, and touches nothing but the cache; or it fails
   * with the error of the evaluation. The result is the same for every cache.
   */
  lemma {:induction false} ExprRuns(m: Setup, s: State, ops: Chunk, base: nat, e: Expr, g: Goroutine)
    returns (n: nat, cache: map<string, string>)
    requires Known(e) && Interned(e, m.code.consts) && s.regGoroutine == Some(g)
    requires CacheOk(m.world, s.cache)
    requires Before(m, s, ops, base) && CodeAt(ops, base, ExprCode(e, base, m.code.consts))
    ensures CacheOk(m.world, cache)
    ensures ExprResult(m, s, e, base, g, n, cache)
    decreases e, 1
  {
    match e
    case Leaf(a) =>
      n, cache := 1, s.cache;
      LeafRuns(m, s, ops, base, a, g);
    case Compare(op, l, r) =>
      n, cache := CompareExprRuns(m, s, ops, base, e, g);
    case Logic(op, l, r) =>
      n, cache := LogicExprRuns(m, s, ops, base, e, g);
  }

  lemma LeafRuns(m: Setup, s: State, ops: Chunk, base: nat, a: Atom, g: Goroutine)
    requires KnownAtom(a) && AtomConst(a) in m.code.consts && s.regGoroutine == Some(g)
    requires Before(m, s, ops, base) && CodeAt(ops, base, ExprCode(Leaf(a), base, m.code.consts))
    ensures ExprResult(m, s, Leaf(a), base, g, 1, s.cache)
  {
    hide Dispatch, AtomValue, KnownAtom, AtomConst, AtomOp, Steps;
    FetchAt(m, s, ops, base, ExprCode(Leaf(a), base, m.code.consts));
    OneStep(m, s, ops[base]);
    AtomRuns(m, SetIp(s, base), a, g);
  }

  lemma {:induction false} CompareExprRuns(m: Setup, s: State, ops: Chunk, base: nat, e: Expr, g: Goroutine)
    returns (n: nat, cache: map<string, string>)
    requires e.Compare?
    requires Known(e) && Interned(e, m.code.consts) && s.regGoroutine == Some(g)
    requires CacheOk(m.world, s.cache)
    requires Before(m, s, ops, base) && CodeAt(ops, base, ExprCode(e, base, m.code.consts))
    ensures CacheOk(m.world, cache)
    ensures ExprResult(m, s, e, base, g, n, cache)
    decreases e, 0
  {
    hide Dispatch, Apply, Steps, ExprCode, CodeAt, CacheOk, OpOf;
    var l, r, mid := e.left, e.right, base + Size(e.left);
    CompareCode(m, ops, base, e);
    n, cache := ExprRuns(m, s, ops, base, l, g);
    if Eval(m.world, l, g, Room(m, s)).Ok? {
      var a := Eval(m.world, l, g, Room(m, s)).value;
      var s1 := Pushed(s, mid - 1, a, cache);
      var k, cache1 := ExprRuns(m, s1, ops, mid, r, g);
      StepsJoin(m, s, n, s1, k);
      n, cache := n + k, cache1;
      if Eval(m.world, r, g, Room(m, s1)).Ok? {
        var b := Eval(m.world, r, g, Room(m, s1)).value;
        var s2 := Pushed(s1, mid + Size(r) - 1, b, cache);
        assert s2.stack == s.stack + [VScalar(a), VScalar(b)];
        OneStep(m, s2, Instr(OpOf(e.cmp), 0));
        cache := CompareRuns(m, SetIp(s2, mid + Size(r)), s.stack, e.cmp, a, b);
        StepsJoin(m, s, n, s2, 1);
        n := n + 1;
      }
    }
  }

  lemma CompareCode(m: Setup, ops: Chunk, base: nat, e: Expr)
    requires e.Compare? && Interned(e, m.code.consts) && CodeAt(ops, base, ExprCode(e, base, m.code.consts))
    ensures var mid := base + Size(e.left);
            && CodeAt(ops, base, ExprCode(e.left, base, m.code.consts))
            && CodeAt(ops, mid, ExprCode(e.right, mid, m.code.consts))
            && mid + Size(e.right) < |ops|
            && ops[mid + Size(e.right)] == Instr(OpOf(e.cmp), 0)
  {
    hide ExprCode, CodeAt, OpOf;
    var mid := base + Size(e.left);
    var l, r := ExprCode(e.left, base, m.code.consts), ExprCode(e.right, mid, m.code.consts);
    CompareCodeUnfold(e, base, m.code.consts);
    CodeAtParts(ops, base, l + r, [Instr(OpOf(e.cmp), 0)]);
    CodeAtParts(ops, base, l, r);
    CodeAtIndex(ops, mid + Size(e.right), [Instr(OpOf(e.cmp), 0)], 0);
  }

  lemma LogicCode(m: Setup, ops: Chunk, base: nat, e: Expr)
    requires e.Logic? && Interned(e, m.code.consts) && CodeAt(ops, base, ExprCode(e, base, m.code.consts))
    ensures var at := base + Size(e.left);
            && CodeAt(ops, base, ExprCode(e.left, base, m.code.consts))
            && CodeAt(ops, at, ShortCircuit(e.op, at, Size(e.right)))
            && CodeAt(ops, at + 3, ExprCode(e.right, at + 3, m.code.consts))
            && at + 3 + Size(e.right) <= |ops|
            && ops[at] == Instr(LogicJump(e.op), at + 3)
            && ops[at + 1] == Instr(PushBool, Decided(e.op))
            && ops[at + 2] == Instr(JumpTo, at + 3 + Size(e.right))
  {
    hide ExprCode, LogicJump, Decided;
    var at := base + Size(e.left);
    var l, r := ExprCode(e.left, base, m.code.consts), ExprCode(e.right, at + 3, m.code.consts);
    var mid := ShortCircuit(e.op, at, Size(e.right));
    LogicCodeUnfold(e, base, m.code.consts);
    CodeAtParts(ops, base, l + mid, r);
    CodeAtParts(ops, base, l, mid);
    CodeAtIndex(ops, at, mid, 0);
    CodeAtIndex(ops, at, mid, 1);
    CodeAtIndex(ops, at, mid, 2);
  }

  lemma JumpRuns(m: Setup, s: State, rest: seq<Value<nat>>, op: Connective, v: Scalar, addr: nat)
    requires s.frames != [] && s.stack == rest + [VScalar(v)]
    ensures Dispatch(m, s, Instr(LogicJump(op), addr)) ==
            (if !v.SBool? then Failed(InvalidType, s.(stack := rest))
             else if v.b == Undecided(op) then At(SetIp(s, addr - 1).(stack := rest))
             else At(s.(stack := rest)))
  {
    assert Pop(s) == s.(stack := rest);
  }

  lemma DecidedRuns(m: Setup, s: State, op: Connective)
    requires s.frames != [] && |s.stack| < m.limit
    ensures Dispatch(m, s, Instr(PushBool, Decided(op))) == At(s.(stack := s.stack + [VScalar(SBool(!Undecided(op)))]))
  {
  }

  lemma JumpToRuns(m: Setup, s: State, addr: nat)
    requires s.frames != []
    ensures Dispatch(m, s, Instr(JumpTo, addr)) == At(SetIp(s, addr - 1))
  {
  }

  /** The jump after the left operand: on to the right operand, on to the decided value, or an error. */
  lemma BranchRuns(m: Setup, s: State, ops: Chunk, base: nat, e: Expr, a: Scalar, cache: map<string, string>)
    requires e.Logic? && Interned(e, m.code.consts) && |s.stack| < m.limit
    requires Before(m, s, ops, base) && CodeAt(ops, base, ExprCode(e, base, m.code.consts))
    ensures var at := base + Size(e.left);
            var out := Steps(m, Pushed(s, at - 1, a, cache), 1);
            if !a.SBool? then FailedClean(out, InvalidType, s)
            else out == At(SetIp(s, if a.b == Undecided(e.op) then at + 2 else at).(cache := cache))
  {
    hide Dispatch, Steps, ExprCode, LogicJump, Decided, Undecided, ShortCircuit;
    var at := base + Size(e.left);
    LogicCode(m, ops, base, e);
    OneStep(m, Pushed(s, at - 1, a, cache), ops[at]);
    JumpRuns(m, SetIp(Pushed(s, at - 1, a, cache), at), s.stack, e.op, a, at + 3);
  }

  lemma {:induction false} LogicExprRuns(m: Setup, s: State, ops: Chunk, base: nat, e: Expr, g: Goroutine)
    returns (n: nat, cache: map<string, string>)
    requires e.Logic?
    requires Known(e) && Interned(e, m.code.consts) && s.regGoroutine == Some(g)
    requires CacheOk(m.world, s.cache)
    requires Before(m, s, ops, base) && CodeAt(ops, base, ExprCode(e, base, m.code.consts))
    ensures CacheOk(m.world, cache)
    ensures ExprResult(m, s, e, base, g, n, cache)
    decreases e, 0
  {
    hide Dispatch, Steps, ExprCode, LogicJump, Decided, Undecided, ShortCircuit, CodeAt, CacheOk;
    var at := base + Size(e.left);
    LogicCode(m, ops, base, e);
    n, cache := ExprRuns(m, s, ops, base, e.left, g);
    if Eval(m.world, e.left, g, Room(m, s)).Ok? {
      var a := Eval(m.world, e.left, g, Room(m, s)).value;
      BranchRuns(m, s, ops, base, e, a, cache);
      StepsJoin(m, s, n, Pushed(s, at - 1, a, cache), 1);
      n := n + 1;
      if a.SBool? {
        var s2 := SetIp(s, if a.b == Undecided(e.op) then at + 2 else at).(cache := cache);
        var k: nat;
        if a.b == Undecided(e.op) {
          k, cache := ExprRuns(m, s2, ops, at + 3, e.right, g);
        } else {
          k := LeaveRuns(m, s2, ops, at, e.op, Size(e.right));
        }
        StepsJoin(m, s, n, s2, k);
        n := n + k;
      }
    }
  }

  lemma LeaveRuns(m: Setup, s: State, ops: Chunk, at: nat, op: Connective, size: nat) returns (n: nat)
    requires Before(m, s, ops, at + 1) && |s.stack| < m.limit
    requires at + 2 < |ops| && ops[at + 1] == Instr(PushBool, Decided(op)) &&
             ops[at + 2] == Instr(JumpTo, at + 3 + size)
    ensures n == 2 && Steps(m, s, n) == At(Pushed(s, at + 2 + size, SBool(!Undecided(op)), s.cache))
  {
    hide Dispatch, Steps, Decided, Undecided;
    n := 2;
    OneStep(m, s, ops[at + 1]);
    DecidedRuns(m, SetIp(s, at + 1), op);
    var s1 := Pushed(s, at + 1, SBool(!Undecided(op)), s.cache);
    assert Steps(m, s, 1) == At(s1);
    OneStep(m, s1, ops[at + 2]);
    StepsJoin(m, s, 1, s1, 1);
    JumpToRuns(m, SetIp(s1, at + 2), at + 3 + size);
  }
}
