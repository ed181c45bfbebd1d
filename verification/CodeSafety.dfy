/**
 * Generated code is well formed before and after the optimizer: jumps stay
 * inside their chunk, calls name predicate chunks that end in Return, operands
 * denote constants of the kind their instruction reads, and every instruction
 * survives its encoding.
 */
module CodeSafety {
  import opened Chunks
  import opened Predicates
  import opened Codegen
  import opened Optimizer
  import opened Syntax
  import opened StatementParsing
  import opened Programs
  import opened EndToEnd

  /** The operand is the index of a constant of the kind the instruction reads. */
  predicate OperandDenotes(consts: seq<Const>, x: Instr) {
    && (x.op.LoadNumber? ==> x.arg < |consts| && consts[x.arg].CNum?)
    && (x.op.LoadString? || x.op.LoadFieldAccessor? || x.op.LoadGoroutineDump? ==>
          x.arg < |consts| && consts[x.arg].CStr?)
    && (x.op.Assignment? ==> x.arg < |consts| && AssignTarget(consts, consts[x.arg]))
  }

  /** A name, or a list of indices of names. */
  predicate AssignTarget(consts: seq<Const>, c: Const) {
    || c.CStr?
    || (c.CMulti? && forall t | t in c.targets :: t < |consts| && consts[t].CStr?)
  }

  predicate ReadsConst(op: OpCode) {
    op.LoadNumber? || op.LoadString? || op.LoadFieldAccessor? || op.LoadGoroutineDump? || op.Assignment?
  }

  /** Jumps go no further than limit, and the operands that mean nothing are small. */
  predicate Within(consts: seq<Const>, limit: nat, x: Instr) {
    && (IsJump(x.op) ==> x.arg <= limit)
    && OperandDenotes(consts, x)
    && (x.arg <= 1 || IsJump(x.op) || ReadsConst(x.op) || x.op.Call?)
  }

  predicate AllWithin(consts: seq<Const>, limit: nat, chunk: Chunk) {
    forall x | x in chunk :: Within(consts, limit, x)
  }

  /** A predicate chunk ends in its only Return, no jump goes past it, and it calls nothing. */
  predicate IsPredicateChunk(consts: seq<Const>, chunk: Chunk) {
    && chunk != []
    && chunk[|chunk| - 1] == Instr(Return, 0)
    && AllWithin(consts, |chunk| - 1, chunk)
    && (forall i | 0 <= i < |chunk| - 1 :: !chunk[i].op.Return?)
    && (forall x | x in chunk :: !x.op.Call?)
  }

  /** The main chunk returns to nobody, and what it calls are predicate chunks. */
  predicate SafeCode(code: Code) {
    && code.chunks != []
    && AllWithin(code.consts, |code.chunks[0]|, code.chunks[0])
    && (forall x | x in code.chunks[0] :: !x.op.Return?)
    && (forall x | x in code.chunks[0] && x.op.Call? ::
          0 < x.arg < |code.chunks| && IsPredicateChunk(code.consts, code.chunks[x.arg]))
  }

  /** Code that neither calls nor returns. */
  predicate Straight(consts: seq<Const>, limit: nat, code: Chunk) {
    forall x | x in code :: Within(consts, limit, x) && !x.op.Return? && !x.op.Call?
  }

  lemma StraightJoins(consts: seq<Const>, limit: nat, a: Chunk, b: Chunk)
    requires Straight(consts, limit, a) && Straight(consts, limit, b)
    ensures Straight(consts, limit, a + b)
  {
    hide Within;
  }

  lemma OneStraight(op: Cmp, consts: seq<Const>, limit: nat)
    ensures Straight(consts, limit, [Instr(OpOf(op), 0)])
  {
  }

  lemma ShortCircuitStraight(op: Connective, at: nat, size: nat, consts: seq<Const>, limit: nat)
    requires at + 3 + size <= limit
    ensures Straight(consts, limit, ShortCircuit(op, at, size))
  {
  }

  lemma LeafStraight(a: Atom, consts: seq<Const>, limit: nat)
    requires AtomConst(a) in consts
    ensures Straight(consts, limit, [Instr(AtomOp(a), IndexOf(consts, AtomConst(a)))])
  {
  }

  lemma CompareStraight(e: Expr, base: nat, consts: seq<Const>, limit: nat)
    requires e.Compare? && Interned(e, consts)
    requires Straight(consts, limit, ExprCode(e.left, base, consts))
    requires Straight(consts, limit, ExprCode(e.right, base + Size(e.left), consts))
    ensures Straight(consts, limit, ExprCode(e, base, consts))
  {
    hide Straight, ExprCode;
    CompareCodeUnfold(e, base, consts);
    var left, right := ExprCode(e.left, base, consts), ExprCode(e.right, base + Size(e.left), consts);
    OneStraight(e.cmp, consts, limit);
    StraightJoins(consts, limit, left, right);
    StraightJoins(consts, limit, left + right, [Instr(OpOf(e.cmp), 0)]);
  }

  lemma LogicStraight(e: Expr, base: nat, consts: seq<Const>, limit: nat)
    requires e.Logic? && Interned(e, consts) && base + Size(e) <= limit
    requires Straight(consts, limit, ExprCode(e.left, base, consts))
    requires Straight(consts, limit, ExprCode(e.right, base + Size(e.left) + 3, consts))
    ensures Straight(consts, limit, ExprCode(e, base, consts))
  {
    hide Straight, ExprCode, ShortCircuit;
    LogicCodeUnfold(e, base, consts);
    var left, right := ExprCode(e.left, base, consts), ExprCode(e.right, base + Size(e.left) + 3, consts);
    var jumps := ShortCircuit(e.op, base + Size(e.left), Size(e.right));
    ShortCircuitStraight(e.op, base + Size(e.left), Size(e.right), consts, limit);
    StraightJoins(consts, limit, left, jumps);
    StraightJoins(consts, limit, left + jumps, right);
  }

  lemma {:induction false} ExprStraight(e: Expr, base: nat, consts: seq<Const>, limit: nat)
    requires Interned(e, consts) && base + Size(e) <= limit
    ensures Straight(consts, limit, ExprCode(e, base, consts))
    decreases e
  {
    hide Straight, ShortCircuit;
    match e
    case Leaf(a) => LeafStraight(a, consts, limit);
    case Compare(_, l, r) =>
      ExprStraight(l, base, consts, limit);
      ExprStraight(r, base + Size(l), consts, limit);
      CompareStraight(e, base, consts, limit);
    case Logic(_, l, r) =>
      ExprStraight(l, base, consts, limit);
      ExprStraight(r, base + Size(l) + 3, consts, limit);
      LogicStraight(e, base, consts, limit);
  }

  lemma PredicateChunkSafe(e: Expr, consts: seq<Const>)
    requires Interned(e, consts)
    ensures IsPredicateChunk(consts, PredicateChunk(e, consts))
  {
    hide ExprCode;
    ExprStraight(e, 0, consts, Size(e));
    var chunk := PredicateChunk(e, consts);
    forall i | 0 <= i < |chunk| - 1 ensures !chunk[i].op.Return? {
      assert chunk[i] == ExprCode(e, 0, consts)[i];
      assert chunk[i] in ExprCode(e, 0, consts);
    }
  }

  lemma {:induction false} CallsWithin(fs: seq<Filter>, next: nat, consts: seq<Const>, limit: nat)
    requires next <= limit
    ensures AllWithin(consts, limit, FilterCalls(fs, next))
    ensures forall x | x in FilterCalls(fs, next) :: !x.op.Return?
    ensures forall x | x in FilterCalls(fs, next) && x.op.Call? :: exists f | f in fs :: f.chunk == x.arg
  {
    if fs != [] {
      CallsWithin(fs[1..], next, consts, limit);
      assert fs[0] in fs;
    }
  }

  lemma LoopWithin(fs: seq<Filter>, base: nat, consts: seq<Const>, limit: nat)
    requires base + 2 * |fs| + 5 <= limit
    ensures AllWithin(consts, limit, LoopCode(fs, base))
    ensures forall x | x in LoopCode(fs, base) :: !x.op.Return?
    ensures forall x | x in LoopCode(fs, base) && x.op.Call? :: exists f | f in fs :: f.chunk == x.arg
  {
    hide FilterCalls;
    CallsWithin(fs, base + 1, consts, limit);
  }

  lemma AssignWithin(names: seq<string>, consts: seq<Const>)
    requires MacroInterned(AssignMany(names), consts)
    ensures OperandDenotes(consts, Instr(Assignment, IndexOf(consts, CMulti(Targets(names, consts)))))
  {
    var targets := Targets(names, consts);
    forall t | t in targets ensures t < |consts| && consts[t].CStr? {
      var i :| 0 <= i < |targets| && targets[i] == t;
      assert names[i] in names;
    }
  }

  /** Every instruction of a macro jumps no further than its end, and calls only the chunks of its filters. */
  lemma MacroWithin(m: Macro, base: nat, consts: seq<Const>, limit: nat)
    requires MacroInterned(m, consts) && base + MacroLen(m) <= limit
    ensures AllWithin(consts, limit, MacroCode(m, base, consts))
    ensures forall x | x in MacroCode(m, base, consts) :: !x.op.Return?
    ensures forall x | x in MacroCode(m, base, consts) && x.op.Call? ::
              m.Loop? && exists f | f in m.filters :: f.chunk == x.arg
  {
    hide LoopCode, Targets, AssignTarget;
    if m.Loop? {
      LoopWithin(m.filters, base, consts, limit);
    } else if m.AssignMany? {
      hide OperandDenotes;
      AssignWithin(m.targets, consts);
    } else {
      NamesAreTargets();
    }
  }

  lemma NamesAreTargets()
    ensures forall consts, s :: AssignTarget(consts, CStr(s))
  {
  }

  lemma {:induction false} LayoutWithin(ms: seq<Macro>, base: nat, consts: seq<Const>, limit: nat)
    requires MacrosInterned(ms, consts) && base + Length(ms) <= limit
    ensures AllWithin(consts, limit, Layout(ms, base, consts))
    ensures forall x | x in Layout(ms, base, consts) :: !x.op.Return?
    ensures forall x | x in Layout(ms, base, consts) && x.op.Call? ::
              exists m | m in ms :: m.Loop? && exists f | f in m.filters :: f.chunk == x.arg
  {
    hide MacroCode, MacroInterned, Within;
    if ms != [] {
      MacroWithin(ms[0], base, consts, limit);
      LayoutWithin(ms[1..], base + MacroLen(ms[0]), consts, limit);
    }
  }

  lemma LinkedSafe(code: Code, ms: seq<Macro>)
    requires Linked(code, ms)
    ensures SafeCode(code)
  {
    hide Layout, MacroInterned, Within, PredicateChunk, IsPredicateChunk;
    LayoutWithin(ms, 0, code.consts, Length(ms));
    forall x | x in code.chunks[0] && x.op.Call?
      ensures 0 < x.arg < |code.chunks| && IsPredicateChunk(code.consts, code.chunks[x.arg])
    {
      var m :| m in ms && m.Loop? && exists f | f in m.filters :: f.chunk == x.arg;
      var f :| f in m.filters && f.chunk == x.arg;
      assert FilterLinked(code, f);
      PredicateChunkSafe(f.pred, code.consts);
    }
  }

  /**
   * Main result: the code of every statement is well formed, the optimizer keeps
   * it so, and its constants are free of duplicates.
   */
  lemma CompiledSafe(s: Statement)
    requires KnownDumps(s.body)
    ensures SafeCode(CodeOf(s)) && SafeCode(CompiledCode(s))
    ensures NoDuplicates(CompiledCode(s).consts) && CompiledCode(s).consts == CodeOf(s).consts
  {
    hide Linked, SafeCode, Optimized;
    StatementLinked(s);
    OptimizedLinked(CodeOf(s), StatementMacros(s));
    LinkedSafe(CodeOf(s), StatementMacros(s));
    LinkedSafe(CompiledCode(s), Fuse(StatementMacros(s), 0));
  }

  /** The tables are small enough for 48-bit operands. */
  predicate Fits(code: Code) {
    && |code.chunks| < 0x1_0000_0000_0000 && |code.consts| < 0x1_0000_0000_0000
    && forall c | c in code.chunks :: |c| < 0x1_0000_0000_0000
  }

  predicate Decodes(x: Instr) {
    x.arg < 0x1_0000_0000_0000 && FromWord(Word(x)) == x
  }

  lemma SmallDecodes(x: Instr)
    requires x.arg < 0x1_0000_0000_0000
    ensures Decodes(x)
  {
    hide Word, FromWord;
    WordBack(x);
  }

  /** The machine words of the main chunk and of what it calls decode to the instructions they were made from. */
  lemma SafeDecodes(code: Code, x: Instr)
    requires SafeCode(code) && Fits(code)
    requires x in code.chunks[0] ||
             exists y | y in code.chunks[0] :: y.op.Call? && y.arg < |code.chunks| && x in code.chunks[y.arg]
    ensures Decodes(x)
  {
    hide Decodes;
    if x in code.chunks[0] {
      assert code.chunks[0] in code.chunks;
      assert Within(code.consts, |code.chunks[0]|, x);
    } else {
      var y :| y in code.chunks[0] && y.op.Call? && y.arg < |code.chunks| && x in code.chunks[y.arg];
      var chunk := code.chunks[y.arg];
      assert chunk in code.chunks;
      assert Within(code.consts, |chunk| - 1, x);
    }
    SmallDecodes(x);
  }
}
