/**
 * What the compiler generates: the constant table, the code of predicates, and
 * the main chunk as a list of macros with their layout (internal/compiler.go).
 */
module Codegen {
  import opened Chunks
  import opened Predicates

  // ----- constants -----

  /** createConst: an equal constant is reused, a new one goes to the end. */
  function Intern(consts: seq<Const>, c: Const): (r: seq<Const>)
    ensures consts <= r && c in r
  {
    if c in consts then consts else consts + [c]
  }

  /** The first position of c. */
  function IndexOf(consts: seq<Const>, c: Const): (i: nat)
    requires c in consts
    ensures i < |consts| && consts[i] == c
    ensures forall j | 0 <= j < i :: consts[j] != c
  {
    if consts[0] == c then 0 else 1 + IndexOf(consts[1..], c)
  }

  predicate NoDuplicates(consts: seq<Const>) {
    forall i, j | 0 <= i < j < |consts| :: consts[i] != consts[j]
  }

  /** A constant keeps its index when the table grows. */
  lemma IndexStable(consts: seq<Const>, grown: seq<Const>, c: Const)
    requires consts <= grown && c in consts
    ensures c in grown && IndexOf(grown, c) == IndexOf(consts, c)
  {
    var i, j := IndexOf(consts, c), IndexOf(grown, c);
    assert grown[i] == c;
    assert j <= i;
    assert consts[j] == grown[j];
  }

  // ----- predicates -----

  function OpOf(op: Cmp): OpCode {
    match op
    case CmpEq => Equal
    case CmpNe => NotEqual
    case CmpGt => Greater
    case CmpGe => GreaterEqual
    case CmpLt => Less
    case CmpLe => LessEqual
    case CmpContains => Contains
    case CmpIn => In
    case CmpMatches => RegexMatches
    case CmpRegex => RegexMatches
    case CmpNotRegex => RegexNotMatches
  }

  function AtomOp(a: Atom): OpCode {
    match a
    case Num(_) => LoadNumber
    case Str(_) => LoadString
    case _ => LoadFieldAccessor
  }

  function AtomConst(a: Atom): Const {
    match a
    case Num(n) => CNum(n)
    case Str(s) => CStr(s)
    case Field(name) => CStr(name)
    case Label(key) => CStr(LabelName(key))
  }

  /** The constant table after the constants of e have been interned left to right. */
  function ConstsOf(e: Expr, consts: seq<Const>): (r: seq<Const>)
    ensures consts <= r
  {
    match e
    case Leaf(a) => Intern(consts, AtomConst(a))
    case _ => ConstsOf(e.right, ConstsOf(e.left, consts))
  }

  /** Every constant of e is in the table. */
  predicate Interned(e: Expr, consts: seq<Const>) {
    match e
    case Leaf(a) => AtomConst(a) in consts
    case _ => Interned(e.left, consts) && Interned(e.right, consts)
  }

  lemma {:induction false} InternedGrows(e: Expr, consts: seq<Const>, grown: seq<Const>)
    requires Interned(e, consts) && consts <= grown
    ensures Interned(e, grown)
  {
    if !e.Leaf? {
      InternedGrows(e.left, consts, grown);
      InternedGrows(e.right, consts, grown);
    }
  }

  lemma {:induction false} ConstsInterned(e: Expr, consts: seq<Const>)
    ensures Interned(e, ConstsOf(e, consts))
    ensures !e.Leaf? ==> Interned(e.left, ConstsOf(e, consts))
  {
    if !e.Leaf? {
      ConstsInterned(e.left, consts);
      ConstsInterned(e.right, ConstsOf(e.left, consts));
      InternedGrows(e.left, ConstsOf(e.left, consts), ConstsOf(e, consts));
    }
  }

  lemma {:induction false} ConstsNoDuplicates(e: Expr, consts: seq<Const>)
    requires NoDuplicates(consts)
    ensures NoDuplicates(ConstsOf(e, consts))
  {
    if !e.Leaf? {
      ConstsNoDuplicates(e.left, consts);
      ConstsNoDuplicates(e.right, ConstsOf(e.left, consts));
    }
  }

  function Size(e: Expr): (n: nat)
    ensures n > 0
  {
    match e
    case Leaf(_) => 1
    case Compare(_, l, r) => Size(l) + Size(r) + 1
    case Logic(_, l, r) => Size(l) + 3 + Size(r)
  }

  /**
   * The code of e at address base. After the left operand of and/or, a jump on
   * the undecided value skips the two instructions that push the decided value
   * and leave.
   */
  function ExprCode(e: Expr, base: nat, consts: seq<Const>): (code: Chunk)
    requires Interned(e, consts)
    ensures |code| == Size(e)
  {
    match e
    case Leaf(a) => [Instr(AtomOp(a), IndexOf(consts, AtomConst(a)))]
    case Compare(op, l, r) =>
      ExprCode(l, base, consts) + ExprCode(r, base + Size(l), consts) + [Instr(OpOf(op), 0)]
    case Logic(op, l, r) =>
      ExprCode(l, base, consts) + ShortCircuit(op, base + Size(l), Size(r)) +
      ExprCode(r, base + Size(l) + 3, consts)
  }

  function LogicJump(op: Connective): OpCode {
    if op.And? then JumpIfTrue else JumpIfFalse
  }

  function Decided(op: Connective): nat {
    if op.And? then 0 else 1
  }

  function ShortCircuit(op: Connective, at: nat, size: nat): Chunk {
    [Instr(LogicJump(op), at + 3), Instr(PushBool, Decided(op)), Instr(JumpTo, at + 3 + size)]
  }

  lemma CompareCodeUnfold(e: Expr, base: nat, consts: seq<Const>)
    requires e.Compare? && Interned(e, consts)
    ensures ExprCode(e, base, consts) ==
            ExprCode(e.left, base, consts) + ExprCode(e.right, base + Size(e.left), consts) + [Instr(OpOf(e.cmp), 0)]
  {
  }

  lemma LogicCodeUnfold(e: Expr, base: nat, consts: seq<Const>)
    requires e.Logic? && Interned(e, consts)
    ensures ExprCode(e, base, consts) ==
            ExprCode(e.left, base, consts) + ShortCircuit(e.op, base + Size(e.left), Size(e.right)) +
            ExprCode(e.right, base + Size(e.left) + 3, consts)
  {
  }

  lemma {:induction false} ExprCodeStable(e: Expr, base: nat, consts: seq<Const>, grown: seq<Const>)
    requires Interned(e, consts) && consts <= grown
    ensures Interned(e, grown) && ExprCode(e, base, grown) == ExprCode(e, base, consts)
  {
    hide ShortCircuit, AtomOp, AtomConst, OpOf, Size;
    InternedGrows(e, consts, grown);
    match e
    case Leaf(a) => IndexStable(consts, grown, AtomConst(a));
    case Compare(_, l, r) =>
      ExprCodeStable(l, base, consts, grown);
      ExprCodeStable(r, base + Size(l), consts, grown);
    case Logic(_, l, r) =>
      ExprCodeStable(l, base, consts, grown);
      ExprCodeStable(r, base + Size(l) + 3, consts, grown);
  }

  // ----- the main chunk -----

  /** One filter of a loop: its predicate chunk and whether accepted goroutines are kept (where) or dropped (delete). */
  datatype Filter = Filter(chunk: nat, keep: bool, pred: Expr)

  /** The units the main chunk is made of. A loop runs one filter, or several after fusion. */
  datatype Macro =
    | Load(name: string)
    | LoadFile(path: string)
    | Loop(filters: seq<Filter>)
    | DupTop
    | Graph
    | Union
    | Intersect
    | Diff
    | Assign(name: string)
    | AssignMany(targets: seq<string>)

  function MacroLen(m: Macro): (n: nat)
    ensures n > 0
  {
    match m
    case LoadFile(_) => 2
    case Loop(fs) => 2 * |fs| + 5
    case _ => 1
  }

  predicate MacroInterned(m: Macro, consts: seq<Const>) {
    match m
    case Load(name) => CStr(name) in consts
    case LoadFile(path) => CStr(path) in consts
    case Assign(name) => CStr(name) in consts
    case AssignMany(names) =>
      (forall n | n in names :: CStr(n) in consts) && CMulti(Targets(names, consts)) in consts
    case _ => true
  }

  function Targets(names: seq<string>, consts: seq<Const>): (t: seq<nat>)
    requires forall n | n in names :: CStr(n) in consts
    ensures |t| == |names|
    ensures forall i | 0 <= i < |t| :: t[i] == IndexOf(consts, CStr(names[i]))
  {
    if names == [] then [] else [IndexOf(consts, CStr(names[0]))] + Targets(names[1..], consts)
  }

  /** A filter that rejects the goroutine jumps back to the NextGoroutine at next. */
  function FilterJump(f: Filter, next: nat): Instr {
    Instr(if f.keep then JumpIfFalse else JumpIfTrue, next)
  }

  function FilterCalls(fs: seq<Filter>, next: nat): (code: Chunk)
    ensures |code| == 2 * |fs|
    ensures forall i | 0 <= i < |fs| ::
              code[2 * i] == Instr(Call, fs[i].chunk) && code[2 * i + 1] == FilterJump(fs[i], next)
  {
    if fs == [] then [] else [Instr(Call, fs[0].chunk), FilterJump(fs[0], next)] + FilterCalls(fs[1..], next)
  }

  function LoopCode(fs: seq<Filter>, base: nat): (code: Chunk)
    ensures |code| == 2 * |fs| + 5
  {
    [Instr(TempDump, 0), Instr(NextGoroutine, base + 2 * |fs| + 4)] + FilterCalls(fs, base + 1) +
    [Instr(AddGoroutine, 0), Instr(JumpTo, base + 1), Instr(PushDump, 0)]
  }

  function MacroCode(m: Macro, base: nat, consts: seq<Const>): (code: Chunk)
    requires MacroInterned(m, consts)
    ensures |code| == MacroLen(m)
  {
    match m
    case Load(name) => [Instr(LoadGoroutineDump, IndexOf(consts, CStr(name)))]
    case LoadFile(path) => [Instr(LoadString, IndexOf(consts, CStr(path))), Instr(FuncLoad, 0)]
    case Loop(fs) => LoopCode(fs, base)
    case DupTop => [Instr(Dup, 0)]
    case Graph => [Instr(FuncGraph, 0)]
    case Union => [Instr(FuncUnion, 0)]
    case Intersect => [Instr(FuncIntersect, 0)]
    case Diff => [Instr(FuncDiff, 0)]
    case Assign(name) => [Instr(Assignment, IndexOf(consts, CStr(name)))]
    case AssignMany(names) => [Instr(Assignment, IndexOf(consts, CMulti(Targets(names, consts))))]
  }

  predicate MacrosInterned(ms: seq<Macro>, consts: seq<Const>) {
    forall m | m in ms :: MacroInterned(m, consts)
  }

  function Length(ms: seq<Macro>): nat {
    if ms == [] then 0 else MacroLen(ms[0]) + Length(ms[1..])
  }

  /** The code of a list of macros whose first one starts at address base. */
  function Layout(ms: seq<Macro>, base: nat, consts: seq<Const>): (code: Chunk)
    requires MacrosInterned(ms, consts)
    ensures |code| == Length(ms)
  {
    if ms == [] then []
    else MacroCode(ms[0], base, consts) + Layout(ms[1..], base + MacroLen(ms[0]), consts)
  }

  lemma InternedConcat(ms: seq<Macro>, ns: seq<Macro>, consts: seq<Const>)
    ensures MacrosInterned(ms + ns, consts) <==> MacrosInterned(ms, consts) && MacrosInterned(ns, consts)
  {
    hide MacroInterned;
    assert forall m | m in ms :: m in ms + ns;
    assert forall m | m in ns :: m in ms + ns;
  }

  lemma {:induction false} LayoutConcat(ms: seq<Macro>, ns: seq<Macro>, base: nat, consts: seq<Const>)
    requires MacrosInterned(ms, consts) && MacrosInterned(ns, consts) && MacrosInterned(ms + ns, consts)
    ensures Layout(ms + ns, base, consts) == Layout(ms, base, consts) + Layout(ns, base + Length(ms), consts)
  {
    hide MacroCode, MacroInterned, MacroLen;
    if ms == [] {
      assert ms + ns == ns;
    } else {
      var len := MacroLen(ms[0]);
      assert (ms + ns)[0] == ms[0] && (ms + ns)[1..] == ms[1..] + ns;
      LayoutConcat(ms[1..], ns, base + len, consts);
      var head, front := MacroCode(ms[0], base, consts), Layout(ms[1..], base + len, consts);
      var back := Layout(ns, base + Length(ms), consts);
      assert Layout(ms + ns, base, consts) == head + (front + back);
      assert head + (front + back) == head + front + back;
    }
  }

  lemma TargetsStable(names: seq<string>, consts: seq<Const>, grown: seq<Const>)
    requires consts <= grown && forall n | n in names :: CStr(n) in consts
    ensures forall n | n in names :: CStr(n) in grown
    ensures Targets(names, grown) == Targets(names, consts)
  {
    forall n | n in names ensures CStr(n) in grown && IndexOf(grown, CStr(n)) == IndexOf(consts, CStr(n)) {
      IndexStable(consts, grown, CStr(n));
    }
  }

  lemma MacroStable(m: Macro, base: nat, consts: seq<Const>, grown: seq<Const>)
    requires MacroInterned(m, consts) && consts <= grown
    ensures MacroInterned(m, grown) && MacroCode(m, base, grown) == MacroCode(m, base, consts)
  {
    match m
    case Load(name) => IndexStable(consts, grown, CStr(name));
    case LoadFile(path) => IndexStable(consts, grown, CStr(path));
    case Assign(name) => IndexStable(consts, grown, CStr(name));
    case AssignMany(names) =>
      TargetsStable(names, consts, grown);
      IndexStable(consts, grown, CMulti(Targets(names, consts)));
    case _ =>
  }

  lemma {:induction false} LayoutStable(ms: seq<Macro>, base: nat, consts: seq<Const>, grown: seq<Const>)
    requires MacrosInterned(ms, consts) && consts <= grown
    ensures MacrosInterned(ms, grown) && Layout(ms, base, grown) == Layout(ms, base, consts)
  {
    hide MacroCode, MacroInterned, MacroLen;
    if ms != [] {
      MacroStable(ms[0], base, consts, grown);
      LayoutStable(ms[1..], base + MacroLen(ms[0]), consts, grown);
    }
  }

  /** The chunk of a predicate. */
  function PredicateChunk(e: Expr, consts: seq<Const>): Chunk
    requires Interned(e, consts)
  {
    ExprCode(e, 0, consts) + [Instr(Return, 0)]
  }

  /**
   * code is what the compiler produces for the macros ms: the layout as chunk 0, and every filter's predicate in
   * the chunk it calls.
   */
  ghost predicate Linked(code: Code, ms: seq<Macro>) {
    && |code.chunks| > 0
    && MacrosInterned(ms, code.consts)
    && code.chunks[0] == Layout(ms, 0, code.consts)
    && forall m | m in ms && m.Loop? :: m.filters != [] && FiltersLinked(code, m.filters)
  }

  ghost predicate FiltersLinked(code: Code, fs: seq<Filter>) {
    forall f | f in fs :: FilterLinked(code, f)
  }

  ghost predicate FilterLinked(code: Code, f: Filter) {
    && 0 < f.chunk < |code.chunks|
    && Known(f.pred)
    && Interned(f.pred, code.consts)
    && code.chunks[f.chunk] == PredicateChunk(f.pred, code.consts)
  }
}
