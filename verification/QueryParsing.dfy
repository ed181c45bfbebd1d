/**
 * Parsing printed statements: the main chunk is the layout of the statement's
 * macros, every predicate is in a chunk of its own, and method and pipe style
 * make no difference.
 */
module QueryParsing {
  import opened Chunks
  import opened Predicates
  import opened Codegen
  import opened Syntax
  import opened Parser
  import opened PredicateParsing

  // ----- the structural compilation -----

  function Preds(d: Dumps): seq<Expr> {
    match d
    case Filtered(r, _, _, p) => Preds(r) + [p]
    case Combined(r, _, _, a) => Preds(r) + Preds(a)
    case _ => []
  }

  function SetMacro(fn: FnName): Macro {
    match fn
    case FnIntersect => Intersect
    case FnDiff => Diff
    case _ => Union
  }

  function FilterMacros(fn: FnName, k: nat, p: Expr): seq<Macro> {
    if fn.FnGraph? then [DupTop, Loop([Filter(k, true, p)]), Graph] else [Loop([Filter(k, !fn.FnDelete?, p)])]
  }

  /** The macros of d when its first predicate goes to chunk k. */
  function MacrosOf(d: Dumps, k: nat): seq<Macro> {
    match d
    case Var(name) => [Load(name)]
    case File(path) => [LoadFile(path)]
    case Filtered(r, _, fn, p) => MacrosOf(r, k) + FilterMacros(fn, k + |Preds(r)|, p)
    case Combined(r, _, fn, a) => MacrosOf(r, k) + MacrosOf(a, k + |Preds(r)|) + [SetMacro(fn)]
  }

  function DumpConsts(d: Dumps, consts: seq<Const>): (r: seq<Const>)
    ensures consts <= r
  {
    match d
    case Var(name) => Intern(consts, CStr(name))
    case File(path) => Intern(consts, CStr(path))
    case Filtered(r, _, _, p) => ConstsOf(p, DumpConsts(r, consts))
    case Combined(r, _, _, a) => DumpConsts(a, DumpConsts(r, consts))
  }

  ghost predicate AllInterned(ps: seq<Expr>, consts: seq<Const>) {
    forall p | p in ps :: Interned(p, consts)
  }

  function PredicateChunks(ps: seq<Expr>, consts: seq<Const>): (r: seq<Chunk>)
    requires AllInterned(ps, consts)
    ensures |r| == |ps|
    ensures forall i | 0 <= i < |ps| :: Interned(ps[i], consts) && r[i] == PredicateChunk(ps[i], consts)
  {
    assert forall i | 0 <= i < |ps| :: ps[i] in ps;
    seq(|ps|, i requires 0 <= i < |ps| => assert ps[i] in ps; PredicateChunk(ps[i], consts))
  }

  /** The parser's state after macros ms and predicates ps have been added. */
  ghost function Extended(st: PState, ms: seq<Macro>, ps: seq<Expr>, consts: seq<Const>, end: nat): PState
    requires MacrosInterned(ms, consts) && AllInterned(ps, consts)
  {
    var main := st.chunks[0] + Layout(ms, |st.chunks[0]|, consts);
    Unit(end, [main] + st.chunks[1..] + PredicateChunks(ps, consts), 0, consts)
  }

  lemma PredicatesStable(ps: seq<Expr>, consts: seq<Const>, grown: seq<Const>)
    requires AllInterned(ps, consts) && consts <= grown
    ensures AllInterned(ps, grown) && PredicateChunks(ps, grown) == PredicateChunks(ps, consts)
  {
    hide ExprCode, Interned;
    forall p | p in ps
      ensures Interned(p, grown) && (Interned(p, consts) ==> PredicateChunk(p, grown) == PredicateChunk(p, consts))
    {
      ExprCodeStable(p, 0, consts, grown);
    }
  }

  lemma PredicatesConcat(ps: seq<Expr>, qs: seq<Expr>, consts: seq<Const>)
    requires AllInterned(ps, consts) && AllInterned(qs, consts)
    ensures AllInterned(ps + qs, consts)
    ensures PredicateChunks(ps + qs, consts) == PredicateChunks(ps, consts) + PredicateChunks(qs, consts)
  {
    hide PredicateChunk, Interned;
  }

  lemma MainTwice(main: Chunk, ms: seq<Macro>, c1: seq<Const>, ns: seq<Macro>, c2: seq<Const>)
    requires MacrosInterned(ms, c1) && c1 <= c2 && MacrosInterned(ns, c2)
    ensures MacrosInterned(ms, c2) && MacrosInterned(ms + ns, c2)
    ensures var first := main + Layout(ms, |main|, c1);
            first + Layout(ns, |first|, c2) == main + Layout(ms + ns, |main|, c2)
  {
    hide Layout, MacroInterned;
    LayoutStable(ms, |main|, c1, c2);
    InternedConcat(ms, ns, c2);
    LayoutConcat(ms, ns, |main|, c2);
    var a, b := Layout(ms, |main|, c2), Layout(ns, |main| + Length(ms), c2);
    assert main + a + b == main + (a + b);
  }

  /** Extending twice is extending once by both. */
  lemma ExtendedTwice(st: PState, ms: seq<Macro>, ps: seq<Expr>, c1: seq<Const>, e1: nat,
                      ns: seq<Macro>, qs: seq<Expr>, c2: seq<Const>, e2: nat)
    requires MacrosInterned(ms, c1) && AllInterned(ps, c1) && c1 <= c2
    requires MacrosInterned(ns, c2) && AllInterned(qs, c2)
    ensures MacrosInterned(ms + ns, c2) && AllInterned(ps + qs, c2)
    ensures Extended(Extended(st, ms, ps, c1, e1), ns, qs, c2, e2) == Extended(st, ms + ns, ps + qs, c2, e2)
  {
    hide Layout, MacrosInterned, PredicateChunks, AllInterned;
    MainTwice(st.chunks[0], ms, c1, ns, c2);
    PredicatesStable(ps, c1, c2);
    PredicatesConcat(ps, qs, c2);
    var main1 := st.chunks[0] + Layout(ms, |st.chunks[0]|, c1);
    var a, b, c := st.chunks[1..], PredicateChunks(ps, c2), PredicateChunks(qs, c2);
    var main2 := [main1 + Layout(ns, |main1|, c2)];
    AppendParts(main1, main2, a, b, c);
  }

  lemma AppendParts(main1: Chunk, main2: seq<Chunk>, a: seq<Chunk>, b: seq<Chunk>, c: seq<Chunk>)
    ensures ([main1] + a + b)[0] == main1
    ensures main2 + ([main1] + a + b)[1..] + c == main2 + a + (b + c)
  {
    assert ([main1] + a + b)[1..] == a + b;
    assert main2 + (a + b) + c == main2 + a + (b + c);
  }

  // ----- small emissions -----

  lemma LayoutOne(m: Macro, base: nat, consts: seq<Const>)
    requires MacroInterned(m, consts)
    ensures MacrosInterned([m], consts) && Layout([m], base, consts) == MacroCode(m, base, consts)
  {
    hide MacroCode, MacroInterned;
    assert [m][1..] == [];
    assert Layout([m][1..], base + MacroLen(m), consts) == [];
  }

  /** Appending the code of one macro to the main chunk. */
  lemma EmittedOne(st: PState, m: Macro, code: Chunk, consts: seq<Const>)
    requires st.cur == 0 && MacroInterned(m, consts) && code == MacroCode(m, |st.chunks[0]|, consts)
    ensures MacrosInterned([m], consts) && AllInterned([], consts)
    ensures WithOps(st.(consts := consts), Ops(st) + code) == Extended(st, [m], [], consts, st.pos)
  {
    hide MacroCode, MacroInterned;
    LayoutOne(m, |st.chunks[0]|, consts);
    assert st.chunks[0 := Ops(st) + code] == [st.chunks[0] + code] + st.chunks[1..] + [];
  }

  lemma LoadEmitted(st: PState, name: string)
    requires st.cur == 0
    ensures var consts := Intern(st.consts, CStr(name));
            && MacrosInterned([Load(name)], consts) && AllInterned([], consts)
            && EmitConst(st, LoadGoroutineDump, CStr(name)) == Extended(st, [Load(name)], [], consts, st.pos)
  {
    var consts := Intern(st.consts, CStr(name));
    EmittedOne(st, Load(name), MacroCode(Load(name), |st.chunks[0]|, consts), consts);
  }

  lemma LoadFileEmitted(st: PState, path: string)
    requires st.cur == 0
    ensures var consts := Intern(st.consts, CStr(path));
            && MacrosInterned([LoadFile(path)], consts) && AllInterned([], consts)
            && Emit(EmitConst(st, LoadString, CStr(path)), FuncLoad, 0) ==
               Extended(st, [LoadFile(path)], [], consts, st.pos)
  {
    var consts := Intern(st.consts, CStr(path));
    var st1 := st.(consts := consts);
    var code := MacroCode(LoadFile(path), |st.chunks[0]|, consts);
    EmittedOne(st, LoadFile(path), code, consts);
    WithOpsTwice(st1, Ops(st) + [code[0]], Ops(st) + [code[0]] + [code[1]]);
    assert Ops(st) + [code[0]] + [code[1]] == Ops(st) + code;
  }

  lemma SetEmitted(st: PState, fn: FnName)
    requires st.cur == 0 && (fn.FnUnion? || fn.FnIntersect? || fn.FnDiff?)
    ensures MacrosInterned([SetMacro(fn)], st.consts) && AllInterned([], st.consts)
    ensures Emit(st, FnOp(fn), 0) == Extended(st, [SetMacro(fn)], [], st.consts, st.pos)
  {
    EmittedOne(st, SetMacro(fn), [Instr(FnOp(fn), 0)], st.consts);
  }

  // ----- filters -----

  /** A state in the main chunk, by its parts. */
  function MainState(pos: nat, main: Chunk, others: seq<Chunk>, consts: seq<Const>): PState {
    Unit(pos, [main] + others, 0, consts)
  }

  lemma MainParts(st: PState)
    requires st.cur == 0
    ensures st == MainState(st.pos, st.chunks[0], st.chunks[1..], st.consts)
  {
  }

  lemma MainEmit(pos: nat, main: Chunk, others: seq<Chunk>, consts: seq<Const>, op: OpCode, arg: nat)
    ensures Emit(MainState(pos, main, others, consts), op, arg) ==
            MainState(pos, main + [Instr(op, arg)], others, consts)
  {
  }

  /** Return at the end of the new chunk, and the call in chunk 0. */
  lemma CallEmitted(pos: nat, main: Chunk, others: seq<Chunk>, consts: seq<Const>, code: Chunk)
    ensures var k := |others| + 1;
            Emit(Emit(Unit(pos, [main] + others + [code], k, consts), Return, 0).(cur := 0), Call, k) ==
            MainState(pos, main + [Instr(Call, k)], others + [code + [Instr(Return, 0)]], consts)
  {
    var k := |others| + 1;
    var last := code + [Instr(Return, 0)];
    assert ([main] + others + [code])[k := last] == [main] + (others + [last]);
    MainEmit(pos, main, others + [last], consts, Call, k);
  }

  lemma BehindNew(pos: nat, chunks: seq<Chunk>, consts: seq<Const>, p: Expr, end: nat)
    ensures Interned(p, ConstsOf(p, consts))
    ensures Behind(Unit(pos, chunks + [[]], |chunks|, consts), p, end) ==
            Unit(end, chunks + [ExprCode(p, 0, ConstsOf(p, consts))], |chunks|, ConstsOf(p, consts))
  {
    hide ExprCode;
    ConstsInterned(p, consts);
    var code := ExprCode(p, 0, ConstsOf(p, consts));
    assert [] + code == code;
    assert (chunks + [[]])[|chunks| := code] == chunks + [code];
  }

  /** A predicate goes up to a closing parenthesis or a pipe. */
  predicate EndsPredicate(tok: Token) {
    tok.TRightParen? || tok.TPipe?
  }

  lemma LoopEnds(toks: seq<Token>, st: PState)
    requires st.pos < |toks| && EndsPredicate(toks[st.pos])
    ensures ParseLoop(toks, st, BIND_FUNC) == Fine(st)
  {
  }

  lemma PredicateUnfold(toks: seq<Token>, st: PState, st2: PState)
    requires st.pos <= |toks|
    requires ParseExpr(toks, Unit(st.pos, st.chunks + [[]], |st.chunks|, st.consts), BIND_FUNC) == Fine(st2)
    ensures ParsePredicate(toks, st) == Fine(Emit(Emit(st2, Return, 0).(cur := 0), Call, |st.chunks|))
  {
    hide ParseExpr, Emit;
  }

  /** parsePredicate on a printed predicate: its chunk is added and called. */
  lemma PredicateParsed(toks: seq<Token>, pos: nat, main: Chunk, others: seq<Chunk>, consts: seq<Const>, p: Expr,
                        last: Token)
    requires pos <= |toks| && TokensAt(toks, pos, Print(p, BIND_FUNC) + [last]) && EndsPredicate(last)
    ensures var consts1, end := ConstsOf(p, consts), pos + |Print(p, BIND_FUNC)|;
            && Interned(p, consts1)
            && ParsePredicate(toks, MainState(pos, main, others, consts)) ==
               Fine(MainState(end, main + [Instr(Call, |others| + 1)], others + [PredicateChunk(p, consts1)], consts1))
  {
    hide ParseExpr, ParsePredicate, ParseLoop, Print, ExprCode, Behind, Emit, ConstsOf, TokensAt;
    var consts1, end := ConstsOf(p, consts), pos + |Print(p, BIND_FUNC)|;
    var st1 := Unit(pos, [main] + others + [[]], |others| + 1, consts);
    TokensAtParts(toks, pos, Print(p, BIND_FUNC), [last]);
    TokenAt(toks, end, [last]);
    PrintedParses(toks, st1, p, BIND_FUNC, BIND_FUNC);
    BehindNew(pos, [main] + others, consts, p, end);
    var st2 := Behind(st1, p, end);
    LoopEnds(toks, st2);
    PredicateUnfold(toks, MainState(pos, main, others, consts), st2);
    CallEmitted(end, main, others, consts1, ExprCode(p, 0, consts1));
  }

  /** The filter loop that is emitted around the call. */
  lemma FilterEmitted(pos: nat, main: Chunk, others: seq<Chunk>, consts: seq<Const>, f: Filter)
    ensures var base := |main|;
            var head := [Instr(TempDump, 0), Instr(NextGoroutine, PATCH_PLACEHOLDER)];
            var st := MainState(pos, main + head + [Instr(Call, f.chunk)], others, consts);
            var st1 := Emit(st, if f.keep then JumpIfFalse else JumpIfTrue, base + 1);
            var st2 := Emit(Emit(Emit(st1, AddGoroutine, 0), JumpTo, base + 1), PushDump, 0);
            |Ops(st2)| > 0 && PatchJump(st2, base + 1, 0) ==
              Fine(MainState(pos, main + LoopCode([f], base), others, consts))
  {
    var base := |main|;
    var head := [Instr(TempDump, 0), Instr(NextGoroutine, PATCH_PLACEHOLDER)];
    var m0 := main + head + [Instr(Call, f.chunk)];
    var jump := if f.keep then JumpIfFalse else JumpIfTrue;
    var m1 := m0 + [Instr(jump, base + 1)];
    var m2 := m1 + [Instr(AddGoroutine, 0)];
    var m3 := m2 + [Instr(JumpTo, base + 1)];
    var m4 := m3 + [Instr(PushDump, 0)];
    MainEmit(pos, m0, others, consts, jump, base + 1);
    MainEmit(pos, m1, others, consts, AddGoroutine, 0);
    MainEmit(pos, m2, others, consts, JumpTo, base + 1);
    MainEmit(pos, m3, others, consts, PushDump, 0);
    var st2 := MainState(pos, m4, others, consts);
    assert Ops(st2) == m4;
    assert FilterCalls([f], base + 1) == [Instr(Call, f.chunk), FilterJump(f, base + 1)] by {
      assert [f][1..] == [] && FilterCalls([f][1..], base + 1) == [];
    }
    assert m4[base + 1 := Instr(NextGoroutine, |m4| - 1)] == main + LoopCode([f], base);
    assert WithOps(st2, main + LoopCode([f], base)) == MainState(pos, main + LoopCode([f], base), others, consts);
  }

  /** parseFilter on a printed predicate. */
  lemma FilterParsed(toks: seq<Token>, pos: nat, main: Chunk, others: seq<Chunk>, consts: seq<Const>, fn: FnName,
                     p: Expr, last: Token)
    requires fn.FnWhere? || fn.FnDelete? || fn.FnGraph?
    requires pos <= |toks| && TokensAt(toks, pos, Print(p, BIND_FUNC) + [last]) && EndsPredicate(last)
    ensures var consts1, end := ConstsOf(p, consts), pos + |Print(p, BIND_FUNC)|;
            var main1 := if fn.FnGraph? then main + [Instr(Dup, 0)] else main;
            && Interned(p, consts1)
            && ParseFilter(toks, MainState(pos, main, others, consts), fn) ==
               Fine(MainState(end, main1 + LoopCode([Filter(|others| + 1, !fn.FnDelete?, p)], |main1|),
                              others + [PredicateChunk(p, consts1)], consts1))
  {
    hide ParsePredicate, Print, PredicateChunk, LoopCode, ConstsOf, PatchJump, Interned;
    var st := MainState(pos, main, others, consts);
    var main1 := if fn.FnGraph? then main + [Instr(Dup, 0)] else main;
    MainEmit(pos, main, others, consts, Dup, 0);
    MainEmit(pos, main1, others, consts, TempDump, 0);
    var head := [Instr(TempDump, 0), Instr(NextGoroutine, PATCH_PLACEHOLDER)];
    MainEmit(pos, main1 + [Instr(TempDump, 0)], others, consts, NextGoroutine, PATCH_PLACEHOLDER);
    assert main1 + [Instr(TempDump, 0)] + [Instr(NextGoroutine, PATCH_PLACEHOLDER)] == main1 + head;
    PredicateParsed(toks, pos, main1 + head, others, consts, p, last);
    var consts1, end := ConstsOf(p, consts), pos + |Print(p, BIND_FUNC)|;
    FilterEmitted(end, main1, others + [PredicateChunk(p, consts1)], consts1, Filter(|others| + 1, !fn.FnDelete?, p));
  }

  /** The loop of a filter, and its predicate, as an extension. */
  lemma FilterExtends(st: PState, end: nat, f: Filter, consts: seq<Const>)
    requires st.cur == 0 && Interned(f.pred, consts)
    ensures MacrosInterned([Loop([f])], consts) && AllInterned([f.pred], consts)
    ensures Extended(st, [Loop([f])], [f.pred], consts, end) ==
            MainState(
              end, st.chunks[0] + LoopCode([f], |st.chunks[0]|),
              st.chunks[1..] + [PredicateChunk(f.pred, consts)], consts)
  {
    hide LoopCode, PredicateChunk, Interned;
    LayoutOne(Loop([f]), |st.chunks[0]|, consts);
    assert PredicateChunks([f.pred], consts) == [PredicateChunk(f.pred, consts)];
  }

  /** The code of graph: the loop between Dup and FuncGraph. */
  lemma GraphLayout(f: Filter, base: nat, consts: seq<Const>)
    ensures var ms := [DupTop, Loop([f]), Macro.Graph];
            && MacrosInterned(ms, consts)
            && Layout(ms, base, consts) == [Instr(Dup, 0)] + (LoopCode([f], base + 1) + [Instr(FuncGraph, 0)])
  {
    hide LoopCode;
    var loop := Loop([f]);
    LayoutOne(DupTop, base, consts);
    LayoutOne(loop, base + 1, consts);
    LayoutOne(Macro.Graph, base + 8, consts);
    assert [DupTop, loop, Macro.Graph] == [DupTop] + ([loop] + [Macro.Graph]);
    InternedConcat([loop], [Macro.Graph], consts);
    InternedConcat([DupTop], [loop] + [Macro.Graph], consts);
    LayoutConcat([loop], [Macro.Graph], base + 1, consts);
    LayoutConcat([DupTop], [loop] + [Macro.Graph], base, consts);
  }

  /** The macros of a filter call as an extension. */
  lemma FilterMacrosExtend(st: PState, end: nat, fn: FnName, p: Expr, consts: seq<Const>)
    requires st.cur == 0 && Interned(p, consts) && (fn.FnWhere? || fn.FnDelete? || fn.FnGraph?)
    ensures var k := |st.chunks|;
            var main := if fn.FnGraph? then st.chunks[0] + [Instr(Dup, 0)] else st.chunks[0];
            var main1 := main + LoopCode([Filter(k, !fn.FnDelete?, p)], |main|);
            var main2 := if fn.FnGraph? then main1 + [Instr(FuncGraph, 0)] else main1;
            && MacrosInterned(FilterMacros(fn, k, p), consts) && AllInterned([p], consts)
            && Extended(st, FilterMacros(fn, k, p), [p], consts, end) ==
               MainState(end, main2, st.chunks[1..] + [PredicateChunk(p, consts)], consts)
  {
    hide LoopCode, PredicateChunk, Interned, Layout, MacrosInterned;
    var k := |st.chunks|;
    var loop := Loop([Filter(k, !fn.FnDelete?, p)]);
    if fn.FnGraph? {
      var base := |st.chunks[0]|;
      GraphLayout(loop.filters[0], base, consts);
      assert PredicateChunks([p], consts) == [PredicateChunk(p, consts)];
      var code := LoopCode(loop.filters, base + 1);
      assert st.chunks[0] + ([Instr(Dup, 0)] + (code + [Instr(FuncGraph, 0)]))
        == st.chunks[0] + [Instr(Dup, 0)] + code + [Instr(FuncGraph, 0)];
    } else {
      FilterExtends(st, end, loop.filters[0], consts);
    }
  }

  // ----- dump expressions -----

  lemma InternedTogether(ms: seq<Macro>, ps: seq<Expr>, c1: seq<Const>, ns: seq<Macro>, qs: seq<Expr>, c2: seq<Const>)
    requires MacrosInterned(ms, c1) && AllInterned(ps, c1) && c1 <= c2
    requires MacrosInterned(ns, c2) && AllInterned(qs, c2)
    ensures MacrosInterned(ms + ns, c2) && AllInterned(ps + qs, c2)
  {
    hide Interned, MacroInterned;
    LayoutStable(ms, 0, c1, c2);
    InternedConcat(ms, ns, c2);
    PredicatesStable(ps, c1, c2);
    PredicatesConcat(ps, qs, c2);
  }

  lemma {:induction false} DumpsInterned(d: Dumps, k: nat, consts: seq<Const>)
    ensures MacrosInterned(MacrosOf(d, k), DumpConsts(d, consts)) && AllInterned(Preds(d), DumpConsts(d, consts))
  {
    hide Interned, MacrosInterned, AllInterned, ConstsOf, FilterMacros, SetMacro;
    match d
    case Filtered(r, _, fn, p) =>
      var c1, c2 := DumpConsts(r, consts), DumpConsts(d, consts);
      DumpsInterned(r, k, consts);
      OneInterned(p, c1);
      FilterMacrosInterned(fn, k + |Preds(r)|, p, c2);
      InternedTogether(MacrosOf(r, k), Preds(r), c1, FilterMacros(fn, k + |Preds(r)|, p), [p], c2);
    case Combined(r, _, fn, a) =>
      var c1, c2 := DumpConsts(r, consts), DumpConsts(d, consts);
      var ms, ns := MacrosOf(r, k), MacrosOf(a, k + |Preds(r)|);
      DumpsInterned(r, k, consts);
      DumpsInterned(a, k + |Preds(r)|, c1);
      InternedTogether(ms, Preds(r), c1, ns, Preds(a), c2);
      SetMacroInterned(fn, c2);
      NoPredicates(c2);
      InternedTogether(ms + ns, Preds(r) + Preds(a), c2, [SetMacro(fn)], [], c2);
      assert Preds(r) + Preds(a) + [] == Preds(r) + Preds(a);
    case _ => LoadInterned(d, k, consts);
  }

  lemma LoadInterned(d: Dumps, k: nat, consts: seq<Const>)
    requires d.Var? || d.File?
    ensures MacrosInterned(MacrosOf(d, k), DumpConsts(d, consts)) && AllInterned(Preds(d), DumpConsts(d, consts))
  {
  }

  lemma OneInterned(p: Expr, consts: seq<Const>)
    ensures AllInterned([p], ConstsOf(p, consts))
  {
    hide Interned, ConstsOf;
    ConstsInterned(p, consts);
  }

  lemma NoPredicates(consts: seq<Const>)
    ensures AllInterned([], consts)
  {
  }

  lemma FilterMacrosInterned(fn: FnName, k: nat, p: Expr, consts: seq<Const>)
    ensures MacrosInterned(FilterMacros(fn, k, p), consts)
  {
  }

  lemma SetMacroInterned(fn: FnName, consts: seq<Const>)
    ensures MacrosInterned([SetMacro(fn)], consts)
  {
  }

  /** The parser's state behind d. */
  ghost function DumpsBehind(st: PState, d: Dumps, end: nat): PState {
    DumpsInterned(d, |st.chunks|, st.consts);
    Extended(st, MacrosOf(d, |st.chunks|), Preds(d), DumpConsts(d, st.consts), end)
  }

  lemma DumpsBehindParts(st: PState, d: Dumps, end: nat)
    ensures var r := DumpsBehind(st, d, end);
            r.pos == end && r.cur == 0 && |r.chunks| == |st.chunks| + |Preds(d)| && r.consts == DumpConsts(d, st.consts)
  {
  }

  lemma DumpsBehindSkip(st: PState, d: Dumps, end: nat)
    ensures Skip(DumpsBehind(st, d, end)) == DumpsBehind(st, d, end + 1)
    ensures DumpsBehind(Skip(st), d, end) == DumpsBehind(st, d, end)
  {
  }

  lemma FilteredBehind(st: PState, d: Dumps, at: nat, end: nat)
    requires d.Filtered?
    ensures var st1 := DumpsBehind(st, d.recv, at);
            var k, consts := |st1.chunks|, ConstsOf(d.pred, st1.consts);
            && MacrosInterned(FilterMacros(d.fn, k, d.pred), consts) && AllInterned([d.pred], consts)
            && DumpsBehind(st, d, end) == Extended(st1, FilterMacros(d.fn, k, d.pred), [d.pred], consts, end)
  {
    hide Interned, MacroInterned, Extended, FilterMacros;
    var r := d.recv;
    var c1 := DumpConsts(r, st.consts);
    var c2 := ConstsOf(d.pred, c1);
    DumpsInterned(r, |st.chunks|, st.consts);
    DumpsBehindParts(st, r, at);
    ConstsInterned(d.pred, c1);
    var k := |st.chunks| + |Preds(r)|;
    FilterMacrosInterned(d.fn, k, d.pred, c2);
    ExtendedTwice(st, MacrosOf(r, |st.chunks|), Preds(r), c1, at, FilterMacros(d.fn, k, d.pred), [d.pred], c2, end);
  }

  lemma CombinedBehind(st: PState, d: Dumps, at: nat, mid: nat, end: nat)
    requires d.Combined?
    ensures var st1 := DumpsBehind(st, d.recv, at);
            var st2 := DumpsBehind(st1, d.arg, mid);
            && MacrosInterned([SetMacro(d.fn)], st2.consts) && AllInterned([], st2.consts)
            && DumpsBehind(st, d, end) == Extended(st2, [SetMacro(d.fn)], [], st2.consts, end)
  {
    hide Interned, MacroInterned, Extended, SetMacro;
    var r, a := d.recv, d.arg;
    var c1 := DumpConsts(r, st.consts);
    var c2 := DumpConsts(a, c1);
    DumpsInterned(r, |st.chunks|, st.consts);
    DumpsBehindParts(st, r, at);
    var k := |st.chunks| + |Preds(r)|;
    DumpsInterned(a, k, c1);
    DumpsBehindParts(DumpsBehind(st, r, at), a, mid);
    var ms, ns := MacrosOf(r, |st.chunks|), MacrosOf(a, k);
    ExtendedTwice(st, ms, Preds(r), c1, at, ns, Preds(a), c2, mid);
    SetMacroInterned(d.fn, c2);
    ExtendedTwice(st, ms + ns, Preds(r) + Preds(a), c2, mid, [SetMacro(d.fn)], [], c2, end);
    assert Preds(r) + Preds(a) + [] == Preds(r) + Preds(a);
  }

  // ----- parsing dump expressions -----

  /** What follows a complete dump expression: the end, a closing parenthesis or another call. */
  ghost predicate Follows(toks: seq<Token>, pos: nat) {
    pos == |toks| || (pos < |toks| && (toks[pos].TRightParen? || toks[pos].TPipe? || toks[pos].TMethod?))
  }

  /** An expression in parentheses or not, before a closing parenthesis, parsed as an operand. */
  ghost predicate ParsesTo(toks: seq<Token>, st: PState, power: nat, behind: PState)
    requires st.pos <= |toks|
  {
    behind.pos <= |toks| && ParseExpr(toks, st, power) == ParseLoop(toks, behind, power)
  }

  lemma VarParsed(toks: seq<Token>, st: PState, d: Dumps, power: nat)
    requires d.Var? && st.cur == 0
    requires st.pos < |toks| && toks[st.pos] == TIdent(d.name)
    requires Follows(toks, st.pos + 1) && (st.pos + 1 < |toks| ==> !toks[st.pos + 1].TMethod?)
    ensures ParsesTo(toks, st, power, DumpsBehind(st, d, st.pos + 1))
  {
    hide ParseLoop, Extended, EmitConst;
    DumpsBehindParts(st, d, st.pos + 1);
    var st1 := Skip(st);
    var consts := Intern(st.consts, CStr(d.name));
    LoadEmitted(st1, d.name);
    LoadEmitted(st1.(consts := consts), d.name);
    ExtendedFrom(st1, st, [Load(d.name)], consts, st.pos + 1);
    ExtendedFrom(st1.(consts := consts), st, [Load(d.name)], consts, st.pos + 1);
    assert ParseDump(toks, st1, [], d.name) == Fine(DumpsBehind(st, d, st.pos + 1));
    assert ParsePrefix(toks, st1, toks[st.pos]) == Fine(DumpsBehind(st, d, st.pos + 1));
  }

  /** Extending depends on the chunks alone. */
  lemma ExtendedFrom(st: PState, st': PState, ms: seq<Macro>, consts: seq<Const>, end: nat)
    requires st.chunks == st'.chunks && MacrosInterned(ms, consts) && AllInterned([], consts)
    ensures Extended(st, ms, [], consts, end) == Extended(st', ms, [], consts, end)
  {
  }

  lemma LoadArgs(toks: seq<Token>, st: PState, path: string)
    requires st.pos + 2 <= |toks| && toks[st.pos] == TString(path) && toks[st.pos + 1] == TRightParen
    ensures ParseArgs(toks, st, FnLoad) == Fine(Skip(Emit(EmitConst(Skip(st), LoadString, CStr(path)), FuncLoad, 0)))
  {
    hide EmitConst, Emit, ParseExpr, ParseFilter;
    KeepsPos(Skip(st), path);
    assert ParseArg(toks, st, FnLoad) == Fine(EmitConst(Skip(st), LoadString, CStr(path)));
  }

  lemma FileTokens(toks: seq<Token>, st: PState, path: string)
    requires st.pos <= |toks| && TokensAt(toks, st.pos, [TMethod(FnLoad), TLeftParen, TString(path), TRightParen])
    ensures st.pos + 4 <= |toks| && toks[st.pos] == TMethod(FnLoad)
    ensures var st1 := Skip(Skip(Skip(st)));
            ParsePrefix(toks, Skip(st), toks[st.pos]) ==
              Fine(Skip(Emit(EmitConst(st1, LoadString, CStr(path)), FuncLoad, 0)))
  {
    hide EmitConst, Emit, ParseArgs, ParseExpr, ParseDump, ParseFunction, TokensAt;
    var ts := [TMethod(FnLoad), TLeftParen, TString(path), TRightParen];
    TokensAtFour(toks, st.pos, ts);
    LoadArgs(toks, Skip(Skip(st)), path);
    assert ParseMethod(toks, Skip(st), FnLoad) == ParseArgs(toks, Skip(Skip(st)), FnLoad);
  }

  lemma TokensAtFour(toks: seq<Token>, pos: nat, ts: seq<Token>)
    requires TokensAt(toks, pos, ts) && |ts| == 4
    ensures pos + 4 <= |toks|
    ensures toks[pos] == ts[0] && toks[pos + 1] == ts[1] && toks[pos + 2] == ts[2] && toks[pos + 3] == ts[3]
  {
    var part := toks[pos..pos + 4];
    assert part[0] == toks[pos] && part[1] == toks[pos + 1] && part[2] == toks[pos + 2] && part[3] == toks[pos + 3];
  }

  lemma KeepsPos(st: PState, path: string)
    ensures EmitConst(st, LoadString, CStr(path)).pos == st.pos
    ensures Emit(EmitConst(st, LoadString, CStr(path)), FuncLoad, 0).pos == st.pos
  {
  }

  lemma FileParsed(toks: seq<Token>, st: PState, d: Dumps, power: nat)
    requires d.File? && st.cur == 0 && st.pos <= |toks| && TokensAt(toks, st.pos, PrintDumps(d))
    ensures ParsesTo(toks, st, power, DumpsBehind(st, d, st.pos + 4))
  {
    hide ParseLoop, ParsePrefix, Extended, EmitConst, Emit;
    FileTokens(toks, st, d.path);
    DumpsBehindParts(st, d, st.pos + 4);
    var st1 := Skip(Skip(Skip(st)));
    var consts := Intern(st.consts, CStr(d.path));
    LoadFileEmitted(st1, d.path);
    ExtendedFrom(st1, st, [LoadFile(d.path)], consts, st.pos + 4);
    ExtendedSkip(st1, [LoadFile(d.path)], consts, st.pos + 3);
  }

  lemma ExtendedSkip(st: PState, ms: seq<Macro>, consts: seq<Const>, end: nat)
    requires MacrosInterned(ms, consts) && AllInterned([], consts)
    ensures Skip(Extended(st, ms, [], consts, end)) == Extended(st, ms, [], consts, end + 1)
  {
  }

  function ArgTokens(d: Dumps): seq<Token>
    requires d.Filtered? || d.Combined?
  {
    if d.Filtered? then Print(d.pred, BIND_FUNC) else PrintOperand(d.arg)
  }

  /** A call with its receiver already parsed. */
  ghost predicate CallParses(toks: seq<Token>, st: PState, d: Dumps, at: nat)
    requires d.Filtered? || d.Combined?
  {
    var end := at + 2 + |ArgTokens(d)|;
    at <= |toks| && ParseMethod(toks, DumpsBehind(st, d.recv, at), d.fn) == Fine(DumpsBehind(st, d, end))
  }

  lemma CallTokensAt(toks: seq<Token>, at: nat, d: Dumps)
    requires (d.Filtered? || d.Combined?) && TokensAt(toks, at, [TLeftParen] + ArgTokens(d) + [TRightParen])
    ensures var end := at + 1 + |ArgTokens(d)|;
            at < end < |toks| && toks[at] == TLeftParen && TokensAt(toks, at + 1, ArgTokens(d) + [TRightParen])
            && TokensAt(toks, at + 1, ArgTokens(d)) && toks[end] == TRightParen
  {
    hide ArgTokens;
    var ts := ArgTokens(d);
    assert [TLeftParen] + ts + [TRightParen] == [TLeftParen] + (ts + [TRightParen]);
    TokensAtParts(toks, at, [TLeftParen], ts + [TRightParen]);
    TokenAt(toks, at, [TLeftParen]);
    TokensAtParts(toks, at + 1, ts, [TRightParen]);
    TokenAt(toks, at + 1 + |ts|, [TRightParen]);
  }

  /** The arguments of a call, behind its receiver and the token at at. */
  ghost predicate ArgsParse(toks: seq<Token>, st: PState, d: Dumps, at: nat)
    requires d.Filtered? || d.Combined?
  {
    var end := at + 2 + |ArgTokens(d)|;
    at < |toks| && ParseArgs(toks, DumpsBehind(st, d.recv, at + 1), d.fn) == Fine(DumpsBehind(st, d, end))
  }

  /** A method call has its arguments behind an opening parenthesis. */
  lemma CallOfArgs(toks: seq<Token>, st: PState, d: Dumps, at: nat)
    requires (d.Filtered? || d.Combined?) && ArgsParse(toks, st, d, at) && toks[at] == TLeftParen
    ensures CallParses(toks, st, d, at)
  {
    hide ParseArgs, DumpsBehind, ArgTokens;
    DumpsBehindParts(st, d.recv, at);
    DumpsBehindSkip(st, d.recv, at);
    assert Expect(toks, DumpsBehind(st, d.recv, at), TLeftParen) == Fine(DumpsBehind(st, d.recv, at + 1));
  }

  lemma FilterArgsParse(toks: seq<Token>, st: PState, d: Dumps, at: nat)
    requires d.Filtered? && WellFormed(d) && st.cur == 0
    requires at < |toks| && TokensAt(toks, at + 1, ArgTokens(d) + [TRightParen])
    ensures ArgsParse(toks, st, d, at)
  {
    hide ParseFilter, ParseArgs, Extended, Print, LoopCode, ConstsOf, PredicateChunk, FilterMacros, Interned,
      TokensAt;
    var st1 := DumpsBehind(st, d.recv, at + 1);
    DumpsBehindParts(st, d.recv, at + 1);
    MainParts(st1);
    var main, others := st1.chunks[0], st1.chunks[1..];
    assert st1 == MainState(at + 1, main, others, st1.consts);
    FilterParsed(toks, at + 1, main, others, st1.consts, d.fn, d.pred, TRightParen);
    var end := at + 1 + |ArgTokens(d)|;
    LastTokenAt(toks, at + 1, ArgTokens(d), TRightParen);
    var main1 := if d.fn.FnGraph? then main + [Instr(Dup, 0)] else main;
    var consts := ConstsOf(d.pred, st1.consts);
    MainEmit(end, main1 + LoopCode([Filter(|others| + 1, !d.fn.FnDelete?, d.pred)], |main1|),
      others + [PredicateChunk(d.pred, consts)], consts, FuncGraph, 0);
    FilteredBehind(st, d, at + 1, end + 1);
    FilterMacrosExtend(st1, end + 1, d.fn, d.pred, consts);
    FilterUnfold(toks, st1, d.fn, ParseFilter(toks, st1, d.fn).st);
  }

  lemma LastTokenAt(toks: seq<Token>, pos: nat, ts: seq<Token>, last: Token)
    requires TokensAt(toks, pos, ts + [last])
    ensures pos + |ts| < |toks| && toks[pos + |ts|] == last
  {
    TokensAtParts(toks, pos, ts, [last]);
    TokenAt(toks, pos + |ts|, [last]);
  }

  /** The arguments of a call whose argument is a predicate, up to the closing parenthesis. */
  lemma FilterUnfold(toks: seq<Token>, st: PState, fn: FnName, st1: PState)
    requires fn.FnWhere? || fn.FnDelete? || fn.FnGraph?
    requires st.pos <= |toks| && st1.pos < |toks| && toks[st1.pos] == TRightParen
    requires ParseFilter(toks, st, fn) == Fine(st1)
    ensures ParseArgs(toks, st, fn) == Fine(Skip(if fn.FnGraph? then Emit(st1, FuncGraph, 0) else st1))
  {
    hide ParseFilter, Emit;
    EmitKeepsPos(st1, FuncGraph);
    var st2 := if fn.FnGraph? then Emit(st1, FuncGraph, 0) else st1;
    assert ParseArg(toks, st, fn) == Fine(st1);
    assert Expect(toks, st2, TRightParen) == Fine(Skip(st2));
  }

  /** An operand of union, intersect or diff, up to its closing parenthesis. */
  ghost predicate OperandParses(toks: seq<Token>, st: PState, a: Dumps) {
    var end := st.pos + |PrintOperand(a)|;
    st.pos <= |toks| && ParseExpr(toks, st, BIND_CALL) == Fine(DumpsBehind(st, a, end))
  }

  lemma CombinedArgsParse(toks: seq<Token>, st: PState, d: Dumps, at: nat)
    requires d.Combined? && WellFormed(d) && st.cur == 0
    requires at < |toks| && TokensAt(toks, at + 1, ArgTokens(d) + [TRightParen])
    requires OperandParses(toks, DumpsBehind(st, d.recv, at + 1), d.arg)
    ensures ArgsParse(toks, st, d, at)
  {
    hide ParseArgs, ParseExpr, Extended, DumpsBehind, PrintOperand, TokensAt;
    var st1 := DumpsBehind(st, d.recv, at + 1);
    DumpsBehindParts(st, d.recv, at + 1);
    var end := at + 1 + |ArgTokens(d)|;
    LastTokenAt(toks, at + 1, ArgTokens(d), TRightParen);
    var st2 := DumpsBehind(st1, d.arg, end);
    DumpsBehindParts(st1, d.arg, end);
    SetEmitted(st2, d.fn);
    CombinedBehind(st, d, at + 1, end, end);
    DumpsBehindSkip(st, d, end);
    DumpsBehindParts(st, d, end);
    MethodUnfold(toks, st1, d.fn, st2);
  }

  /** The arguments of a call whose argument is a dump, up to the closing parenthesis. */
  lemma MethodUnfold(toks: seq<Token>, st: PState, fn: FnName, st1: PState)
    requires fn.FnUnion? || fn.FnIntersect? || fn.FnDiff?
    requires st.pos <= |toks| && st1.pos < |toks| && toks[st1.pos] == TRightParen
    requires ParseExpr(toks, st, BIND_CALL) == Fine(st1)
    ensures ParseArgs(toks, st, fn) == Fine(Skip(Emit(st1, FnOp(fn), 0)))
  {
    hide ParseExpr, Emit;
    EmitKeepsPos(st1, FnOp(fn));
    assert ParseArg(toks, st, fn) == Fine(st1);
    assert Expect(toks, Emit(st1, FnOp(fn), 0), TRightParen) == Fine(Skip(Emit(st1, FnOp(fn), 0)));
  }

  lemma EmitKeepsPos(st: PState, op: OpCode)
    ensures Emit(st, op, 0).pos == st.pos
  {
  }

  lemma OperandParsed(toks: seq<Token>, st: PState, a: Dumps)
    requires st.cur == 0 && TokensAt(toks, st.pos, PrintOperand(a) + [TRightParen])
    requires !a.Var? ==>
               && st.pos + 1 <= |toks|
               && ParsesTo(toks, Skip(st), 1, DumpsBehind(Skip(st), a, st.pos + 1 + |PrintDumps(a)|))
    ensures OperandParses(toks, st, a)
  {
    hide Extended, DumpsBehind, PrintDumps, ParsePrefix;
    TokensAtParts(toks, st.pos, PrintOperand(a), [TRightParen]);
    var end := st.pos + |PrintOperand(a)|;
    TokenAt(toks, end, [TRightParen]);
    TokenAt(toks, st.pos, PrintOperand(a));
    DumpsBehindParts(st, a, end);
    var st2 := DumpsBehind(st, a, end);
    assert ParseLoop(toks, st2, BIND_CALL) == Fine(st2);
    if a.Var? {
      VarParsed(toks, st, a, BIND_CALL);
    } else {
      ParenOperand(toks, st, a);
    }
  }

  lemma ParenOperand(toks: seq<Token>, st: PState, a: Dumps)
    requires st.cur == 0 && st.pos < |toks| && toks[st.pos] == TLeftParen
    requires var end := st.pos + 1 + |PrintDumps(a)|;
             && end < |toks| && toks[end] == TRightParen
             && ParsesTo(toks, Skip(st), 1, DumpsBehind(Skip(st), a, end))
    ensures var end := st.pos + 2 + |PrintDumps(a)|;
            ParsesTo(toks, st, BIND_CALL, DumpsBehind(st, a, end))
  {
    hide Extended, DumpsBehind, PrintDumps;
    var end := st.pos + 1 + |PrintDumps(a)|;
    var st1 := DumpsBehind(Skip(st), a, end);
    DumpsBehindParts(Skip(st), a, end);
    DumpsBehindSkip(st, a, end);
    DumpsBehindParts(st, a, end + 1);
    assert ParseLoop(toks, st1, 1) == Fine(st1);
    assert Expect(toks, st1, TRightParen) == Fine(Skip(st1));
    assert ParsePrefix(toks, Skip(st), TLeftParen) == Fine(Skip(st1));
  }

  function CallHead(asMethod: bool, fn: FnName): seq<Token> {
    if asMethod then [TMethod(fn)] else [TPipe, TFunction(fn)]
  }

  lemma DumpsPrinted(d: Dumps)
    requires d.Filtered? || d.Combined?
    ensures CallTokens(d.asMethod, d.fn) == CallHead(d.asMethod, d.fn) + [TLeftParen]
    ensures PrintDumps(d) ==
            PrintDumps(d.recv) + (CallHead(d.asMethod, d.fn) + [TLeftParen]) + ArgTokens(d) + [TRightParen]
  {
    hide Print;
  }

  lemma DumpsTokens(toks: seq<Token>, pos: nat, d: Dumps)
    requires (d.Filtered? || d.Combined?) && TokensAt(toks, pos, PrintDumps(d))
    ensures var at0 := pos + |PrintDumps(d.recv)|;
            var at := at0 + |CallTokens(d.asMethod, d.fn)| - 1;
            && TokensAt(toks, pos, PrintDumps(d.recv))
            && at < |toks| && toks[at0] == (if d.asMethod then TMethod(d.fn) else TPipe)
            && (!d.asMethod ==> toks[at0 + 1] == TFunction(d.fn))
            && TokensAt(toks, at, [TLeftParen] + ArgTokens(d) + [TRightParen])
            && pos + |PrintDumps(d)| == at + 2 + |ArgTokens(d)|
  {
    hide ArgTokens, PrintDumps, CallTokens, CallHead, TokensAt;
    var r, head, ts := PrintDumps(d.recv), CallHead(d.asMethod, d.fn), ArgTokens(d);
    DumpsPrinted(d);
    Regroup(r, head, TLeftParen, ts, TRightParen);
    TokensAtParts(toks, pos, r, head + ([TLeftParen] + ts + [TRightParen]));
    TokensAtParts(toks, pos + |r|, head, [TLeftParen] + ts + [TRightParen]);
    TokenAt(toks, pos + |r| + |head|, [TLeftParen] + ts + [TRightParen]);
    HeadTokens(toks, pos + |r|, d.asMethod, d.fn);
  }

  lemma Regroup(r: seq<Token>, head: seq<Token>, x: Token, ts: seq<Token>, y: Token)
    ensures r + (head + [x]) + ts + [y] == r + (head + ([x] + ts + [y]))
  {
  }

  lemma HeadTokens(toks: seq<Token>, pos: nat, asMethod: bool, fn: FnName)
    requires TokensAt(toks, pos, CallHead(asMethod, fn))
    ensures pos < |toks| && toks[pos] == (if asMethod then TMethod(fn) else TPipe)
    ensures !asMethod ==> pos + 1 < |toks| && toks[pos + 1] == TFunction(fn)
  {
    var h := CallHead(asMethod, fn);
    assert forall i | 0 <= i < |h| :: toks[pos..pos + |h|][i] == h[i];
  }

  /** A call behind a receiver that the operator loop has just passed. */
  lemma InfixCall(toks: seq<Token>, st: PState, d: Dumps, at0: nat, power: nat)
    requires (d.Filtered? || d.Combined?) && power <= BIND_PIPE
    requires var at := at0 + |CallTokens(d.asMethod, d.fn)| - 1;
             at < |toks| && CallParses(toks, st, d, at)
    requires toks[at0] == (if d.asMethod then TMethod(d.fn) else TPipe)
    requires !d.asMethod ==> toks[at0 + 1] == TFunction(d.fn)
    requires st.pos <= |toks| && ParsesTo(toks, st, power, DumpsBehind(st, d.recv, at0))
    ensures var end := at0 + |CallTokens(d.asMethod, d.fn)| + 1 + |ArgTokens(d)|;
            ParsesTo(toks, st, power, DumpsBehind(st, d, end))
  {
    hide Extended, DumpsBehind, ParseMethod, ArgTokens, ParseLogic, ParseExpr;
    var end := at0 + |CallTokens(d.asMethod, d.fn)| + 1 + |ArgTokens(d)|;
    DumpsBehindParts(st, d.recv, at0);
    DumpsBehindParts(st, d, end);
    DumpsBehindSkip(st, d.recv, at0);
    DumpsBehindSkip(st, d.recv, at0 + 1);
    DumpsBehindParts(st, d.recv, at0 + 1);
    DumpsBehindParts(st, d.recv, at0 + 2);
    var st1 := DumpsBehind(st, d.recv, at0);
    assert ParseInfix(toks, Skip(st1), toks[at0]) == Fine(DumpsBehind(st, d, end));
  }

  /** A method call directly behind a variable is parsed with the variable. */
  lemma VarMethodParsed(toks: seq<Token>, st: PState, d: Dumps, power: nat)
    requires (d.Filtered? || d.Combined?) && d.recv.Var? && d.asMethod && st.cur == 0
    requires st.pos + 2 < |toks| && toks[st.pos] == TIdent(d.recv.name) && toks[st.pos + 1] == TMethod(d.fn)
    requires CallParses(toks, st, d, st.pos + 2)
    ensures ParsesTo(toks, st, power, DumpsBehind(st, d, st.pos + 4 + |ArgTokens(d)|))
  {
    hide Extended, ParseMethod, ParseLoop, ArgTokens, EmitConst, ParseExpr;
    var st1 := Skip(st);
    var consts := Intern(st.consts, CStr(d.recv.name));
    var st2 := Skip(st1.(consts := consts));
    LoadEmitted(st2, d.recv.name);
    ExtendedFrom(st2, st, [Load(d.recv.name)], consts, st.pos + 2);
    assert DumpsBehind(st, d.recv, st.pos + 2) == EmitConst(st2, LoadGoroutineDump, CStr(d.recv.name));
    hide DumpsBehind;
    var end := st.pos + 4 + |ArgTokens(d)|;
    DumpsBehindParts(st, d, end);
    DumpsBehindParts(st, d.recv, st.pos + 2);
    assert ParseDump(toks, st1, [], d.recv.name) == Fine(DumpsBehind(st, d, end));
    assert ParsePrefix(toks, st1, toks[st.pos]) == Fine(DumpsBehind(st, d, end));
    ExprUnfold(toks, st, power);
  }

  lemma ExprUnfold(toks: seq<Token>, st: PState, power: nat)
    requires st.pos < |toks| && StartsExpr(toks[st.pos])
    ensures var r := ParsePrefix(toks, Skip(st), toks[st.pos]);
            r.err.None? ==> ParseExpr(toks, st, power) == ParseLoop(toks, r.st, power)
  {
    hide ParsePrefix, ParseLoop;
  }

  /** Parsing a printed dump expression, in any mix of method and pipe style. */
  lemma {:induction false} DumpsParsed(toks: seq<Token>, st: PState, d: Dumps, power: nat)
    requires power <= BIND_PIPE && st.cur == 0 && WellFormed(d)
    requires TokensAt(toks, st.pos, PrintDumps(d)) && Follows(toks, st.pos + |PrintDumps(d)|)
    requires d.Var? && st.pos + 1 < |toks| ==> !toks[st.pos + 1].TMethod?
    ensures ParsesTo(toks, st, power, DumpsBehind(st, d, st.pos + |PrintDumps(d)|))
    decreases d, 3
  {
    hide *;
    if d.Var? || d.File? {
      BaseParsed(toks, st, d, power);
    } else {
      VarLength(d);
      var at0 := st.pos + |PrintDumps(d.recv)|;
      var at := at0 + |CallTokens(d.asMethod, d.fn)| - 1;
      DumpsTokens(toks, st.pos, d);
      ReceiverWellFormed(d);
      CallParsed(toks, st, d, at);
      if d.recv.Var? && d.asMethod {
        TokenAt(toks, st.pos, PrintDumps(d.recv));
        VarMethodParsed(toks, st, d, power);
      } else {
        ReceiverFollows(toks, at0, d);
        DumpsParsed(toks, st, d.recv, power);
        InfixCall(toks, st, d, at0, power);
      }
    }
  }

  lemma BaseParsed(toks: seq<Token>, st: PState, d: Dumps, power: nat)
    requires (d.Var? || d.File?) && st.cur == 0
    requires TokensAt(toks, st.pos, PrintDumps(d)) && Follows(toks, st.pos + |PrintDumps(d)|)
    requires d.Var? && st.pos + 1 < |toks| ==> !toks[st.pos + 1].TMethod?
    ensures ParsesTo(toks, st, power, DumpsBehind(st, d, st.pos + |PrintDumps(d)|))
  {
    if d.Var? {
      TokenAt(toks, st.pos, PrintDumps(d));
      VarParsed(toks, st, d, power);
    } else {
      FileParsed(toks, st, d, power);
    }
  }

  lemma ReceiverWellFormed(d: Dumps)
    requires WellFormed(d) && (d.Filtered? || d.Combined?)
    ensures WellFormed(d.recv) && (d.Combined? ==> WellFormed(d.arg))
  {
  }

  lemma ReceiverFollows(toks: seq<Token>, pos: nat, d: Dumps)
    requires d.Filtered? || d.Combined?
    requires pos < |toks| && toks[pos] == (if d.asMethod then TMethod(d.fn) else TPipe)
    ensures Follows(toks, pos)
  {
  }

  lemma VarLength(d: Dumps)
    requires d.Filtered? || d.Combined?
    ensures d.recv.Var? ==> PrintDumps(d.recv) == [TIdent(d.recv.name)]
    ensures |CallTokens(d.asMethod, d.fn)| == if d.asMethod then 2 else 3
  {
  }

  lemma NestedTokens(toks: seq<Token>, pos: nat, a: Dumps)
    requires !a.Var? && TokensAt(toks, pos, PrintOperand(a) + [TRightParen])
    ensures TokensAt(toks, pos + 1, PrintDumps(a)) && pos + 1 + |PrintDumps(a)| < |toks|
    ensures Follows(toks, pos + 1 + |PrintDumps(a)|)
  {
    hide PrintDumps, PrintOperand;
    var ts := PrintDumps(a);
    NestedRegrouped(a);
    TokensAtParts(toks, pos, [TLeftParen], ts + ([TRightParen] + [TRightParen]));
    TokensAtParts(toks, pos + 1, ts, [TRightParen] + [TRightParen]);
    TokenAt(toks, pos + 1 + |ts|, [TRightParen] + [TRightParen]);
  }

  lemma NestedRegrouped(a: Dumps)
    requires !a.Var?
    ensures PrintOperand(a) + [TRightParen] == [TLeftParen] + (PrintDumps(a) + ([TRightParen] + [TRightParen]))
  {
    hide PrintDumps;
  }

  lemma BehindAt(st: PState, d: Dumps, at: nat)
    ensures DumpsBehind(st, d, at).cur == 0 && DumpsBehind(st, d, at).pos == at
  {
    hide DumpsBehind;
    DumpsBehindParts(st, d, at);
  }

  lemma {:induction false} CallParsed(toks: seq<Token>, st: PState, d: Dumps, at: nat)
    requires (d.Filtered? || d.Combined?) && st.cur == 0 && WellFormed(d)
    requires TokensAt(toks, at, [TLeftParen] + ArgTokens(d) + [TRightParen])
    ensures CallParses(toks, st, d, at)
    decreases d, 2
  {
    hide *;
    CallTokensAt(toks, at, d);
    ArgsParsed(toks, st, d, at);
    CallOfArgs(toks, st, d, at);
  }

  lemma {:induction false} ArgsParsed(toks: seq<Token>, st: PState, d: Dumps, at: nat)
    requires (d.Filtered? || d.Combined?) && st.cur == 0 && WellFormed(d)
    requires at < |toks| && TokensAt(toks, at + 1, ArgTokens(d) + [TRightParen])
    ensures ArgsParse(toks, st, d, at)
    decreases d, 1
  {
    hide *;
    if d.Filtered? {
      FilterArgsParse(toks, st, d, at);
    } else {
      OperandIsArg(d);
      ReceiverWellFormed(d);
      BehindAt(st, d.recv, at + 1);
      var st1 := DumpsBehind(st, d.recv, at + 1);
      OperandParsesAt(toks, st1, d.arg);
      CombinedArgsParse(toks, st, d, at);
    }
  }

  lemma OperandIsArg(d: Dumps)
    requires d.Combined?
    ensures ArgTokens(d) == PrintOperand(d.arg)
  {
  }

  lemma {:induction false} OperandParsesAt(toks: seq<Token>, st: PState, a: Dumps)
    requires st.cur == 0 && WellFormed(a) && TokensAt(toks, st.pos, PrintOperand(a) + [TRightParen])
    ensures OperandParses(toks, st, a)
    decreases a, 4
  {
    hide *;
    if !a.Var? {
      NestedTokens(toks, st.pos, a);
      SkipsParen(st);
      DumpsParsed(toks, Skip(st), a, 1);
    }
    OperandParsed(toks, st, a);
  }

  lemma SkipsParen(st: PState)
    ensures Skip(st).cur == st.cur && Skip(st).pos == st.pos + 1 && 1 <= BIND_PIPE
  {
  }
}
