/**
 * How predicates without parentheses group, on their tokens: `and` binds tighter
 * than `or`, comparisons tighter than both, orderings tighter than equalities,
 * and equal operators group to the left.
 */
module Precedence {
  import opened Results
  import opened Goroutines
  import opened Chunks
  import opened Predicates
  import opened Codegen
  import opened Machine
  import opened Syntax
  import opened Parser
  import opened PredicateParsing
  import opened QueryParsing
  import opened StatementParsing
  import opened Meaning
  import opened FilterQueries

  // ----- tokens and trees -----

  datatype Comparison = Comparison(left: Atom, cmp: Cmp, right: Atom)

  function ComparisonTokens(c: Comparison): seq<Token> {
    AtomTokens(c.left) + [TCompare(c.cmp)] + AtomTokens(c.right)
  }

  function ComparisonTree(c: Comparison): Expr {
    Compare(c.cmp, Leaf(c.left), Leaf(c.right))
  }

  /** Comparisons with `and` between them. */
  function RunTokens(run: seq<Comparison>): seq<Token>
    requires run != []
    decreases |run|
  {
    if |run| == 1 then ComparisonTokens(run[0])
    else RunTokens(run[..|run| - 1]) + [TLogic(And)] + ComparisonTokens(run[|run| - 1])
  }

  function RunTree(run: seq<Comparison>): Expr
    requires run != []
    decreases |run|
  {
    if |run| == 1 then ComparisonTree(run[0])
    else Logic(And, RunTree(run[..|run| - 1]), ComparisonTree(run[|run| - 1]))
  }

  /** Runs with `or` between them. */
  predicate AreRuns(runs: seq<seq<Comparison>>) {
    runs != [] && forall i | 0 <= i < |runs| :: runs[i] != []
  }

  function RunsTokens(runs: seq<seq<Comparison>>): seq<Token>
    requires AreRuns(runs)
    decreases |runs|
  {
    if |runs| == 1 then RunTokens(runs[0])
    else RunsTokens(runs[..|runs| - 1]) + [TLogic(Or)] + RunTokens(runs[|runs| - 1])
  }

  function RunsTree(runs: seq<seq<Comparison>>): Expr
    requires AreRuns(runs)
    decreases |runs|
  {
    if |runs| == 1 then RunTree(runs[0])
    else Logic(Or, RunsTree(runs[..|runs| - 1]), RunTree(runs[|runs| - 1]))
  }

  // ----- parsing -----

  /** From pos up to a closing parenthesis, the predicate e is parsed: its code is in a new chunk, and called. */
  ghost predicate ParsedAs(toks: seq<Token>, pos: nat, main: Chunk, others: seq<Chunk>, consts: seq<Const>, e: Expr,
                           end: nat)
    requires pos <= |toks|
  {
    && Interned(e, ConstsOf(e, consts))
    && ParsePredicate(toks, MainState(pos, main, others, consts)) ==
       Fine(MainState(
              end, main + [Instr(Call, |others| + 1)], others + [PredicateChunk(e, ConstsOf(e, consts))],
              ConstsOf(e, consts)))
  }

  lemma PrintedParsedAs(toks: seq<Token>, pos: nat, main: Chunk, others: seq<Chunk>, consts: seq<Const>, e: Expr)
    requires pos <= |toks| && TokensAt(toks, pos, Print(e, BIND_FUNC) + [TRightParen])
    ensures ParsedAs(toks, pos, main, others, consts, e, pos + |Print(e, BIND_FUNC)|)
  {
    hide ParsePredicate, Print, ExprCode, ConstsOf, TokensAt, Interned, PredicateChunk, MainState;
    PredicateParsed(toks, pos, main, others, consts, e, TRightParen);
  }

  lemma AtomPrinted(a: Atom, level: nat)
    requires level <= BIND_ATOM
    ensures Print(Leaf(a), level) == AtomTokens(a)
  {
  }

  lemma ComparePrinted(cmp: Cmp, l: Expr, r: Expr, level: nat)
    requires level <= CmpPower(cmp)
    ensures Print(Compare(cmp, l, r), level) == Print(l, CmpPower(cmp)) + [TCompare(cmp)] + Print(r, CmpPower(cmp) + 1)
  {
  }

  lemma ComparisonPrinted(c: Comparison, level: nat)
    requires level <= BIND_EQ
    ensures Print(ComparisonTree(c), level) == ComparisonTokens(c)
  {
    ComparePrinted(c.cmp, Leaf(c.left), Leaf(c.right), level);
    AtomPrinted(c.left, CmpPower(c.cmp));
    AtomPrinted(c.right, CmpPower(c.cmp) + 1);
  }

  lemma LogicPrinted(op: Connective, l: Expr, r: Expr, level: nat)
    requires level <= LogicPower(op)
    ensures Print(Logic(op, l, r), level) == Print(l, LogicPower(op)) + [TLogic(op)] + Print(r, LogicPower(op) + 1)
  {
  }

  lemma {:induction false} RunPrinted(run: seq<Comparison>, level: nat)
    requires run != [] && level <= BIND_AND
    ensures Print(RunTree(run), level) == RunTokens(run)
    decreases |run|
  {
    hide Print, ComparisonTokens, ComparisonTree;
    if |run| == 1 {
      ComparisonPrinted(run[0], level);
    } else {
      var front, last := run[..|run| - 1], run[|run| - 1];
      RunPrinted(front, BIND_AND);
      ComparisonPrinted(last, BIND_AND + 1);
      LogicPrinted(And, RunTree(front), ComparisonTree(last), level);
    }
  }

  lemma {:induction false} RunsPrinted(runs: seq<seq<Comparison>>, level: nat)
    requires AreRuns(runs) && level <= BIND_OR
    ensures Print(RunsTree(runs), level) == RunsTokens(runs)
    decreases |runs|
  {
    hide Print, RunTokens, RunTree;
    if |runs| == 1 {
      RunPrinted(runs[0], level);
    } else {
      var front, last := runs[..|runs| - 1], runs[|runs| - 1];
      RunsPrinted(front, BIND_OR);
      RunPrinted(last, BIND_OR + 1);
      LogicPrinted(Or, RunsTree(front), RunTree(last), level);
    }
  }

  /** `and` inside runs and `or` between them: the left-nested `or` of the left-nested `and`s. */
  lemma RunsGroup(toks: seq<Token>, pos: nat, main: Chunk, others: seq<Chunk>, consts: seq<Const>,
                  runs: seq<seq<Comparison>>)
    requires AreRuns(runs) && pos <= |toks| && TokensAt(toks, pos, RunsTokens(runs) + [TRightParen])
    ensures ParsedAs(toks, pos, main, others, consts, RunsTree(runs), pos + |RunsTokens(runs)|)
  {
    hide ParsedAs, RunsTree, RunsTokens, AreRuns, Print, TokensAt;
    RunsPrinted(runs, BIND_FUNC);
    PrintedParsedAs(toks, pos, main, others, consts, RunsTree(runs));
  }

  lemma WherePrinted(name: string, e: Expr)
    ensures PrintStatement(Statement([], Filtered(Var(name), false, FnWhere, e))) ==
            [TIdent(name), TPipe, TFunction(FnWhere), TLeftParen] + Print(e, BIND_FUNC) + [TRightParen]
  {
    hide Print;
    assert PrintDumps(Var(name)) == [TIdent(name)];
    assert [TIdent(name)] + [TPipe, TFunction(FnWhere), TLeftParen] ==
           [TIdent(name), TPipe, TFunction(FnWhere), TLeftParen];
  }

  /** The whole query of such a where. */
  lemma WhereGroup(name: string, runs: seq<seq<Comparison>>)
    requires AreRuns(runs)
    ensures var toks := [TIdent(name), TPipe, TFunction(FnWhere), TLeftParen] + RunsTokens(runs) + [TRightParen];
            var s := Statement([], Filtered(Var(name), false, FnWhere, RunsTree(runs)));
            ParseProgram(toks) == Fine(StatementBehind(s, |toks|))
  {
    hide ParseProgram, StatementBehind, RunsTokens, RunsTree, Print, AreRuns;
    RunsPrinted(runs, BIND_FUNC);
    var s := Statement([], Filtered(Var(name), false, FnWhere, RunsTree(runs)));
    WherePrinted(name, RunsTree(runs));
    StatementParsed(s);
  }

  // ----- two comparisons in a row -----

  /** `x a y b z`: the second is the right operand of the first if that is ==, !=, =~ or !~ and the second is not. */
  function Chained(x: Atom, a: Cmp, y: Atom, b: Cmp, z: Atom): Expr {
    if a in {CmpEq, CmpNe, CmpRegex, CmpNotRegex} && b in {CmpLt, CmpLe, CmpGt, CmpGe, CmpContains, CmpIn, CmpMatches}
    then Compare(a, Leaf(x), Compare(b, Leaf(y), Leaf(z)))
    else Compare(b, Compare(a, Leaf(x), Leaf(y)), Leaf(z))
  }

  lemma ComparisonsGroup(toks: seq<Token>, pos: nat, main: Chunk, others: seq<Chunk>, consts: seq<Const>,
                         x: Atom, a: Cmp, y: Atom, b: Cmp, z: Atom)
    requires var ts := AtomTokens(x) + [TCompare(a)] + AtomTokens(y) + [TCompare(b)] + AtomTokens(z);
             pos <= |toks| && TokensAt(toks, pos, ts + [TRightParen])
    ensures var ts := AtomTokens(x) + [TCompare(a)] + AtomTokens(y) + [TCompare(b)] + AtomTokens(z);
            ParsedAs(toks, pos, main, others, consts, Chained(x, a, y, b, z), pos + |ts|)
  {
    hide ParsedAs, AtomTokens, Print, TokensAt, Chained;
    ChainPrinted(x, a, y, b, z);
    PrintedParsedAs(toks, pos, main, others, consts, Chained(x, a, y, b, z));
  }

  lemma ChainPrinted(x: Atom, a: Cmp, y: Atom, b: Cmp, z: Atom)
    ensures Print(Chained(x, a, y, b, z), BIND_FUNC) ==
            AtomTokens(x) + [TCompare(a)] + AtomTokens(y) + [TCompare(b)] + AtomTokens(z)
  {
    hide AtomTokens, Print;
    var e := Chained(x, a, y, b, z);
    var p, q := CmpPower(a), CmpPower(b);
    AtomPrinted(x, p);
    AtomPrinted(z, q + 1);
    if e.cmp == a && e.left == Leaf(x) {
      AtomPrinted(y, q);
      ComparePrinted(a, Leaf(x), e.right, BIND_FUNC);
      ComparePrinted(b, Leaf(y), Leaf(z), p + 1);
      Regrouped(AtomTokens(x) + [TCompare(a)], AtomTokens(y), [TCompare(b)], AtomTokens(z));
    } else {
      AtomPrinted(y, p + 1);
      ComparePrinted(b, e.left, Leaf(z), BIND_FUNC);
      ComparePrinted(a, Leaf(x), Leaf(y), q);
    }
  }

  lemma Regrouped(a: seq<Token>, b: seq<Token>, c: seq<Token>, d: seq<Token>)
    ensures a + (b + c + d) == a + b + c + d
  {
  }

  // ----- pipes -----

  /** A pipe ends a predicate, and only a closing parenthesis may. */
  lemma PipeInPredicate(name: string, runs: seq<seq<Comparison>>, rest: seq<Token>)
    requires AreRuns(runs)
    ensures var toks := [TIdent(name), TPipe, TFunction(FnWhere), TLeftParen] + RunsTokens(runs) + [TPipe] + rest;
            ParseProgram(toks).err == Some(Bad)
  {
    hide ParseProgram, RunsTokens, RunsTree, AreRuns, Print, ConstsOf, ParseFilter, TokensAt;
    var head, ts := [TIdent(name), TPipe, TFunction(FnWhere), TLeftParen], RunsTokens(runs);
    var toks := head + ts + [TPipe] + rest;
    RunsPrinted(runs, BIND_FUNC);
    TokensBehind(head, ts + [TPipe], rest);
    assert head + (ts + [TPipe]) + rest == toks;
    var consts := [CStr(name)];
    FilterParsed(toks, 4, [Instr(LoadGoroutineDump, 0)], [], consts, FnWhere, RunsTree(runs), TPipe);
    assert toks[0] == head[0] && toks[1] == head[1] && toks[2] == head[2] && toks[3] == head[3];
    assert toks[4 + |ts|] == TPipe;
    ParsePipe(toks, name);
  }

  lemma TokensBehind(a: seq<Token>, b: seq<Token>, c: seq<Token>)
    ensures TokensAt(a + b + c, |a|, b)
  {
  }

  /** A where behind a variable and a pipe. */
  lemma ParsePipe(toks: seq<Token>, name: string)
    requires |toks| >= 4
    requires toks[0] == TIdent(name) && toks[1] == TPipe && toks[2] == TFunction(FnWhere) && toks[3] == TLeftParen
    requires var r := ParseFilter(toks, MainState(4, [Instr(LoadGoroutineDump, 0)], [], [CStr(name)]), FnWhere);
             r.err.None? && r.st.pos < |toks| && toks[r.st.pos] != TRightParen
    ensures ParseProgram(toks).err == Some(Bad)
  {
    hide ParseFilter;
    var st := MainState(4, [Instr(LoadGoroutineDump, 0)], [], [CStr(name)]);
    assert ParseArgs(toks, st, FnWhere).err == Some(Bad);
    var st1 := st.(pos := 1);
    VariableLoaded(name);
    assert ParseMethod(toks, st.(pos := 3), FnWhere).err == Some(Bad);
    assert ParseInfix(toks, Skip(st1), TPipe).err == Some(Bad);
    assert ParseLoop(toks, st1, BIND_NONE).err == Some(Bad);
    assert ParsePrefix(toks, Skip(START), TIdent(name)) == Fine(st1);
  }

  lemma VariableLoaded(name: string)
    ensures EmitConst(Skip(START).(consts := Intern([], CStr(name))), LoadGoroutineDump, CStr(name)) ==
            MainState(1, [Instr(LoadGoroutineDump, 0)], [], [CStr(name)])
  {
    var c := CStr(name);
    assert Intern([], c) == [c] && Intern([c], c) == [c];
    assert IndexOf([c], c) == 0;
    var ops := [Instr(LoadGoroutineDump, 0)];
    assert [] + ops == ops;
    assert [[]][0 := ops] == [ops] + [];
  }

  /**
   * A bare variable as operand of union, intersect or diff ends before a pipe or an operator: anything more has
   * to be in parentheses.
   */
  lemma VariableOperandEnds(name: string, fn: FnName, other: string, last: Token, rest: seq<Token>)
    requires fn.FnUnion? || fn.FnIntersect? || fn.FnDiff?
    requires last.TPipe? || last.TLogic? || last.TCompare?
    ensures ParseProgram([TIdent(name), TMethod(fn), TLeftParen, TIdent(other), last] + rest).err == Some(Bad)
  {
    hide EmitConst, Emit, ParseProgram, ParseArgs, ParseInfix, ParseFunction, ParseFilter;
    var toks := [TIdent(name), TMethod(fn), TLeftParen, TIdent(other), last] + rest;
    assert toks[0] == TIdent(name) && toks[1] == TMethod(fn) && toks[2] == TLeftParen;
    assert toks[3] == TIdent(other) && toks[4] == last;
    var st := Called(name);
    CalledPos(name);
    var st3 := Skip(Skip(st));
    var st4 := EmitConst(st3.(consts := Intern(st3.consts, CStr(other))), LoadGoroutineDump, CStr(other));
    EmitsKeepPos(st3.(consts := Intern(st3.consts, CStr(other))), other, FnOp(fn));
    assert ParsePrefix(toks, st3, TIdent(other)) == Fine(st4);
    assert ParseLoop(toks, st4, BIND_CALL) == Fine(st4);
    OperandFails(toks, name, fn, st4);
  }

  /** The same for a file, also before a method call. */
  lemma FileOperandEnds(name: string, fn: FnName, path: string, last: Token, rest: seq<Token>)
    requires fn.FnUnion? || fn.FnIntersect? || fn.FnDiff?
    requires last.TPipe? || last.TLogic? || last.TCompare? || last.TMethod?
    ensures ParseProgram(
              [TIdent(name), TMethod(fn), TLeftParen, TMethod(FnLoad), TLeftParen, TString(path), TRightParen, last]
              + rest).err == Some(Bad)
  {
    hide EmitConst, Emit, ParseProgram, ParseArgs, ParseInfix, ParsePrefix, TokensAt, Called;
    var toks := [TIdent(name), TMethod(fn), TLeftParen, TMethod(FnLoad), TLeftParen, TString(path), TRightParen, last]
                + rest;
    FileOperandTokens(name, fn, path, [last] + rest, toks);
    var st := Skip(Called(name));
    CalledPos(name);
    FileTokens(toks, st, path);
    var st4 := Skip(Emit(EmitConst(Skip(Skip(Skip(st))), LoadString, CStr(path)), FuncLoad, 0));
    KeepsPos(Skip(Skip(Skip(st))), path);
    EmitKeepsPos(st4, FnOp(fn));
    assert ParseLoop(toks, st4, BIND_CALL) == Fine(st4);
    OperandFails(toks, name, fn, st4);
  }

  lemma FileOperandTokens(name: string, fn: FnName, path: string, rest: seq<Token>, toks: seq<Token>)
    requires rest != []
    requires toks ==
             [TIdent(name), TMethod(fn), TLeftParen, TMethod(FnLoad), TLeftParen, TString(path), TRightParen] + rest
    ensures |toks| > 7 && toks[0] == TIdent(name) && toks[1] == TMethod(fn) && toks[2] == TLeftParen
    ensures toks[3] == TMethod(FnLoad) && toks[7] == rest[0]
    ensures TokensAt(toks, 3, [TMethod(FnLoad), TLeftParen, TString(path), TRightParen])
  {
    assert toks[3..7] == [TMethod(FnLoad), TLeftParen, TString(path), TRightParen];
  }

  /** The state behind a variable and a method name. */
  function Called(name: string): PState {
    EmitConst(Skip(Skip(START).(consts := Intern([], CStr(name)))), LoadGoroutineDump, CStr(name))
  }

  lemma CalledPos(name: string)
    ensures Called(name).pos == 2
  {
    EmitsKeepPos(Skip(Skip(START).(consts := Intern([], CStr(name)))), name, Noop);
  }

  /** After an operand there has to be a closing parenthesis. */
  lemma OperandFails(toks: seq<Token>, name: string, fn: FnName, st: PState)
    requires fn.FnUnion? || fn.FnIntersect? || fn.FnDiff?
    requires |toks| >= 4 && toks[0] == TIdent(name) && toks[1] == TMethod(fn) && toks[2] == TLeftParen
    requires Called(name).pos == 2 && ParseExpr(toks, Skip(Called(name)), BIND_CALL) == Fine(st)
    requires st.pos < |toks| && toks[st.pos] != TRightParen && Emit(st, FnOp(fn), 0).pos == st.pos
    ensures ParseProgram(toks).err == Some(Bad)
  {
    hide EmitConst, Emit, ParseExpr;
    var st1 := Called(name);
    assert ParseArg(toks, Skip(st1), fn) == Fine(st);
    assert Expect(toks, Emit(st, FnOp(fn), 0), TRightParen).err == Some(Bad);
    assert ParseArgs(toks, Skip(st1), fn).err == Some(Bad);
    assert ParseMethod(toks, st1, fn).err == Some(Bad);
    assert ParsePrefix(toks, Skip(START), TIdent(name)).err == Some(Bad);
    PrefixFails(toks);
  }

  lemma PrefixFails(toks: seq<Token>)
    requires toks != [] && StartsExpr(toks[0]) && ParsePrefix(toks, Skip(START), toks[0]).err == Some(Bad)
    ensures ParseProgram(toks).err == Some(Bad)
  {
    hide ParsePrefix;
  }

  /** A token that is no operator and no closing parenthesis is consumed and ends the expression, at any power. */
  lemma StrayTokenEnds(toks: seq<Token>, st: PState, power: nat)
    requires st.pos < |toks|
    requires var t := toks[st.pos]; !t.TRightParen? && !t.TLogic? && !t.TCompare? && !t.TPipe? && !t.TMethod?
    ensures ParseLoop(toks, st, power) == Fine(Skip(st))
  {
  }

  lemma EmitsKeepPos(st: PState, name: string, op: OpCode)
    ensures var st1 := EmitConst(st, LoadGoroutineDump, CStr(name));
            st1.pos == st.pos && Emit(st1, op, 0).pos == st.pos
  {
  }

  // ----- values -----

  /** For some run, all its comparisons hold of g. */
  ghost predicate SomeRun(runs: seq<seq<Comparison>>, g: Goroutine, holds: (Comparison, Goroutine) -> bool) {
    exists i | 0 <= i < |runs| :: WholeRun(runs[i], g, holds)
  }

  ghost predicate WholeRun(run: seq<Comparison>, g: Goroutine, holds: (Comparison, Goroutine) -> bool) {
    forall c | c in run :: holds(c, g)
  }

  /** No comparison of a run fails on g; holds gives their values. */
  ghost predicate RunSucceeds(w: World, run: seq<Comparison>, g: Goroutine, room: int,
                              holds: (Comparison, Goroutine) -> bool) {
    forall c | c in run :: Eval(w, ComparisonTree(c), g, room) == Ok(SBool(holds(c, g)))
  }

  ghost predicate RunsSucceed(w: World, runs: seq<seq<Comparison>>, g: Goroutine, room: int,
                              holds: (Comparison, Goroutine) -> bool) {
    forall i | 0 <= i < |runs| :: RunSucceeds(w, runs[i], g, room, holds)
  }

  lemma {:induction false} RunValue(w: World, run: seq<Comparison>, g: Goroutine, room: int,
                                    holds: (Comparison, Goroutine) -> bool)
    requires run != [] && RunSucceeds(w, run, g, room, holds)
    ensures Eval(w, RunTree(run), g, room) == Ok(SBool(WholeRun(run, g, holds)))
    decreases |run|
  {
    hide ComparisonTree, AtomValue, Apply;
    if |run| == 1 {
      assert run == [run[0]];
    } else {
      var front, last := run[..|run| - 1], run[|run| - 1];
      assert run == front + [last];
      RunValue(w, front, g, room, holds);
    }
  }

  lemma LastRun(w: World, runs: seq<seq<Comparison>>, g: Goroutine, room: int, holds: (Comparison, Goroutine) -> bool)
    requires AreRuns(runs) && RunsSucceed(w, runs, g, room, holds)
    ensures var front, last := runs[..|runs| - 1], runs[|runs| - 1];
            && RunsSucceed(w, front, g, room, holds) && RunSucceeds(w, last, g, room, holds) && last != []
            && (front != [] ==> AreRuns(front))
            && (SomeRun(runs, g, holds) <==> SomeRun(front, g, holds) || WholeRun(last, g, holds))
  {
    hide RunSucceeds, WholeRun;
    var front := runs[..|runs| - 1];
    assert forall i | 0 <= i < |front| :: runs[i] == front[i];
    if SomeRun(runs, g, holds) && !WholeRun(runs[|runs| - 1], g, holds) {
      var i :| 0 <= i < |runs| && WholeRun(runs[i], g, holds);
      assert WholeRun(front[i], g, holds);
    }
  }

  /** If no comparison fails, the predicate is true exactly if all comparisons of some run are. */
  lemma {:induction false} RunsValue(w: World, runs: seq<seq<Comparison>>, g: Goroutine, room: int,
                                     holds: (Comparison, Goroutine) -> bool)
    requires AreRuns(runs) && RunsSucceed(w, runs, g, room, holds)
    ensures Eval(w, RunsTree(runs), g, room) == Ok(SBool(SomeRun(runs, g, holds)))
    decreases |runs|
  {
    hide ComparisonTree, AtomValue, Apply, RunTree, WholeRun, RunSucceeds, RunsSucceed, SomeRun;
    var front, last := runs[..|runs| - 1], runs[|runs| - 1];
    LastRun(w, runs, g, room, holds);
    RunValue(w, last, g, room, holds);
    if |runs| == 1 {
      NoRuns(g, holds);
      assert front == [];
    } else {
      RunsValue(w, front, g, room, holds);
    }
  }

  lemma NoRuns(g: Goroutine, holds: (Comparison, Goroutine) -> bool)
    ensures !SomeRun([], g, holds)
  {
  }

  /** So where keeps exactly the goroutines of which all comparisons of some run hold. */
  lemma WhereRuns(w: World, d: Dumps, asMethod: bool, runs: seq<seq<Comparison>>, env: AEnv, room: int,
                  gs: seq<Goroutine>, holds: (Comparison, Goroutine) -> bool)
    requires AreRuns(runs) && Denote(w, d, env, room) == Ok(VDump(gs)) && room >= 2
    requires forall g | g in gs :: RunsSucceed(w, runs, g, room - 2, holds)
    ensures Denote(w, Filtered(d, asMethod, FnWhere, RunsTree(runs)), env, room) ==
            Ok(VDump(Kept(gs, (g: Goroutine) => SomeRun(runs, g, holds), true)))
  {
    hide Denote, RunsTree, SomeRun, Eval, RunsSucceed, Kept;
    forall g | g in gs ensures Eval(w, RunsTree(runs), g, room - 2) == Ok(SBool(SomeRun(runs, g, holds))) {
      RunsValue(w, runs, g, room - 2, holds);
    }
    FiltersKeep(w, d, asMethod, RunsTree(runs), env, room, gs, (g: Goroutine) => SomeRun(runs, g, holds));
  }
}
