/**
 * Calls with the receiver as the first argument, as in `union(a.where(p), b)`:
 * they compile like method calls, except on a bare variable, whose comma is
 * taken for a list of assignment targets.
 */
module FunctionStyle {
  import opened Results
  import opened Chunks
  import opened Predicates
  import opened Codegen
  import opened Syntax
  import opened Parser
  import opened PredicateParsing
  import opened QueryParsing
  import opened StatementParsing
  import opened Precedence

  /** A file, or a method call on a variable. */
  predicate Complete(d: Dumps) {
    d.File? || ((d.Filtered? || d.Combined?) && d.recv.Var? && d.asMethod)
  }

  /** A receiver as a first argument: in parentheses unless it is a variable, or complete and bare is set. */
  function ReceiverTokens(r: Dumps, bare: bool): seq<Token> {
    if bare && Complete(r) then PrintDumps(r) else PrintOperand(r)
  }

  /** The call d with its receiver as the first argument. */
  function FunctionTokens(d: Dumps, bare: bool): seq<Token>
    requires d.Filtered? || d.Combined?
  {
    [TFunction(d.fn), TLeftParen] + ReceiverTokens(d.recv, bare) + [TComma] + ArgTokens(d) + [TRightParen]
  }

  lemma FunctionParts(d: Dumps, bare: bool)
    requires d.Filtered? || d.Combined?
    ensures var toks, at := FunctionTokens(d, bare), 2 + |ReceiverTokens(d.recv, bare)|;
            && |toks| == at + 2 + |ArgTokens(d)|
            && toks[0] == TFunction(d.fn) && toks[1] == TLeftParen && toks[at] == TComma
            && TokensAt(toks, 2, ReceiverTokens(d.recv, bare)) && TokensAt(toks, at + 1, ArgTokens(d) + [TRightParen])
  {
    hide ReceiverTokens, ArgTokens;
    var a, b, c := [TFunction(d.fn), TLeftParen], ReceiverTokens(d.recv, bare), ArgTokens(d) + [TRightParen];
    var toks := FunctionTokens(d, bare);
    assert toks == a + b + [TComma] + c;
    assert toks[2..2 + |b|] == b;
    assert toks[3 + |b|..3 + |b| + |c|] == c;
  }

  // ----- receivers that are no variables -----

  lemma CommaEnds(toks: seq<Token>, st: PState)
    requires st.pos < |toks| && toks[st.pos] == TComma
    ensures ParseLoop(toks, st, BIND_CALL) == Fine(Skip(st))
  {
    StrayTokenEnds(toks, st, BIND_CALL);
  }

  lemma ReceiverParsed(d: Dumps, bare: bool)
    requires (d.Filtered? || d.Combined?) && WellFormed(d) && !d.recv.Var?
    ensures var toks, at := FunctionTokens(d, bare), 2 + |ReceiverTokens(d.recv, bare)|;
            ParseExpr(toks, Skip(Skip(START)), BIND_CALL) == Fine(DumpsBehind(START, d.recv, at + 1))
  {
    hide *;
    var toks, r := FunctionTokens(d, bare), d.recv;
    var st, at := Skip(Skip(START)), 2 + |ReceiverTokens(r, bare)|;
    FunctionParts(d, bare);
    StartParts();
    ReceiverWellFormed(d);
    ReceiverIs(r, bare);
    if ReceiverTokens(r, bare) == PrintOperand(r) {
      ParenReceiver(toks, st, r);
    } else {
      CompleteParsed(toks, st, r, BIND_CALL);
    }
    DumpsBehindSkips(r, at);
    CommaEnds(toks, DumpsBehind(st, r, at));
    ParsesToIs(toks, st, BIND_CALL, DumpsBehind(st, r, at));
  }

  lemma ReceiverIs(r: Dumps, bare: bool)
    ensures ReceiverTokens(r, bare) != PrintOperand(r) ==> Complete(r) && ReceiverTokens(r, bare) == PrintDumps(r)
  {
  }

  lemma ParenReceiver(toks: seq<Token>, st: PState, r: Dumps)
    requires st.cur == 0 && WellFormed(r) && !r.Var? && st.pos <= |toks| && TokensAt(toks, st.pos, PrintOperand(r))
    ensures ParsesTo(toks, st, BIND_CALL, DumpsBehind(st, r, st.pos + |PrintOperand(r)|))
  {
    hide *;
    OperandParts(toks, st.pos, r);
    SkipsParen(st);
    DumpsParsed(toks, Skip(st), r, 1);
    ParenOperand(toks, st, r);
  }

  lemma OperandParts(toks: seq<Token>, pos: nat, r: Dumps)
    requires !r.Var? && TokensAt(toks, pos, PrintOperand(r))
    ensures pos < |toks| && TokensAt(toks, pos + 1, PrintDumps(r)) && toks[pos] == TLeftParen
    ensures var end := pos + 1 + |PrintDumps(r)|; end < |toks| && toks[end] == TRightParen && Follows(toks, end)
    ensures |PrintOperand(r)| == 2 + |PrintDumps(r)|
  {
    hide PrintDumps;
    var ts := PrintDumps(r);
    assert PrintOperand(r) == [TLeftParen] + (ts + [TRightParen]);
    TokensAtParts(toks, pos, [TLeftParen], ts + [TRightParen]);
    TokenAt(toks, pos, [TLeftParen]);
    TokensAtParts(toks, pos + 1, ts, [TRightParen]);
    TokenAt(toks, pos + 1 + |ts|, [TRightParen]);
  }

  lemma CompleteParsed(toks: seq<Token>, st: PState, r: Dumps, power: nat)
    requires st.cur == 0 && WellFormed(r) && Complete(r) && st.pos <= |toks| && TokensAt(toks, st.pos, PrintDumps(r))
    ensures ParsesTo(toks, st, power, DumpsBehind(st, r, st.pos + |PrintDumps(r)|))
  {
    hide PrintDumps, TokensAt, DumpsBehind, ParsesTo, CallTokens, ArgTokens;
    if r.File? {
      FileLength(r);
      FileParsed(toks, st, r, power);
    } else {
      VarLength(r);
      DumpsTokens(toks, st.pos, r);
      TokenAt(toks, st.pos, PrintDumps(r.recv));
      CallParsed(toks, st, r, st.pos + 2);
      VarMethodParsed(toks, st, r, power);
    }
  }

  lemma FileLength(r: Dumps)
    requires r.File?
    ensures |PrintDumps(r)| == 4
  {
  }

  lemma ParsesToIs(toks: seq<Token>, st: PState, power: nat, behind: PState)
    requires st.pos <= |toks| && ParsesTo(toks, st, power, behind)
    ensures behind.pos <= |toks| && ParseExpr(toks, st, power) == ParseLoop(toks, behind, power)
  {
  }

  lemma StartParts()
    ensures Skip(Skip(START)).pos == 2 && Skip(Skip(START)).cur == 0
  {
  }

  lemma DumpsBehindSkips(r: Dumps, end: nat)
    ensures DumpsBehind(Skip(Skip(START)), r, end) == DumpsBehind(START, r, end)
    ensures Skip(DumpsBehind(START, r, end)) == DumpsBehind(START, r, end + 1)
    ensures DumpsBehind(START, r, end).pos == end
  {
    hide DumpsBehind;
    DumpsBehindSkip(START, r, end);
    DumpsBehindSkip(Skip(START), r, end);
    DumpsBehindParts(START, r, end);
  }

  lemma FunctionUnfold(toks: seq<Token>, fn: FnName, r: PState, end: PState)
    requires |toks| >= 2 && toks[0] == TFunction(fn) && toks[1] == TLeftParen && r.pos <= |toks| == end.pos
    requires ParseExpr(toks, Skip(Skip(START)), BIND_CALL) == Fine(r) && ParseArgs(toks, r, fn) == Fine(end)
    ensures ParseProgram(toks) == Fine(end)
  {
    hide ParseArgs;
    assert ParseFunction(toks, Skip(START), fn) == Fine(end) by {
      hide ParseExpr;
      assert Expect(toks, Skip(START), TLeftParen) == Fine(Skip(Skip(START)));
    }
    assert ParsePrefix(toks, Skip(START), toks[0]) == Fine(end) by {
      hide ParseFunction;
    }
    hide ParsePrefix, ParseFunction;
    assert ParseLoop(toks, end, BIND_NONE) == Fine(end);
  }

  /** The code of a call is the same in function style and in the other styles. */
  lemma FunctionParsed(d: Dumps, bare: bool)
    requires (d.Filtered? || d.Combined?) && WellFormed(d) && !d.recv.Var?
    ensures ParseProgram(FunctionTokens(d, bare)) == Fine(DumpsBehind(START, d, |FunctionTokens(d, bare)|))
  {
    hide *;
    var toks, at := FunctionTokens(d, bare), 2 + |ReceiverTokens(d.recv, bare)|;
    FunctionParts(d, bare);
    ReceiverParsed(d, bare);
    StartParts();
    StartFirst();
    ArgsParsed(toks, START, d, at);
    ArgsParseIs(toks, START, d, at);
    DumpsBehindSkips(d.recv, at + 1);
    DumpsBehindSkips(d, |toks|);
    FunctionUnfold(toks, d.fn, DumpsBehind(START, d.recv, at + 1), DumpsBehind(START, d, |toks|));
  }

  lemma StartFirst()
    ensures START.cur == 0
  {
  }

  lemma ArgsParseIs(toks: seq<Token>, st: PState, d: Dumps, at: nat)
    requires (d.Filtered? || d.Combined?) && ArgsParse(toks, st, d, at)
    ensures at < |toks|
    ensures DumpsBehind(st, d.recv, at + 1).pos == at + 1
    ensures ParseArgs(toks, DumpsBehind(st, d.recv, at + 1), d.fn) ==
            Fine(DumpsBehind(st, d, at + 2 + |ArgTokens(d)|))
  {
    hide DumpsBehind;
    DumpsBehindParts(st, d.recv, at + 1);
  }

  // ----- bare variables -----

  /** A predicate does not begin with a variable. */
  lemma {:induction false} PredicateStart(e: Expr, level: nat)
    ensures Print(e, level) != [] && !Print(e, level)[0].TIdent?
    decreases e
  {
    if Power(e) >= level && !e.Leaf? {
      PredicateStart(e.left, Power(e));
    }
  }

  lemma ArgStart(d: Dumps)
    requires d.Filtered? || d.Combined?
    ensures ArgTokens(d) != []
    ensures ArgTokens(d)[0].TIdent? ==> d.Combined? && |ArgTokens(d)| == 1
  {
    if d.Filtered? {
      PredicateStart(d.pred, BIND_FUNC);
    }
  }

  lemma VariableTokens(d: Dumps, bare: bool)
    requires (d.Filtered? || d.Combined?) && d.recv.Var?
    ensures var toks := FunctionTokens(d, bare);
            && |toks| == 5 + |ArgTokens(d)| && ArgTokens(d) != []
            && toks[0] == TFunction(d.fn) && toks[1] == TLeftParen && toks[2] == TIdent(d.recv.name)
            && toks[3] == TComma
            && (toks[4].TIdent? ==> d.Combined? && toks[5] == TRightParen)
  {
    hide ArgTokens;
    ArgStart(d);
  }

  /** What is left behind a list of names has no argument any more. */
  lemma NoArgument(toks: seq<Token>, st: PState, fn: FnName)
    requires fn.FnUnion? || fn.FnIntersect? || fn.FnDiff?
    requires st.pos < |toks| && toks[st.pos] == TRightParen
    ensures ParseArgs(toks, st, fn).err == Some(Bad)
  {
    hide ParsePrefix, ParseLoop, ParseFilter, Emit, FnOp;
    assert !StartsExpr(toks[st.pos]);
    assert ParseArg(toks, st, fn) == ParseExpr(toks, st, BIND_CALL);
  }

  lemma FunctionFails(toks: seq<Token>, fn: FnName, r: Parsed)
    requires |toks| >= 2 && toks[0] == TFunction(fn) && toks[1] == TLeftParen && r.st.pos <= |toks|
    requires ParseExpr(toks, Skip(Skip(START)), BIND_CALL) == r
    requires r.err == Some(Bad) || (r.err.None? && ParseArgs(toks, r.st, fn).err == Some(Bad))
    ensures ParseProgram(toks).err == Some(Bad)
  {
    hide ParseArgs;
    assert ParseFunction(toks, Skip(START), fn).err == Some(Bad) by {
      hide ParseExpr;
      assert Expect(toks, Skip(START), TLeftParen) == Fine(Skip(Skip(START)));
    }
    assert ParsePrefix(toks, Skip(START), toks[0]).err == Some(Bad) by {
      hide ParseFunction;
    }
    hide ParsePrefix, ParseFunction;
  }

  /** A list of names with no assignment behind it. */
  lemma NamesParsed(toks: seq<Token>, name: string)
    requires |toks| >= 6 && toks[2] == TIdent(name) && toks[3] == TComma
    requires toks[4].TIdent? ==> toks[5] == TRightParen
    ensures var r := ParseExpr(toks, Skip(Skip(START)), BIND_CALL);
            if toks[4].TIdent? then r.err.None? && r.st.pos == 5 else r.err == Some(Bad)
  {
    hide EmitConst;
    var st := Skip(Skip(Skip(START)));
    var consts := Intern([], CStr(name));
    var st1 := Skip(Skip(st.(consts := consts)));
    var names := [IndexOf(consts, CStr(name))];
    assert [] + names == names;
    if toks[4].TIdent? {
      var other := toks[4].name;
      var st2 := EmitConst(st1.(consts := Intern(consts, CStr(other))), LoadGoroutineDump, CStr(other));
      ConstKeepsPos(st1.(consts := Intern(consts, CStr(other))), other);
      assert ParseDump(toks, st1, names, other) == Fine(st2);
      assert ParseDump(toks, st, [], name) == Fine(st2);
      assert ParsePrefix(toks, st, toks[2]) == Fine(st2);
      assert ParseLoop(toks, st2, BIND_CALL) == Fine(st2);
    } else {
      assert ParseDump(toks, st, [], name).err == Some(Bad);
      assert ParsePrefix(toks, st, toks[2]).err == Some(Bad);
    }
  }

  lemma ConstKeepsPos(st: PState, name: string)
    ensures EmitConst(st, LoadGoroutineDump, CStr(name)).pos == st.pos
  {
  }

  /** On a bare variable function style is an error, whatever the function and the argument. */
  lemma VariableFails(d: Dumps, bare: bool)
    requires (d.Filtered? || d.Combined?) && WellFormed(d) && d.recv.Var?
    ensures ParseProgram(FunctionTokens(d, bare)).err == Some(Bad)
  {
    hide ParseProgram, ParseExpr, ParseArgs, ArgTokens, FunctionTokens;
    var toks := FunctionTokens(d, bare);
    VariableTokens(d, bare);
    NamesParsed(toks, d.recv.name);
    var r := ParseExpr(toks, Skip(Skip(START)), BIND_CALL);
    if toks[4].TIdent? {
      NoArgument(toks, r.st, d.fn);
    }
    FunctionFails(toks, d.fn, r);
  }

  lemma SameChunks(d: Dumps, a: nat, b: nat)
    ensures DumpsBehind(START, d, a).chunks == DumpsBehind(START, d, b).chunks
    ensures DumpsBehind(START, d, a).consts == DumpsBehind(START, d, b).consts
  {
    hide MacrosOf, Preds, DumpConsts, Layout, PredicateChunks;
  }

  /**
   * Main result: a call whose receiver is the first argument compiles to the
   * code of the call in method or pipe style if and only if the receiver is not
   * a bare variable; if it is, nothing is compiled.
   */
  lemma FunctionStyleExactly(d: Dumps, bare: bool)
    requires (d.Filtered? || d.Combined?) && WellFormed(d)
    ensures var a, b := ParseProgram(FunctionTokens(d, bare)), ParseProgram(PrintDumps(d));
            && b.err.None?
            && (!d.recv.Var? <==> a.err.None?)
            && (!d.recv.Var? <==> a.err == b.err && a.st.chunks == b.st.chunks && a.st.consts == b.st.consts)
  {
    hide ParseProgram, FunctionTokens, PrintDumps, DumpsBehind, Assigned;
    var s := Statement([], d);
    StatementParsed(s);
    assert PrintStatement(s) == PrintDumps(d);
    NothingAssigned(d, |PrintDumps(d)|);
    SameChunks(d, |PrintDumps(d)|, |FunctionTokens(d, bare)|);
    if d.recv.Var? {
      VariableFails(d, bare);
    } else {
      FunctionParsed(d, bare);
    }
  }
  /** For instance union(g1, g2), as the user documentation writes it. */
  lemma DocumentedUnion()
    ensures ParseProgram([TFunction(FnUnion), TLeftParen, TIdent("g1"), TComma, TIdent("g2"), TRightParen]).err ==
            Some(Bad)
  {
    hide ParseProgram;
    var d := Combined(Var("g1"), false, FnUnion, Var("g2"));
    VariableFails(d, false);
    assert FunctionTokens(d, false) ==
           [TFunction(FnUnion), TLeftParen, TIdent("g1"), TComma, TIdent("g2"), TRightParen];
  }
}
