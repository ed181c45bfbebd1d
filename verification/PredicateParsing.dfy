/**
 * Parser and printer of predicates undo each other: parsing a printed
 * predicate consumes exactly its tokens and emits exactly its code.
 */
module PredicateParsing {
  import opened Results
  import opened Chunks
  import opened Predicates
  import opened Codegen
  import opened Syntax
  import opened Parser

  // ----- token positions -----

  ghost predicate TokensAt(toks: seq<Token>, pos: nat, ts: seq<Token>) {
    pos + |ts| <= |toks| && toks[pos..pos + |ts|] == ts
  }

  lemma TokensAtParts(toks: seq<Token>, pos: nat, a: seq<Token>, b: seq<Token>)
    requires TokensAt(toks, pos, a + b)
    ensures TokensAt(toks, pos, a) && TokensAt(toks, pos + |a|, b)
  {
    assert (a + b)[..|a|] == a && (a + b)[|a|..] == b;
    assert toks[pos..pos + |a|] == toks[pos..pos + |a + b|][..|a|];
    assert toks[pos + |a|..pos + |a| + |b|] == toks[pos..pos + |a + b|][|a|..];
  }

  lemma TokenAt(toks: seq<Token>, pos: nat, ts: seq<Token>)
    requires TokensAt(toks, pos, ts) && ts != []
    ensures pos < |toks| && toks[pos] == ts[0]
  {
    assert toks[pos..pos + |ts|][0] == toks[pos];
  }

  /** What follows ends an operand printed at level: the end, or a token that binds at most that strong. */
  ghost predicate Stops(toks: seq<Token>, pos: nat, level: nat) {
    pos == |toks| || (pos < |toks| && InfixPower(toks[pos]).Some? && InfixPower(toks[pos]).value <= level)
  }

  // ----- the code of an expression -----

  /** The parser's state behind e: at end, with the code of e appended and its constants interned. */
  function Behind(st: PState, e: Expr, end: nat): PState {
    ConstsInterned(e, st.consts);
    var consts := ConstsOf(e, st.consts);
    WithOps(st.(pos := end, consts := consts), Ops(st) + ExprCode(e, |Ops(st)|, consts))
  }

  lemma WithOpsTwice(st: PState, a: Chunk, b: Chunk)
    ensures WithOps(WithOps(st, a), b) == WithOps(st, b) && Ops(WithOps(st, a)) == a
  {
  }

  lemma LeafParsed(toks: seq<Token>, st: PState, a: Atom, level: nat, power: nat)
    requires st.pos <= |toks| && TokensAt(toks, st.pos, AtomTokens(a)) && Stops(toks, st.pos + |AtomTokens(a)|, level)
    ensures ParseExpr(toks, st, power) == ParseLoop(toks, Behind(st, Leaf(a), st.pos + |AtomTokens(a)|), power)
  {
    hide ParseLoop, LabelName;
    var ts := AtomTokens(a);
    TokenAt(toks, st.pos, ts);
    if a.Label? {
      TokensAtParts(toks, st.pos, [TField(LABELS)], [TField(a.key)]);
      assert toks[st.pos + 1] == TField(a.key);
    }
  }

  lemma ParenParsed(toks: seq<Token>, st: PState, e: Expr, power: nat)
    requires var ts := [TLeftParen] + PrintBare(e) + [TRightParen];
             st.pos <= |toks| && TokensAt(toks, st.pos, ts)
    requires var inner := Behind(Skip(st), e, st.pos + 1 + |PrintBare(e)|);
             inner.pos <= |toks| && ParseExpr(toks, Skip(st), 1) == ParseLoop(toks, inner, 1)
    ensures ParseExpr(toks, st, power) == ParseLoop(toks, Behind(st, e, st.pos + 2 + |PrintBare(e)|), power)
  {
    hide PrintBare, ExprCode, ConstsOf;
    var end := st.pos + 1 + |PrintBare(e)|;
    TokensAtParts(toks, st.pos, [TLeftParen] + PrintBare(e), [TRightParen]);
    TokensAtParts(toks, st.pos, [TLeftParen], PrintBare(e));
    TokenAt(toks, st.pos, [TLeftParen]);
    TokenAt(toks, end, [TRightParen]);
    var inner := Behind(Skip(st), e, end);
    assert ParseLoop(toks, inner, 1) == Fine(inner);
  }

  /** The state behind a comparison or connective, reached from the states behind its operands. */
  lemma CompareEmitted(st: PState, e: Expr, mid: nat, end: nat)
    requires e.Compare?
    ensures Emit(Behind(Skip(Behind(st, e.left, mid)), e.right, end), OpOf(e.cmp), 0) == Behind(st, e, end)
  {
    hide ExprCode, OpOf, Interned;
    var st1 := Behind(st, e.left, mid);
    ConstsInterned(e.left, st.consts);
    ConstsInterned(e.right, st1.consts);
    ConstsInterned(e, st.consts);
    ExprCodeStable(e.left, |Ops(st)|, st1.consts, ConstsOf(e, st.consts));
    var consts := ConstsOf(e, st.consts);
    CompareCodeUnfold(e, |Ops(st)|, consts);
    var l := Ops(st) + ExprCode(e.left, |Ops(st)|, consts);
    var r := l + ExprCode(e.right, |l|, consts);
    var last := r + [Instr(OpOf(e.cmp), 0)];
    var st0 := st.(pos := end, consts := consts);
    WithOpsTwice(st0, l, r);
    WithOpsTwice(st0, r, last);
    assert Behind(Skip(st1), e.right, end) == WithOps(WithOps(st0, l), r);
    assert last == Ops(st) + ExprCode(e, |Ops(st)|, consts);
  }

  /** The placeholders that ParseLogic emits. */
  function Placeholders(st: PState, op: Connective): PState {
    Emit(Emit(Emit(st, LogicJump(op), PATCH_PLACEHOLDER), PushBool, Decided(op)), JumpTo, PATCH_PLACEHOLDER)
  }

  function PlaceholderCode(op: Connective): (code: Chunk)
    ensures |code| == 3
  {
    [Instr(LogicJump(op), PATCH_PLACEHOLDER), Instr(PushBool, Decided(op)), Instr(JumpTo, PATCH_PLACEHOLDER)]
  }

  lemma PlaceholderOps(st: PState, op: Connective)
    ensures Placeholders(st, op) ==
            WithOps(st, Ops(st) + PlaceholderCode(op))
  {
    var a, b := Instr(LogicJump(op), PATCH_PLACEHOLDER), Instr(PushBool, Decided(op));
    var c := Instr(JumpTo, PATCH_PLACEHOLDER);
    var o := Ops(st);
    WithOpsTwice(st, o + [a], o + [a] + [b]);
    WithOpsTwice(st, o + [a] + [b], o + [a] + [b] + [c]);
    assert o + [a] + [b] + [c] == o + [a, b, c];
  }

  /** Patching both placeholders gives the short-circuit code. */
  lemma Patched(st: PState, ops: Chunk, op: Connective, code: Chunk)
    requires Ops(st) == ops + PlaceholderCode(op) + code
    ensures var at := |ops|;
            var r := PatchJump(st, at, -(|Ops(st)| - (at + 2) - 2));
            && r.err.None?
            && |Ops(r.st)| == |Ops(st)|
            && PatchJump(r.st, at + 2, 1) == Fine(WithOps(st, ops + ShortCircuit(op, at, |code|) + code))
  {
    var at := |ops|;
    var r := PatchJump(st, at, -(|Ops(st)| - (at + 2) - 2));
    var r1 := PatchJump(r.st, at + 2, 1);
    assert Ops(r1.st) == ops + ShortCircuit(op, at, |code|) + code;
  }

  /** The state before the placeholders are patched. */
  lemma Unpatched(st: PState, e: Expr, mid: nat, end: nat)
    requires e.Logic?
    ensures Interned(e, ConstsOf(e, st.consts))
    ensures var st1, consts := Skip(Behind(st, e.left, mid)), ConstsOf(e, st.consts);
            var l := Ops(st) + ExprCode(e.left, |Ops(st)|, consts);
            var code := ExprCode(e.right, |l| + 3, consts);
            && Ops(st1) == l
            && Behind(Placeholders(st1, e.op), e.right, end)
               == WithOps(st.(pos := end, consts := consts), l + PlaceholderCode(e.op) + code)
  {
    hide ExprCode, PatchJump, LogicJump, Decided, Interned, Placeholders, PlaceholderCode;
    ConstsInterned(e.left, st.consts);
    ConstsInterned(e, st.consts);
    var st1, consts := Skip(Behind(st, e.left, mid)), ConstsOf(e, st.consts);
    ConstsInterned(e.right, st1.consts);
    ExprCodeStable(e.left, |Ops(st)|, st1.consts, consts);
    PlaceholderOps(st1, e.op);
    var l := Ops(st) + ExprCode(e.left, |Ops(st)|, consts);
    var st0 := st.(pos := end, consts := consts);
    WithOpsTwice(st0, l, l + PlaceholderCode(e.op));
    WithOpsTwice(st0, l + PlaceholderCode(e.op), l + PlaceholderCode(e.op) + ExprCode(e.right, |l| + 3, consts));
  }

  lemma LogicEmitted(st: PState, e: Expr, mid: nat, end: nat)
    requires e.Logic?
    ensures var st1 := Skip(Behind(st, e.left, mid));
            var r := Behind(Placeholders(st1, e.op), e.right, end);
            var at := |Ops(st1)|;
            && |Ops(r)| - 1 - (|Ops(r)| - (at + 2) - 2) >= 0
            && var patched := PatchJump(r, at, -(|Ops(r)| - (at + 2) - 2));
               patched.err.None? && |Ops(patched.st)| > 0
               && PatchJump(patched.st, at + 2, 1) == Fine(Behind(st, e, end))
  {
    hide ExprCode, ShortCircuit, PatchJump, ConstsOf, LogicJump, Decided;
    Unpatched(st, e, mid, end);
    var st1, consts := Skip(Behind(st, e.left, mid)), ConstsOf(e, st.consts);
    var l := Ops(st) + ExprCode(e.left, |Ops(st)|, consts);
    var code := ExprCode(e.right, |l| + 3, consts);
    var r := Behind(Placeholders(st1, e.op), e.right, end);
    var patched := l + ShortCircuit(e.op, |l|, |code|) + code;
    WithOpsTwice(st.(pos := end, consts := consts), l + PlaceholderCode(e.op) + code, patched);
    Patched(r, l, e.op, code);
    LogicCodeUnfold(e, |Ops(st)|, consts);
    assert l + ShortCircuit(e.op, |l|, |code|) + code == Ops(st) + ExprCode(e, |Ops(st)|, consts);
  }

  // ----- round trip -----

  /**
   * Parsing e printed at level, at a power that level does not fall below,
   * continues the operator loop behind e: exactly its tokens are consumed,
   * exactly its code is emitted, with all jumps patched.
   */
  lemma {:induction false} PrintedParses(toks: seq<Token>, st: PState, e: Expr, level: nat, power: nat)
    requires power <= level <= BIND_COMPARE + 1
    requires st.pos <= |toks| && TokensAt(toks, st.pos, Print(e, level)) &&
             Stops(toks, st.pos + |Print(e, level)|, level)
    ensures ParseExpr(toks, st, power) == ParseLoop(toks, Behind(st, e, st.pos + |Print(e, level)|), power)
    decreases e, if Power(e) < level then 3 else 2
  {
    hide ParseExpr, ParseLoop, ExprCode, ConstsOf;
    if Power(e) < level {
      ParenTokens(toks, st.pos, e, level);
      PrintedParses(toks, Skip(st), e, 1, 1);
      ParenParsed(toks, st, e, power);
    } else if e.Leaf? {
      LeafParsed(toks, st, e.atom, level, power);
    } else {
      BinaryParses(toks, st, e, level, power);
    }
  }

  lemma ParenTokens(toks: seq<Token>, pos: nat, e: Expr, level: nat)
    requires Power(e) < level && TokensAt(toks, pos, Print(e, level))
    ensures Print(e, 1) == PrintBare(e) && |Print(e, level)| == 2 + |PrintBare(e)|
    ensures TokensAt(toks, pos, [TLeftParen] + PrintBare(e) + [TRightParen])
    ensures TokensAt(toks, pos + 1, PrintBare(e)) && Stops(toks, pos + 1 + |PrintBare(e)|, 1)
  {
    hide PrintBare;
    TokensAtParts(toks, pos, [TLeftParen] + PrintBare(e), [TRightParen]);
    TokensAtParts(toks, pos, [TLeftParen], PrintBare(e));
    TokenAt(toks, pos + 1 + |PrintBare(e)|, [TRightParen]);
  }

  lemma BinaryTokens(toks: seq<Token>, pos: nat, e: Expr)
    requires !e.Leaf? && TokensAt(toks, pos, PrintBare(e))
    ensures var mid := pos + |Print(e.left, Power(e))|;
            && TokensAt(toks, pos, Print(e.left, Power(e)))
            && mid < |toks| && toks[mid] == Operator(e)
            && InfixPower(toks[mid]) == Some(Power(e))
            && TokensAt(toks, mid + 1, Print(e.right, Power(e) + 1))
            && pos + |PrintBare(e)| == mid + 1 + |Print(e.right, Power(e) + 1)|
  {
    hide Print;
    var l, r := Print(e.left, Power(e)), Print(e.right, Power(e) + 1);
    TokensAtParts(toks, pos, l + [Operator(e)], r);
    TokensAtParts(toks, pos, l, [Operator(e)]);
    TokenAt(toks, pos + |l|, [Operator(e)]);
  }

  lemma {:induction false} BinaryParses(toks: seq<Token>, st: PState, e: Expr, level: nat, power: nat)
    requires !e.Leaf? && power <= level <= Power(e)
    requires st.pos <= |toks| && TokensAt(toks, st.pos, PrintBare(e)) && Stops(toks, st.pos + |PrintBare(e)|, level)
    ensures ParseExpr(toks, st, power) == ParseLoop(toks, Behind(st, e, st.pos + |PrintBare(e)|), power)
    decreases e, 1
  {
    hide ParseExpr, Print, PrintBare, Behind;
    var q := Power(e);
    var mid := st.pos + |Print(e.left, q)|;
    var end := st.pos + |PrintBare(e)|;
    BinaryTokens(toks, st.pos, e);
    PrintedParses(toks, st, e.left, q, power);
    BehindPos(st, e.left, mid);
    var st1 := Skip(Behind(st, e.left, mid));
    BehindPos(st, e, end);
    InfixParses(toks, st, e, mid, end);
  }

  lemma BehindPos(st: PState, e: Expr, end: nat)
    ensures Behind(st, e, end).pos == end
  {
  }

  /** The operator and its right operand, behind the left one. */
  lemma {:induction false} InfixParses(toks: seq<Token>, st: PState, e: Expr, mid: nat, end: nat)
    requires !e.Leaf? && mid < |toks| && end == mid + 1 + |Print(e.right, Power(e) + 1)|
    requires TokensAt(toks, mid + 1, Print(e.right, Power(e) + 1)) && Stops(toks, end, Power(e))
    ensures ParseInfix(toks, Skip(Behind(st, e.left, mid)), Operator(e)) == Fine(Behind(st, e, end))
    decreases e, 0
  {
    hide ParseExpr, Print, Behind, PatchJump;
    var q := Power(e);
    BehindPos(st, e.left, mid);
    var st1 := Skip(Behind(st, e.left, mid));
    match e
    case Compare(op, l, r) =>
      PrintedParses(toks, st1, r, q + 1, q + 1);
      BehindPos(st1, r, end);
      assert ParseLoop(toks, Behind(st1, r, end), q + 1) == Fine(Behind(st1, r, end));
      CompareEmitted(st, e, mid, end);
    case Logic(op, l, r) =>
      var st2 := Placeholders(st1, op);
      PrintedParses(toks, st2, r, q + 1, q + 1);
      BehindPos(st2, r, end);
      assert ParseLoop(toks, Behind(st2, r, end), q + 1) == Fine(Behind(st2, r, end));
      LogicEmitted(st, e, mid, end);
  }
}
