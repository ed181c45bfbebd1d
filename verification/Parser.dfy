/**
 * The one-pass parser that emits code as it parses (internal/compiler.go), as
 * functions on the parser's state: the cursor, the chunks, the chunk being
 * written and the constants.
 */
module Parser {
  import opened Results
  import opened Chunks
  import opened Predicates
  import opened Codegen
  import opened Syntax

  /** EOF is told apart from other errors because some callers ignore it. Panic is a Go panic. */
  datatype ParseError = Eof | Bad | Panic

  datatype Unit = Unit(pos: nat, chunks: seq<Chunk>, cur: nat, consts: seq<Const>)

  type PState = u: Unit | u.cur < |u.chunks| witness Unit(0, [[]], 0, [])

  datatype Parsed = Parsed(st: PState, err: Option<ParseError>)

  function Fine(st: PState): Parsed {
    Parsed(st, None)
  }

  function Fail(st: PState, e: ParseError): Parsed {
    Parsed(st, Some(e))
  }

  // ----- emitting -----

  function Ops(st: PState): Chunk {
    st.chunks[st.cur]
  }

  function WithOps(st: PState, ops: Chunk): PState {
    st.(chunks := st.chunks[st.cur := ops])
  }

  function Emit(st: PState, op: OpCode, arg: nat): PState {
    WithOps(st, Ops(st) + [Instr(op, arg)])
  }

  /** emitLoadConst: intern the constant and emit an instruction that refers to it. */
  function EmitConst(st: PState, op: OpCode, c: Const): PState {
    var st1 := st.(consts := Intern(st.consts, c));
    Emit(st1, op, IndexOf(st1.consts, c))
  }

  function EmitLoads(st: PState, targets: seq<nat>): (r: PState)
    ensures r.pos == st.pos
    decreases |targets|
  {
    if targets == [] then st else EmitLoads(Emit(st, LoadGoroutineDump, targets[0]), targets[1..])
  }

  /** patchJump: the jump at addr goes to the last instruction plus offset. */
  function PatchJump(st: PState, addr: nat, offset: int): Parsed
    requires |Ops(st)| - 1 + offset >= 0
  {
    if addr >= |Ops(st)| || !IsJump(Ops(st)[addr].op) then Fail(st, Panic)
    else Fine(WithOps(st, Ops(st)[addr := Instr(Ops(st)[addr].op, |Ops(st)| - 1 + offset)]))
  }

  // ----- tokens -----

  function Skip(st: PState): PState {
    st.(pos := st.pos + 1)
  }

  /** expect: a missing token is not an EOF error. */
  function Expect(toks: seq<Token>, st: PState, want: Token): (r: Parsed)
    requires st.pos <= |toks|
    ensures st.pos <= r.st.pos <= |toks|
  {
    if st.pos < |toks| && toks[st.pos] == want then Fine(Skip(st)) else Fail(st, Bad)
  }

  function InfixPower(tok: Token): Option<nat> {
    match tok
    case TRightParen => Some(BIND_NONE)
    case TLogic(op) => Some(LogicPower(op))
    case TCompare(op) => Some(CmpPower(op))
    case TPipe => Some(BIND_PIPE)
    case TMethod(_) => Some(BIND_FUNC)
    case _ => None
  }

  predicate ContinuesExpr(tok: Token) {
    tok.TLogic? || tok.TCompare? || tok.TPipe? || tok.TMethod?
  }

  predicate StartsExpr(tok: Token) {
    tok.TLeftParen? || tok.TIdent? || tok.TField? || tok.TString? || tok.TNumber? || tok.TFunction? || tok.TMethod?
  }

  function FnOp(fn: FnName): OpCode {
    match fn
    case FnUnion => FuncUnion
    case FnIntersect => FuncIntersect
    case FnDiff => FuncDiff
    case FnLoad => FuncLoad
    case FnGraph => FuncGraph
    case _ => Noop
  }

  // ----- expressions -----

  function ParseExpr(toks: seq<Token>, st: PState, power: nat): (r: Parsed)
    requires st.pos <= |toks|
    ensures st.pos <= r.st.pos <= |toks|
    decreases |toks| - st.pos, 0
  {
    if st.pos == |toks| then Fail(st, Eof)
    else if !StartsExpr(toks[st.pos]) then Fail(Skip(st), Bad)
    else
      var r := ParsePrefix(toks, Skip(st), toks[st.pos]);
      if r.err == Some(Eof) then Fine(r.st)
      else if r.err.Some? then r
      else ParseLoop(toks, r.st, power)
  }

  /**
   * Infix operators while they bind at least as strong as power. A token that is no operator is consumed and
   * ends the expression.
   */
  function ParseLoop(toks: seq<Token>, st: PState, power: nat): (r: Parsed)
    requires st.pos <= |toks|
    ensures st.pos <= r.st.pos <= |toks|
    decreases |toks| - st.pos, 8
  {
    if st.pos == |toks| then Fine(st)
    else
      var tok := toks[st.pos];
      if InfixPower(tok).Some? && InfixPower(tok).value < power then Fine(st)
      else if !ContinuesExpr(tok) then Fine(Skip(st))
      else
        var r := ParseInfix(toks, Skip(st), tok);
        if r.err.Some? then r else ParseLoop(toks, r.st, power)
  }

  function ParsePrefix(toks: seq<Token>, st: PState, tok: Token): (r: Parsed)
    requires st.pos <= |toks| && StartsExpr(tok)
    ensures st.pos <= r.st.pos <= |toks|
    decreases |toks| - st.pos, 7
  {
    match tok
    case TLeftParen =>
      var r := ParseExpr(toks, st, BIND_NONE + 1);
      if r.err.Some? then r else Expect(toks, r.st, TRightParen)
    case TIdent(name) => ParseDump(toks, st, [], name)
    case TField(name) =>
      if name == LABELS && st.pos < |toks| && toks[st.pos].TField? then
        Fine(EmitConst(Skip(st), LoadFieldAccessor, CStr(LabelName(toks[st.pos].field))))
      else Fine(EmitConst(st, LoadFieldAccessor, CStr(name)))
    case TString(s) => Fine(EmitConst(st, LoadString, CStr(s)))
    case TNumber(n) => Fine(EmitConst(st, LoadNumber, CNum(n)))
    case TFunction(fn) => ParseFunction(toks, st, fn)
    case TMethod(fn) => ParseMethod(toks, st, fn)
  }

  function ParseInfix(toks: seq<Token>, st: PState, tok: Token): (r: Parsed)
    requires st.pos <= |toks| && ContinuesExpr(tok)
    ensures st.pos <= r.st.pos <= |toks|
    decreases |toks| - st.pos, 7
  {
    match tok
    case TLogic(op) => ParseLogic(toks, st, op)
    case TCompare(op) =>
      var r := ParseExpr(toks, st, CmpPower(op) + 1);
      if r.err.Some? then r else Fine(Emit(r.st, OpOf(op), 0))
    case TPipe =>
      if st.pos == |toks| then Fail(st, Eof)
      else if !toks[st.pos].TFunction? then Fail(st, Bad)
      else ParseMethod(toks, Skip(st), toks[st.pos].fn)
    case TMethod(fn) => ParseMethod(toks, st, fn)
  }

  /** parseBinaryLogicExpr: two placeholders are emitted before the right operand is parsed and patched behind it. */
  function ParseLogic(toks: seq<Token>, st: PState, op: Connective): (r: Parsed)
    requires st.pos <= |toks|
    ensures st.pos <= r.st.pos <= |toks|
    decreases |toks| - st.pos, 5
  {
    var addrShort := |Ops(st)|;
    var st1 := Emit(Emit(st, LogicJump(op), PATCH_PLACEHOLDER), PushBool, Decided(op));
    var addrLong := |Ops(st1)|;
    var r := ParseExpr(toks, Emit(st1, JumpTo, PATCH_PLACEHOLDER), LogicPower(op) + 1);
    if r.err.Some? then r
    else
      var offset := |Ops(r.st)| - addrLong - 2;
      var r1 := PatchJump(r.st, addrShort, -offset);
      if r1.err.Some? then r1 else PatchJump(r1.st, addrLong, 1)
  }

  // ----- dumps -----

  /** parseDumpAccessorImpl: names collects the constants of the identifiers of a multi-assignment. */
  function ParseDump(toks: seq<Token>, st: PState, names: seq<nat>, name: string): (r: Parsed)
    requires st.pos <= |toks|
    ensures st.pos <= r.st.pos <= |toks|
    decreases |toks| - st.pos, 6
  {
    var st1 := st.(consts := Intern(st.consts, CStr(name)));
    var names1 := names + [IndexOf(st1.consts, CStr(name))];
    if st1.pos == |toks| then
      Fine(if |names1| > 1 then EmitLoads(st1, names1) else EmitConst(st1, LoadGoroutineDump, CStr(name)))
    else
      match toks[st1.pos]
      case TAssign =>
        var r := ParseExpr(toks, Skip(st1), BIND_ASSIGNMENT);
        if r.err.Some? then r
        else if |names1| == 1 then Fine(EmitConst(r.st, Assignment, CStr(name)))
        // comparing two multi-assignments with == is a panic
        else if exists c | c in r.st.consts :: c.CMulti? then Fail(r.st, Panic)
        else Fine(EmitConst(r.st, Assignment, CMulti(names1)))
      case TComma =>
        var st2 := Skip(st1);
        if st2.pos == |toks| then Fail(st2, Eof)
        else if !toks[st2.pos].TIdent? then Fail(st2, Bad)
        else ParseDump(toks, Skip(st2), names1, toks[st2.pos].name)
      case TMethod(fn) =>
        ParseMethod(toks, EmitConst(Skip(st1), LoadGoroutineDump, CStr(name)), fn)
      case _ => Fine(EmitConst(st1, LoadGoroutineDump, CStr(name)))
  }

  // ----- calls -----

  function ParseMethod(toks: seq<Token>, st: PState, fn: FnName): (r: Parsed)
    requires st.pos <= |toks|
    ensures st.pos <= r.st.pos <= |toks|
    decreases |toks| - st.pos, 5
  {
    var r := Expect(toks, st, TLeftParen);
    if r.err.Some? then r else ParseArgs(toks, r.st, fn)
  }

  /** parseFunction: the receiver is the first argument. */
  function ParseFunction(toks: seq<Token>, st: PState, fn: FnName): (r: Parsed)
    requires st.pos <= |toks|
    ensures st.pos <= r.st.pos <= |toks|
    decreases |toks| - st.pos, 5
  {
    var r := Expect(toks, st, TLeftParen);
    if r.err.Some? then r
    else
      var r1 := ParseExpr(toks, r.st, BIND_CALL);
      if r1.err.Some? then r1 else ParseArgs(toks, r1.st, fn)
  }

  /** parseFunctionArgs: the one argument of every modelled function, its opcode, and the closing parenthesis. */
  function ParseArgs(toks: seq<Token>, st: PState, fn: FnName): (r: Parsed)
    requires st.pos <= |toks|
    ensures st.pos <= r.st.pos <= |toks|
    decreases |toks| - st.pos, 4
  {
    var r := ParseArg(toks, st, fn);
    if r.err.Some? then r
    else Expect(toks, if FnOp(fn).Noop? then r.st else Emit(r.st, FnOp(fn), 0), TRightParen)
  }

  function ParseArg(toks: seq<Token>, st: PState, fn: FnName): (r: Parsed)
    requires st.pos <= |toks|
    ensures st.pos <= r.st.pos <= |toks|
    decreases |toks| - st.pos, 3
  {
    if fn.FnUnion? || fn.FnIntersect? || fn.FnDiff? then ParseExpr(toks, st, BIND_CALL)
    else if fn.FnLoad? then
      if st.pos == |toks| then Fail(st, Eof)
      else if !toks[st.pos].TString? then Fail(st, Bad)
      else Fine(EmitConst(Skip(st), LoadString, CStr(toks[st.pos].s)))
    else ParseFilter(toks, st, fn)
  }

  /** parseFilter: the loop around a predicate. */
  function ParseFilter(toks: seq<Token>, st: PState, fn: FnName): (r: Parsed)
    requires st.pos <= |toks|
    ensures st.pos <= r.st.pos <= |toks|
    decreases |toks| - st.pos, 2
  {
    var st1 := Emit(if fn.FnGraph? then Emit(st, Dup, 0) else st, TempDump, 0);
    var addr := |Ops(st1)|;
    var r := ParsePredicate(toks, Emit(st1, NextGoroutine, PATCH_PLACEHOLDER));
    if r.err.Some? then r
    else
      var st2 := Emit(r.st, if fn.FnDelete? then JumpIfTrue else JumpIfFalse, addr);
      PatchJump(Emit(Emit(Emit(st2, AddGoroutine, 0), JumpTo, addr), PushDump, 0), addr, 0)
  }

  /** parsePredicate: a new chunk for the predicate, then a call to it from chunk 0. */
  function ParsePredicate(toks: seq<Token>, st: PState): (r: Parsed)
    requires st.pos <= |toks|
    ensures st.pos <= r.st.pos <= |toks|
    ensures r.err != Some(Eof)
    decreases |toks| - st.pos, 1
  {
    var k := |st.chunks|;
    var r := ParseExpr(toks, st.(chunks := st.chunks + [[]], cur := k), BIND_FUNC);
    if r.err.Some? && r.err.value != Eof then r
    else Fine(Emit(Emit(r.st, Return, 0).(cur := 0), Call, k))
  }

  /** Compile without the optimizer: one expression into an empty main chunk. */
  function ParseProgram(toks: seq<Token>): Parsed {
    ParseExpr(toks, Unit(0, [[]], 0, []), BIND_NONE)
  }
}
