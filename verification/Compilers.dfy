/**
 * The compiler as the source writes it: an object that advances a cursor over
 * the tokens, appends to the current chunk, patches jumps in it, and finally
 * rewrites the main chunk in place (internal/compiler.go). Every method is
 * proved against the function on parser states of the same name.
 */
module Compilers {
  import opened Results
  import opened Chunks
  import opened Predicates
  import opened Codegen
  import opened Optimizer
  import opened Syntax
  import opened Parser

  class Compiler {
    const toks: seq<Token>
    var pos: nat
    var chunks: seq<Chunk>
    var cur: nat
    var consts: seq<Const>

    ghost predicate Valid()
      reads this
    {
      cur < |chunks| && pos <= |toks|
    }

    ghost function State(): PState
      reads this
      requires Valid()
    {
      Unit(pos, chunks, cur, consts)
    }

    /** The object's state and the error after a method, given what the function of the same name returns. */
    ghost predicate Ends(err: Option<ParseError>, r: Parsed)
      reads this
    {
      Valid() && err == r.err && State() == r.st
    }

    constructor (toks: seq<Token>)
      ensures this.toks == toks && Valid() && State() == Unit(0, [[]], 0, [])
    {
      this.toks := toks;
      pos, chunks, cur, consts := 0, [[]], 0, [];
    }

    // ----- emitting -----

    method EmitOp(op: OpCode, arg: nat) returns (addr: nat)
      requires Valid()
      modifies this`chunks
      ensures Valid() && State() == Emit(old(State()), op, arg)
      ensures addr == |chunks[cur]| - 1 == |old(chunks[cur])| && |chunks| == |old(chunks)|
    {
      chunks := chunks[cur := chunks[cur] + [Instr(op, arg)]];
      addr := |chunks[cur]| - 1;
    }

    /** slices.Index over the constants; a new constant goes to the end. */
    method CreateConst(c: Const) returns (index: nat)
      requires Valid()
      modifies this`consts
      ensures Valid() && consts == Intern(old(consts), c) && index == IndexOf(consts, c)
    {
      index := 0;
      while index < |consts|
        invariant index <= |consts| && forall j | 0 <= j < index :: consts[j] != c
      {
        if consts[index] == c {
          FirstIndex(consts, c, index);
          return;
        }
        index := index + 1;
      }
      consts := consts + [c];
      FirstIndex(consts, c, index);
    }

    method EmitLoadConst(op: OpCode, c: Const)
      requires Valid()
      modifies this`consts, this`chunks
      ensures Valid() && State() == EmitConst(old(State()), op, c)
    {
      var index := CreateConst(c);
      var _ := EmitOp(op, index);
    }

    method Patch(addr: nat, offset: int) returns (err: Option<ParseError>)
      requires Valid() && |chunks[cur]| - 1 + offset >= 0
      modifies this`chunks
      ensures Ends(err, PatchJump(old(State()), addr, offset))
    {
      var end := |chunks[cur]| - 1 + offset;
      if addr >= |chunks[cur]| {
        return Some(Panic);
      }
      var op := chunks[cur][addr].op;
      if !(op.JumpIfFalse? || op.JumpIfTrue? || op.JumpTo? || op.NextGoroutine?) {
        return Some(Panic);
      }
      chunks := chunks[cur := chunks[cur][addr := Instr(op, end)]];
      err := None;
    }

    method ExpectToken(want: Token) returns (err: Option<ParseError>)
      requires Valid()
      modifies this`pos
      ensures Ends(err, Expect(toks, old(State()), want))
    {
      if pos < |toks| && toks[pos] == want {
        pos := pos + 1;
        err := None;
      } else {
        err := Some(Bad);
      }
    }

    // ----- expressions -----

    /** parseExpr: a prefix expression, then infix operators in a loop. */
    method Expression(power: nat) returns (err: Option<ParseError>)
      requires Valid()
      modifies this
      ensures Ends(err, ParseExpr(toks, old(State()), power))
      ensures pos >= old(pos)
      decreases |toks| - pos, 0
    {
      hide ParsePrefix, ParseInfix, InfixPower, ContinuesExpr, StartsExpr;
      ghost var start := State();
      if pos == |toks| {
        return Some(Eof);
      }
      var tok := toks[pos];
      pos := pos + 1;
      if !StartsExpr(tok) {
        return Some(Bad);
      }
      err := Prefix(tok);
      if err.Some? {
        return if err == Some(Eof) then None else err;
      }
      ghost var first := State();
      assert ParseExpr(toks, start, power) == ParseLoop(toks, first, power);
      while true
        invariant Valid() && pos > old(pos)
        invariant ParseLoop(toks, first, power) == ParseLoop(toks, State(), power)
        decreases |toks| - pos
      {
        if pos == |toks| {
          break;
        }
        tok := toks[pos];
        if InfixPower(tok).Some? && InfixPower(tok).value < power {
          break;
        }
        pos := pos + 1;
        if !ContinuesExpr(tok) {
          return None;
        }
        err := Infix(tok);
        if err.Some? {
          return;
        }
      }
      err := None;
    }

    method Prefix(tok: Token) returns (err: Option<ParseError>)
      requires Valid() && StartsExpr(tok)
      modifies this
      ensures Ends(err, ParsePrefix(toks, old(State()), tok))
      ensures pos >= old(pos)
      decreases |toks| - pos, 7
    {
      match tok
      case TLeftParen =>
        err := Expression(BIND_NONE + 1);
        if err.None? {
          err := ExpectToken(TRightParen);
        }
      case TIdent(name) => err := DumpAccessor([], name);
      case TField(name) =>
        if name == LABELS && pos < |toks| && toks[pos].TField? {
          var key := toks[pos].field;
          pos := pos + 1;
          EmitLoadConst(LoadFieldAccessor, CStr(LabelName(key)));
        } else {
          EmitLoadConst(LoadFieldAccessor, CStr(name));
        }
        err := None;
      case TString(s) =>
        EmitLoadConst(LoadString, CStr(s));
        err := None;
      case TNumber(n) =>
        EmitLoadConst(LoadNumber, CNum(n));
        err := None;
      case TFunction(fn) => err := Function(fn);
      case TMethod(fn) => err := Method(fn);
    }

    method Infix(tok: Token) returns (err: Option<ParseError>)
      requires Valid() && ContinuesExpr(tok)
      modifies this
      ensures Ends(err, ParseInfix(toks, old(State()), tok))
      ensures pos >= old(pos)
      decreases |toks| - pos, 7
    {
      match tok
      case TLogic(op) => err := BinaryLogic(op);
      case TCompare(op) =>
        err := Expression(CmpPower(op) + 1);
        if err.None? {
          var _ := EmitOp(OpOf(op), 0);
        }
      case TPipe =>
        if pos == |toks| {
          return Some(Eof);
        }
        if !toks[pos].TFunction? {
          return Some(Bad);
        }
        var fn := toks[pos].fn;
        pos := pos + 1;
        err := Method(fn);
      case TMethod(fn) => err := Method(fn);
    }

    method BinaryLogic(op: Connective) returns (err: Option<ParseError>)
      requires Valid()
      modifies this
      ensures Ends(err, ParseLogic(toks, old(State()), op))
      ensures pos >= old(pos)
      decreases |toks| - pos, 5
    {
      hide Emit, PatchJump, ParseExpr, LogicJump, Decided, LogicPower;
      var addrShort := EmitOp(LogicJump(op), PATCH_PLACEHOLDER);
      var _ := EmitOp(PushBool, Decided(op));
      var addrLong := EmitOp(JumpTo, PATCH_PLACEHOLDER);
      err := Expression(LogicPower(op) + 1);
      if err.Some? {
        return;
      }
      var offset := |chunks[cur]| - addrLong - 2;
      err := Patch(addrShort, -offset);
      if err.None? {
        err := Patch(addrLong, 1);
      }
    }

    // ----- dumps -----

    method DumpAccessor(names: seq<nat>, name: string) returns (err: Option<ParseError>)
      requires Valid()
      modifies this
      ensures Ends(err, ParseDump(toks, old(State()), names, name))
      ensures pos >= old(pos)
      decreases |toks| - pos, 6
    {
      hide ParseExpr, ParseMethod, EmitConst, EmitLoads, IndexOf;
      var index := CreateConst(CStr(name));
      var names1 := names + [index];
      err := None;
      if pos == |toks| {
        if |names1| > 1 {
          EmitAll(names1);
        } else {
          EmitLoadConst(LoadGoroutineDump, CStr(name));
        }
        return;
      }
      match toks[pos]
      case TAssign =>
        pos := pos + 1;
        err := Expression(BIND_ASSIGNMENT);
        if err.Some? {
          return;
        }
        if |names1| == 1 {
          EmitLoadConst(Assignment, CStr(name));
        } else if exists c | c in consts :: c.CMulti? {
          err := Some(Panic);
        } else {
          EmitLoadConst(Assignment, CMulti(names1));
        }
      case TComma =>
        pos := pos + 1;
        if pos == |toks| {
          return Some(Eof);
        }
        if !toks[pos].TIdent? {
          return Some(Bad);
        }
        var next := toks[pos].name;
        pos := pos + 1;
        err := DumpAccessor(names1, next);
      case TMethod(fn) =>
        pos := pos + 1;
        EmitLoadConst(LoadGoroutineDump, CStr(name));
        err := Method(fn);
      case _ =>
        EmitLoadConst(LoadGoroutineDump, CStr(name));
    }

    /** The variables of a list of names, in order. */
    method EmitAll(indices: seq<nat>)
      requires Valid()
      modifies this`chunks
      ensures Valid() && State() == EmitLoads(old(State()), indices)
    {
      assert indices[0..] == indices;
      for i := 0 to |indices|
        invariant Valid() && EmitLoads(State(), indices[i..]) == EmitLoads(old(State()), indices)
      {
        assert indices[i..][0] == indices[i] && indices[i..][1..] == indices[i + 1..];
        var _ := EmitOp(LoadGoroutineDump, indices[i]);
      }
    }

    // ----- calls -----

    method Method(fn: FnName) returns (err: Option<ParseError>)
      requires Valid()
      modifies this
      ensures Ends(err, ParseMethod(toks, old(State()), fn))
      ensures pos >= old(pos)
      decreases |toks| - pos, 5
    {
      err := ExpectToken(TLeftParen);
      if err.None? {
        err := Args(fn);
      }
    }

    method Function(fn: FnName) returns (err: Option<ParseError>)
      requires Valid()
      modifies this
      ensures Ends(err, ParseFunction(toks, old(State()), fn))
      ensures pos >= old(pos)
      decreases |toks| - pos, 5
    {
      err := ExpectToken(TLeftParen);
      if err.None? {
        err := Expression(BIND_CALL);
      }
      if err.None? {
        err := Args(fn);
      }
    }

    method Args(fn: FnName) returns (err: Option<ParseError>)
      requires Valid()
      modifies this
      ensures Ends(err, ParseArgs(toks, old(State()), fn))
      ensures pos >= old(pos)
      decreases |toks| - pos, 4
    {
      err := Arg(fn);
      if err.Some? {
        return;
      }
      if !FnOp(fn).Noop? {
        var _ := EmitOp(FnOp(fn), 0);
      }
      err := ExpectToken(TRightParen);
    }

    method Arg(fn: FnName) returns (err: Option<ParseError>)
      requires Valid()
      modifies this
      ensures Ends(err, ParseArg(toks, old(State()), fn))
      ensures pos >= old(pos)
      decreases |toks| - pos, 3
    {
      if fn.FnUnion? || fn.FnIntersect? || fn.FnDiff? {
        err := Expression(BIND_CALL);
      } else if fn.FnLoad? {
        if pos == |toks| {
          return Some(Eof);
        }
        if !toks[pos].TString? {
          return Some(Bad);
        }
        var path := toks[pos].s;
        pos := pos + 1;
        EmitLoadConst(LoadString, CStr(path));
        err := None;
      } else {
        err := FilterLoop(fn);
      }
    }

    method FilterLoop(fn: FnName) returns (err: Option<ParseError>)
      requires Valid()
      modifies this
      ensures Ends(err, ParseFilter(toks, old(State()), fn))
      ensures pos >= old(pos)
      decreases |toks| - pos, 2
    {
      hide Emit, PatchJump, ParsePredicate;
      if fn.FnGraph? {
        var _ := EmitOp(Dup, 0);
      }
      var _ := EmitOp(TempDump, 0);
      var addr := EmitOp(NextGoroutine, PATCH_PLACEHOLDER);
      err := Predicate();
      if err.Some? {
        return;
      }
      var _ := EmitOp(if fn.FnDelete? then JumpIfTrue else JumpIfFalse, addr);
      var _ := EmitOp(AddGoroutine, 0);
      var _ := EmitOp(JumpTo, addr);
      var _ := EmitOp(PushDump, 0);
      err := Patch(addr, 0);
    }

    method Predicate() returns (err: Option<ParseError>)
      requires Valid()
      modifies this
      ensures Ends(err, ParsePredicate(toks, old(State())))
      ensures pos >= old(pos)
      decreases |toks| - pos, 1
    {
      var k := |chunks|;
      chunks := chunks + [[]];
      cur := k;
      err := Expression(BIND_FUNC);
      if err.Some? && err.value != Eof {
        return;
      }
      var _ := EmitOp(Return, 0);
      cur := 0;
      var _ := EmitOp(Call, k);
      err := None;
    }

    /** Compile: parse one expression into the main chunk, then optimize it. */
    method Compile() returns (err: Option<ParseError>)
      requires Valid() && State() == Unit(0, [[]], 0, [])
      modifies this
      ensures Valid() && err == ParseProgram(toks).err
      ensures var st := ParseProgram(toks).st;
              consts == st.consts && cur == st.cur &&
              chunks == if err.Some? then st.chunks else st.chunks[st.cur := Optimized(st.chunks[st.cur], 0)]
    {
      err := Expression(BIND_NONE);
      if err.None? {
        var chunk := new ChunkBuffer(chunks[cur]);
        chunk.OptimizePredicates();
        chunks := chunks[cur := chunk.ops];
      }
    }
  }

  /** A chunk that is rewritten in place. */
  class ChunkBuffer {
    var ops: Chunk

    constructor (ops: Chunk)
      ensures this.ops == ops
    {
      this.ops := ops;
    }

    /** patchOut: drop gap instructions at first and relocate the jumps behind them, unless one goes into the window. */
    method PatchOut(first: nat, gap: nat) returns (ok: bool)
      requires first + gap <= |ops|
      modifies this
      ensures var r := PatchedOut(old(ops), first, gap);
              ok == r.Some? && ops == if ok then r.value else old(ops)
    {
      var shifted := ops[..first] + ops[first + gap..];
      for i := first to |shifted|
        invariant ops == old(ops) && |shifted| == |ops| - gap && shifted[..first] == ops[..first]
        invariant forall k | first <= k < i :: shifted[k] == Relocated(ops[k + gap], first, gap)
        invariant forall k | i <= k < |shifted| :: shifted[k] == ops[k + gap]
        invariant forall k | first + gap <= k < i + gap :: !IntoWindow(ops[k], first, gap)
      {
        var x := shifted[i];
        assert x == ops[i + gap];
        if x.op.JumpIfFalse? || x.op.JumpTo? || x.op.JumpIfTrue? || x.op.NextGoroutine? {
          if first <= x.arg < first + gap {
            assert IntoWindow(ops[i + gap], first, gap);
            return false;
          }
          if x.arg >= first {
            shifted := shifted[i := Instr(x.op, x.arg - gap)];
          }
        }
      }
      assert shifted == ops[..first] + RelocatedAll(ops[first + gap..], first, gap);
      ops := shifted;
      ok := true;
    }

    /** nextFilterExpr: whether a filter loop starts at i, with its call and its conditional jump. */
    method NextFilter(i: nat) returns (call: Instr, jump: Instr, ok: bool)
      ensures ok == FilterAt(ops, i)
      ensures ok ==> call == ops[i + 2] && jump == ops[i + 3]
    {
      call, jump, ok := Instr(Noop, 0), Instr(Noop, 0), false;
      if |ops| < i + 7 {
        return;
      }
      var found := [ops[i].op, ops[i + 1].op, ops[i + 2].op, ops[i + 4].op, ops[i + 5].op, ops[i + 6].op];
      var filterOps := [TempDump, NextGoroutine, Call, AddGoroutine, JumpTo, PushDump];
      OpsCompared(found, filterOps);
      if found == filterOps {
        call, jump, ok := ops[i + 2], ops[i + 3], true;
      }
    }

    /** optimizePredicates: fuse runs of adjacent filter loops in place, in one scan. */
    method OptimizePredicates()
      modifies this
      ensures ops == Optimized(old(ops), 0)
    {
      hide Optimized, FusedAt, FilterAt, RunFrom;
      var orig := 0;
      while orig < |ops|
        invariant orig >= 0 && Optimized(ops, orig) == Optimized(old(ops), 0)
        decreases |ops| - orig
      {
        ghost var before, at := ops, orig;
        var _, _, found := NextFilter(orig);
        if found {
          orig := FuseRun(orig);
          FusedShorter(before, at);
        } else {
          orig := orig + 1;
        }
        ScanStep(before, at);
      }
      ScanEnd(ops, orig);
    }

    /** One turn of the scan at a filter loop: its run is fused if there is more than one; the next index to scan. */
    method FuseRun(start: nat) returns (next: nat)
      requires FilterAt(ops, start)
      modifies this
      ensures var n := RunLength(old(ops), start);
              n >= 1 && next == start + 7 * n + 1 && ops == if n == 1 then old(ops) else FusedAt(old(ops), start, n)
    {
      ghost var before := ops;
      var n := CopyCalls(start);
      if n > 1 {
        CloseLoop(start, n, before);
      } else {
        WrittenOne(before, start);
      }
      next := start + 7 * n + 1;
    }

    /** Copy the calls and jumps of the run's later filters behind those of the first one, while scanning ahead. */
    method CopyCalls(start: nat) returns (n: nat)
      requires FilterAt(ops, start)
      modifies this
      ensures n == RunLength(old(ops), start) && n >= 1
      ensures Adjacent(old(ops), start, n) && ops == Written(old(ops), start, n)
    {
      hide FilterAt, Written, LaterCalls, Adjacent, RunFrom;
      n := 1;
      var orig, newIndex := start, start + 4;
      RunStarts(ops, start);
      WrittenOne(ops, start);
      while true
        invariant n >= 1 && Adjacent(old(ops), start, n) && RunFrom(old(ops), start, n) == RunLength(old(ops), start)
        invariant orig == start + 7 * (n - 1) && newIndex == start + 2 * n + 2
        invariant ops == Written(old(ops), start, n)
        decreases |old(ops)| - orig
      {
        orig := orig + 7;
        WrittenBehind(old(ops), start, n);
        var call, jump, more := NextFilter(orig);
        if !more {
          break;
        }
        WrittenMore(old(ops), start, n);
        ops := ops[newIndex := call][newIndex + 1 := Instr(jump.op, start + 1)];
        newIndex := newIndex + 2;
        n := n + 1;
      }
    }

    /** Write the end of the fused loop, and remove what is left of the run. */
    method CloseLoop(start: nat, n: nat, ghost before: Chunk)
      requires n > 1 && Adjacent(before, start, n) && ops == Written(before, start, n)
      modifies this
      ensures ops == FusedAt(before, start, n)
    {
      hide Written, LaterCalls, Adjacent, PatchedOut;
      var newIndex, toPatchOut := start + 2 * n + 2, 5 * (n - 1);
      ops := ops[newIndex := Instr(AddGoroutine, 0)][newIndex + 1 := Instr(JumpTo, start + 1)]
                [newIndex + 2 := Instr(PushDump, 0)][start + 1 := Instr(NextGoroutine, newIndex + 2)];
      newIndex := newIndex + 3;
      assert ops == Closed(before, start, n);
      var _ := PatchOut(newIndex, toPatchOut);
    }
  }

  lemma OpsCompared(a: seq<OpCode>, b: seq<OpCode>)
    requires |a| == 6 && |b| == 6
    ensures a == b <==> a[0] == b[0] && a[1] == b[1] && a[2] == b[2] && a[3] == b[3] && a[4] == b[4] && a[5] == b[5]
  {
  }

  /** One turn of the scan. */
  lemma ScanStep(ops: Chunk, i: nat)
    requires i < |ops|
    ensures var n := RunLength(ops, i);
            && (FilterAt(ops, i) <==> n >= 1)
            && Optimized(ops, i) == if n == 0 then Optimized(ops, i + 1) else if n == 1 then Optimized(ops, i + 8)
                                    else Optimized(FusedAt(ops, i, n), i + 7 * n + 1)
  {
    hide FusedAt, Written, Closed;
    assert i + 7 * 0 == i;
  }

  lemma ScanEnd(ops: Chunk, i: nat)
    requires i >= |ops|
    ensures Optimized(ops, i) == ops
  {
  }

  lemma FusedShorter(ops: Chunk, i: nat)
    ensures RunLength(ops, i) > 1 ==> |FusedAt(ops, i, RunLength(ops, i))| <= |ops|
  {
    if RunLength(ops, i) > 1 {
      FusedLength(ops, i, RunLength(ops, i));
    }
  }

  lemma RunStarts(ops: Chunk, i: nat)
    requires FilterAt(ops, i)
    ensures Adjacent(ops, i, 1) && RunFrom(ops, i, 1) == RunLength(ops, i)
  {
    assert Adjacent(ops, i, 0) && i + 7 * 0 == i;
  }

  lemma WrittenOne(ops: Chunk, i: nat)
    requires FilterAt(ops, i)
    ensures Adjacent(ops, i, 1) && Written(ops, i, 1) == ops
  {
    assert Adjacent(ops, i, 0) && i + 7 * 0 == i;
  }

  /** The scan reads behind what it has written. */
  lemma WrittenBehind(ops: Chunk, i: nat, n: nat)
    requires n >= 1 && Adjacent(ops, i, n)
    ensures forall k | i + 2 * n + 2 <= k < |ops| :: Written(ops, i, n)[k] == ops[k]
    ensures FilterAt(Written(ops, i, n), i + 7 * n) == FilterAt(ops, i + 7 * n)
    ensures FilterAt(ops, i + 7 * n) ==> i + 7 * n + 7 <= |ops|
    ensures RunFrom(ops, i, n) == if FilterAt(ops, i + 7 * n) then RunFrom(ops, i, n + 1) else n
  {
    hide LaterCalls;
    assert forall k | i + 2 * n + 2 <= k < |ops| :: Written(ops, i, n)[k] == ops[k];
  }

  lemma WrittenMore(ops: Chunk, i: nat, n: nat)
    requires n >= 1 && Adjacent(ops, i, n) && FilterAt(ops, i + 7 * n)
    ensures Adjacent(ops, i, n + 1)
    ensures var w, at := Written(ops, i, n), i + 2 * n + 2;
            Written(ops, i, n + 1) == w[at := ops[i + 7 * n + 2]][at + 1 := Instr(ops[i + 7 * n + 3].op, i + 1)]
  {
    assert Adjacent(ops, i, n + 1);
    assert LaterCalls(ops, i, n + 1, i + 1) ==
      LaterCalls(ops, i, n, i + 1) + [ops[i + 7 * n + 2], Instr(ops[i + 7 * n + 3].op, i + 1)];
  }

  lemma FirstIndex(consts: seq<Const>, c: Const, i: nat)
    requires i < |consts| && consts[i] == c && forall j | 0 <= j < i :: consts[j] != c
    ensures IndexOf(consts, c) == i
  {
    assert consts[IndexOf(consts, c)] == c;
  }
}
