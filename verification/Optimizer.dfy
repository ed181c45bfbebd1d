/**
 * The peephole pass over the main chunk (optimizePredicates, nextFilterExpr and
 * patchOut of internal/compiler.go) as functions on instruction sequences, and
 * the proof that on laid-out macros it is fusion of adjacent loops.
 */
module Optimizer {
  import opened Results
  import opened Chunks
  import opened Codegen
  import opened Fusion

  // ----- the pass -----

  /** nextFilterExpr: whether a filter loop starts at i; only opcodes are looked at, and the one at i + 3 is not. */
  predicate FilterAt(ops: Chunk, i: nat) {
    && i + 7 <= |ops|
    && ops[i].op.TempDump?
    && ops[i + 1].op.NextGoroutine?
    && ops[i + 2].op.Call?
    && ops[i + 4].op.AddGoroutine?
    && ops[i + 5].op.JumpTo?
    && ops[i + 6].op.PushDump?
  }

  /** n filter loops follow each other from i on. */
  predicate Adjacent(ops: Chunk, i: nat, n: nat)
    ensures Adjacent(ops, i, n) && n > 0 ==> i + 7 * n <= |ops|
  {
    n == 0 || (Adjacent(ops, i, n - 1) && FilterAt(ops, i + 7 * (n - 1)))
  }

  /** The number of filter loops that follow each other from i on, n of them being known. */
  function RunFrom(ops: Chunk, i: nat, n: nat): (r: nat)
    requires Adjacent(ops, i, n)
    ensures n <= r && Adjacent(ops, i, r) && !FilterAt(ops, i + 7 * r)
    decreases |ops| - 7 * n
  {
    if FilterAt(ops, i + 7 * n) then RunFrom(ops, i, n + 1) else n
  }

  function RunLength(ops: Chunk, i: nat): nat {
    RunFrom(ops, i, 0)
  }

  /** The Call and the conditional jump of the filters 1 to n - 1 of a run, with jumps to next. */
  function LaterCalls(ops: Chunk, i: nat, n: nat, next: nat): (code: Chunk)
    requires n >= 1 && Adjacent(ops, i, n)
    ensures |code| == 2 * (n - 1)
  {
    if n == 1 then []
    else
      var j := i + 7 * (n - 1);
      LaterCalls(ops, i, n - 1, next) + [ops[j + 2], Instr(ops[j + 3].op, next)]
  }

  /** ops after the Calls and jumps of a run of n filters at i have been written over its first loop. */
  function Written(ops: Chunk, i: nat, n: nat): (r: Chunk)
    requires n >= 1 && Adjacent(ops, i, n)
    ensures |r| == |ops|
  {
    ops[..i + 4] + LaterCalls(ops, i, n, i + 1) + ops[i + 2 * n + 2..]
  }

  /** Written, with the end of the loop behind the last filter. */
  function Closed(ops: Chunk, i: nat, n: nat): (r: Chunk)
    requires n >= 2 && Adjacent(ops, i, n)
    ensures |r| == |ops|
  {
    var end := i + 2 * n + 4;
    Written(ops, i, n)
      [end - 2 := Instr(AddGoroutine, 0)][end - 1 := Instr(JumpTo, i + 1)][end := Instr(PushDump, 0)]
      [i + 1 := Instr(NextGoroutine, end)]
  }

  /** patchOut on one instruction behind the removed window. */
  function Relocated(x: Instr, first: nat, gap: nat): Instr {
    if IsJump(x.op) && x.arg >= first + gap then Instr(x.op, x.arg - gap) else x
  }

  predicate IntoWindow(x: Instr, first: nat, gap: nat) {
    IsJump(x.op) && first <= x.arg < first + gap
  }

  function RelocatedAll(ops: Chunk, first: nat, gap: nat): (r: Chunk)
    ensures |r| == |ops|
    ensures forall k | 0 <= k < |r| :: r[k] == Relocated(ops[k], first, gap)
  {
    seq(|ops|, k requires 0 <= k < |ops| => Relocated(ops[k], first, gap))
  }

  /**
   * patchOut: remove gap instructions at first and relocate the jumps behind them; None if one of those jumps
   * into the window.
   */
  function PatchedOut(ops: Chunk, first: nat, gap: nat): Option<Chunk>
    requires first + gap <= |ops|
  {
    if exists k | first + gap <= k < |ops| :: IntoWindow(ops[k], first, gap) then None
    else Some(ops[..first] + RelocatedAll(ops[first + gap..], first, gap))
  }

  /** The chunk after a run of n filters at i has been fused; the error of patchOut is ignored. */
  function FusedAt(ops: Chunk, i: nat, n: nat): Chunk
    requires n >= 2 && Adjacent(ops, i, n)
  {
    match PatchedOut(Closed(ops, i, n), i + 2 * n + 5, 5 * (n - 1))
    case None => Closed(ops, i, n)
    case Some(r) => r
  }

  lemma FusedLength(ops: Chunk, i: nat, n: nat)
    requires n >= 2 && Adjacent(ops, i, n)
    ensures |FusedAt(ops, i, n)| <= |ops|
  {
    hide Closed;
  }

  /**
   * optimizePredicates from index i on. After a run of n filters the scan goes on 7 * n + 1 further, although
   * the chunk has shrunk.
   */
  function Optimized(ops: Chunk, i: nat): Chunk
    decreases |ops| - i
  {
    if i >= |ops| then ops
    else
      var n := RunLength(ops, i);
      if n == 0 then Optimized(ops, i + 1)
      else if n == 1 then Optimized(ops, i + 8)
      else
        FusedLength(ops, i, n);
        Optimized(FusedAt(ops, i, n), i + 7 * n + 1)
  }

  // ----- fusion of macros -----

  predicate IsSingle(m: Macro) {
    m.Loop? && |m.filters| == 1
  }

  /** The number of single-filter loops ms starts with. */
  function RunOf(ms: seq<Macro>): (n: nat)
    ensures n <= |ms| && (forall k | 0 <= k < n :: IsSingle(ms[k])) && (n < |ms| ==> !IsSingle(ms[n]))
  {
    if ms == [] || !IsSingle(ms[0]) then 0 else 1 + RunOf(ms[1..])
  }

  function FiltersOf(ms: seq<Macro>): (fs: seq<Filter>)
    requires forall k | 0 <= k < |ms| :: IsSingle(ms[k])
    ensures |fs| == |ms|
  {
    seq(|ms|, k requires 0 <= k < |ms| && IsSingle(ms[k]) => ms[k].filters[0])
  }

  function Minus(a: nat, b: nat): nat {
    if a < b then 0 else a - b
  }

  /**
   * What the pass does to the macros: a run of n >= 2 adjacent single-filter
   * loops becomes one loop. skip is how far the scan index is ahead of ms;
   * a loop behind which the index already is stays as it is.
   */
  function Fuse(ms: seq<Macro>, skip: nat): seq<Macro>
    decreases |ms|
  {
    if ms == [] then []
    else if skip > 0 then [ms[0]] + Fuse(ms[1..], Minus(skip, MacroLen(ms[0])))
    else
      var n := RunOf(ms);
      if n == 0 then [ms[0]] + Fuse(ms[1..], 0)
      else if n == 1 then [ms[0]] + Fuse(ms[1..], 1)
      else [Loop(FiltersOf(ms[..n]))] + Fuse(ms[n..], 5 * n - 4)
  }

  // ----- the pass recognizes single-filter loops -----

  lemma {:induction false} FuseKeepsSplit(ms: seq<Macro>, skip: nat)
    requires LoopsNonempty(ms)
    ensures Split(Fuse(ms, skip)) == Split(ms) && LoopsNonempty(Fuse(ms, skip))
    decreases |ms|
  {
    hide Singles;
    if ms != [] {
      var n := RunOf(ms);
      assert forall m | m in ms[1..] :: m in ms;
      if skip > 0 || n <= 1 {
        var skip' := if skip > 0 then Minus(skip, MacroLen(ms[0])) else n;
        FuseKeepsSplit(ms[1..], skip');
        assert ([ms[0]] + Fuse(ms[1..], skip'))[1..] == Fuse(ms[1..], skip');
      } else {
        assert forall m | m in ms[n..] :: m in ms;
        FuseKeepsSplit(ms[n..], 5 * n - 4);
        var fused := Loop(FiltersOf(ms[..n]));
        assert ([fused] + Fuse(ms[n..], 5 * n - 4))[1..] == Fuse(ms[n..], 5 * n - 4);
        SplitOfRun(ms, n);
      }
    }
  }

  lemma RunTail(ms: seq<Macro>)
    requires RunOf(ms) >= 1
    ensures RunOf(ms) == 1 + RunOf(ms[1..])
  {
    hide IsSingle;
  }

  lemma FiltersCons(ss: seq<Macro>)
    requires ss != [] && forall k | 0 <= k < |ss| :: IsSingle(ss[k])
    ensures ss[0] == Loop([FiltersOf(ss)[0]]) && FiltersOf(ss)[1..] == FiltersOf(ss[1..])
  {
    assert IsSingle(ss[0]);
  }

  lemma {:induction false} SplitOfRun(ms: seq<Macro>, n: nat)
    requires n <= RunOf(ms)
    ensures Split(ms) == Singles(FiltersOf(ms[..n])) + Split(ms[n..])
    decreases n
  {
    hide RunOf, FiltersOf, IsSingle, Parts, Singles;
    if n == 0 {
      assert ms[0..] == ms;
      NoSingles();
    } else {
      RunTail(ms);
      FiltersCons(ms[..n]);
      assert ms[..n][1..] == ms[1..][..n - 1] && ms[n..] == ms[1..][n - 1..];
      SplitOfRun(ms[1..], n - 1);
      SinglePart(FiltersOf(ms[..n]));
    }
  }

  lemma NoSingles()
    ensures Singles([]) == []
  {
  }

  lemma SinglePart(fs: seq<Filter>)
    requires fs != []
    ensures Parts(Loop([fs[0]])) == [Loop([fs[0]])] && Singles(fs) == [Loop([fs[0]])] + Singles(fs[1..])
  {
    assert Singles([fs[0]][1..]) == [];
  }

  lemma AtLayout(prefix: Chunk, ms: seq<Macro>, consts: seq<Const>, j: nat)
    requires MacrosInterned(ms, consts) && ms != [] && j < MacroLen(ms[0])
    ensures (prefix + Layout(ms, |prefix|, consts))[|prefix| + j] == MacroCode(ms[0], |prefix|, consts)[j]
  {
    hide MacroCode, MacroLen;
  }

  /** No filter loop starts inside the code of a macro, and one starts at it only if it is a single-filter loop. */
  lemma FilterOnlyAtSingle(prefix: Chunk, ms: seq<Macro>, consts: seq<Const>, j: nat)
    requires MacrosInterned(ms, consts) && LoopsNonempty(ms) && ms != [] && j < MacroLen(ms[0])
    ensures FilterAt(prefix + Layout(ms, |prefix|, consts), |prefix| + j) <==> j == 0 && IsSingle(ms[0])
  {
    hide Layout;
    var ops := prefix + Layout(ms, |prefix|, consts);
    var code := MacroCode(ms[0], |prefix|, consts);
    assert ms[0] in ms;
    AtLayout(prefix, ms, consts, j);
    if code[j].op.TempDump? {
      OnlyLoopsStart(ms[0], |prefix|, consts, j);
      var fs := ms[0].filters;
      forall k | 0 <= k < 2 * |fs| + 5 ensures ops[|prefix| + k] == code[k] {
        AtLayout(prefix, ms, consts, k);
      }
      LoopOps(fs, |prefix|);
      assert Length(ms) >= MacroLen(ms[0]);
      if |fs| > 1 {
        assert ops[|prefix| + 4].op.Call?;
      }
    } else if j == 0 && IsSingle(ms[0]) {
      LoopOps(ms[0].filters, |prefix|);
      assert false;
    }
  }

  lemma LoopOps(fs: seq<Filter>, base: nat)
    requires fs != []
    ensures var code := LoopCode(fs, base);
            && code[0].op.TempDump? && code[1].op.NextGoroutine? && code[2].op.Call?
            && (|fs| > 1 ==> code[4].op.Call?)
            && code[2 * |fs| + 2].op.AddGoroutine? && code[2 * |fs| + 3].op.JumpTo? && code[2 * |fs| + 4].op.PushDump?
            && forall k | 1 <= k < |code| :: !code[k].op.TempDump?
  {
    var calls := FilterCalls(fs, base + 1);
    assert calls[2 * 0].op.Call?;
    if |fs| > 1 {
      assert calls[2 * 1].op.Call?;
    }
    forall k | 0 <= k < |calls| ensures !calls[k].op.TempDump? {
      var h := k / 2;
      assert calls[2 * h] == Instr(Call, fs[h].chunk) && calls[2 * h + 1] == FilterJump(fs[h], base + 1);
      assert k == 2 * h || k == 2 * h + 1;
    }
  }

  lemma OnlyLoopsStart(m: Macro, base: nat, consts: seq<Const>, j: nat)
    requires MacroInterned(m, consts) && (m.Loop? ==> m.filters != []) && j < MacroLen(m)
    requires MacroCode(m, base, consts)[j].op.TempDump?
    ensures m.Loop? && j == 0
  {
    if m.Loop? {
      LoopOps(m.filters, base);
    }
  }

  // ----- a run of loops is fused -----

  lemma {:induction false} LengthOfRun(ms: seq<Macro>, n: nat)
    requires n <= RunOf(ms)
    ensures Length(ms[..n]) == 7 * n && Length(ms) == 7 * n + Length(ms[n..])
    decreases n
  {
    if n == 0 {
      assert ms[0..] == ms;
    } else {
      assert IsSingle(ms[0]);
      assert ms[..n][0] == ms[0] && ms[..n][1..] == ms[1..][..n - 1];
      assert ms[n..] == ms[1..][n - 1..];
      LengthOfRun(ms[1..], n - 1);
    }
  }

  /** The code of ms as the code of its first n macros followed by the rest. */
  lemma LayoutSplit(prefix: Chunk, ms: seq<Macro>, consts: seq<Const>, n: nat)
    requires MacrosInterned(ms, consts) && n <= RunOf(ms)
    ensures MacrosInterned(ms[..n], consts) && MacrosInterned(ms[n..], consts)
    ensures var p := prefix + Layout(ms[..n], |prefix|, consts);
            |p| == |prefix| + 7 * n && prefix + Layout(ms, |prefix|, consts) == p + Layout(ms[n..], |p|, consts)
  {
    hide Layout, MacroInterned, Length, Adjacent;
    assert ms == ms[..n] + ms[n..];
    InternedConcat(ms[..n], ms[n..], consts);
    LayoutConcat(ms[..n], ms[n..], |prefix|, consts);
    LengthOfRun(ms, n);
  }

  /** The scan finds exactly the single-filter loops ms starts with. */
  lemma {:induction false} RunOnLayout(prefix: Chunk, ms: seq<Macro>, consts: seq<Const>, n: nat)
    requires MacrosInterned(ms, consts) && LoopsNonempty(ms) && n <= RunOf(ms)
    requires Adjacent(prefix + Layout(ms, |prefix|, consts), |prefix|, n)
    ensures RunFrom(prefix + Layout(ms, |prefix|, consts), |prefix|, n) == RunOf(ms)
    decreases RunOf(ms) - n
  {
    hide Layout, MacroInterned, IsSingle;
    var ops := prefix + Layout(ms, |prefix|, consts);
    LayoutSplit(prefix, ms, consts, n);
    var p := prefix + Layout(ms[..n], |prefix|, consts);
    if n < |ms| {
      assert forall m | m in ms[n..] :: m in ms;
      FilterOnlyAtSingle(p, ms[n..], consts, 0);
      if IsSingle(ms[n]) {
        RunOnLayout(prefix, ms, consts, n + 1);
      }
    } else {
      assert ms[n..] == [] && Length([]) == 0;
      assert |ops| == |p|;
    }
  }

  /** The instructions of filter k of a run. */
  lemma RunInstructions(prefix: Chunk, ms: seq<Macro>, consts: seq<Const>, k: nat)
    requires MacrosInterned(ms, consts) && k < RunOf(ms)
    ensures var at := |prefix| + 7 * k;
            var ops := prefix + Layout(ms, |prefix|, consts);
            && at + 7 <= |ops| && IsSingle(ms[k])
            && ops[at + 2] == Instr(Call, ms[k].filters[0].chunk)
            && ops[at + 3] == FilterJump(ms[k].filters[0], at + 1)
            && (k == 0 ==> ops[at] == Instr(TempDump, 0))
  {
    hide Layout;
    LayoutSplit(prefix, ms, consts, k);
    var p := prefix + Layout(ms[..k], |prefix|, consts);
    var fs := ms[k].filters;
    var code := LoopCode(fs, |p|);
    var calls := FilterCalls(fs, |p| + 1);
    assert calls[2 * 0] == Instr(Call, fs[0].chunk) && calls[2 * 0 + 1] == FilterJump(fs[0], |p| + 1);
    AtLayout(p, ms[k..], consts, 0);
    AtLayout(p, ms[k..], consts, 2);
    AtLayout(p, ms[k..], consts, 3);
    LengthOfRun(ms, k + 1);
    assert |Layout(ms, |prefix|, consts)| == Length(ms);
  }

  lemma {:induction false} FilterCallsConcat(fs: seq<Filter>, f: Filter, next: nat)
    ensures FilterCalls(fs + [f], next) == FilterCalls(fs, next) + [Instr(Call, f.chunk), FilterJump(f, next)]
  {
    if fs == [] {
      assert FilterCalls([f][1..], next) == [];
    } else {
      assert (fs + [f])[1..] == fs[1..] + [f];
      FilterCallsConcat(fs[1..], f, next);
    }
  }

  lemma FiltersOfAt(ms: seq<Macro>, k: nat)
    requires k < |ms| && forall i | 0 <= i < |ms| :: IsSingle(ms[i])
    ensures IsSingle(ms[k]) && FiltersOf(ms)[k] == ms[k].filters[0]
  {
  }

  lemma FiltersOfFront(ms: seq<Macro>, n: nat)
    requires 2 <= n <= RunOf(ms)
    ensures FiltersOf(ms[..n])[1..] == FiltersOf(ms[..n - 1])[1..] + [ms[n - 1].filters[0]]
  {
    hide FiltersOf, IsSingle;
    var fs := FiltersOf(ms[..n]);
    FiltersOfAt(ms[..n], n - 1);
    forall k | 0 <= k < n - 1 ensures FiltersOf(ms[..n - 1])[k] == fs[k] {
      FiltersOfAt(ms[..n], k);
      FiltersOfAt(ms[..n - 1], k);
    }
  }

  /** The copied Calls and jumps are those of one loop with all the filters. */
  lemma {:induction false} LaterCallsOnLayout(prefix: Chunk, ms: seq<Macro>, consts: seq<Const>, n: nat)
    requires MacrosInterned(ms, consts) && 1 <= n <= RunOf(ms)
    requires Adjacent(prefix + Layout(ms, |prefix|, consts), |prefix|, n)
    ensures LaterCalls(prefix + Layout(ms, |prefix|, consts), |prefix|, n, |prefix| + 1) ==
            FilterCalls(FiltersOf(ms[..n])[1..], |prefix| + 1)
    decreases n
  {
    hide Layout;
    var next := |prefix| + 1;
    var fs := FiltersOf(ms[..n]);
    if n == 1 {
      assert fs[1..] == [];
    } else {
      LaterCallsOnLayout(prefix, ms, consts, n - 1);
      RunInstructions(prefix, ms, consts, n - 1);
      FiltersOfFront(ms, n);
      FilterCallsConcat(FiltersOf(ms[..n - 1])[1..], ms[n - 1].filters[0], next);
    }
  }

  // ----- jumps behind a fused run -----

  ghost predicate CleanlyRelocated(code: Chunk, moved: Chunk, first: nat, gap: nat) {
    RelocatedAll(code, first, gap) == moved && forall k | 0 <= k < |code| :: !IntoWindow(code[k], first, gap)
  }

  lemma CleanlyConcat(a: Chunk, b: Chunk, ma: Chunk, mb: Chunk, first: nat, gap: nat)
    requires CleanlyRelocated(a, ma, first, gap) && CleanlyRelocated(b, mb, first, gap)
    ensures CleanlyRelocated(a + b, ma + mb, first, gap)
  {
  }

  lemma RelocatedLoop(fs: seq<Filter>, base: nat, first: nat, gap: nat)
    requires base >= first + gap
    ensures CleanlyRelocated(LoopCode(fs, base), LoopCode(fs, base - gap), first, gap)
  {
    var head, head' := [Instr(TempDump, 0), Instr(NextGoroutine, base + 2 * |fs| + 4)],
                       [Instr(TempDump, 0), Instr(NextGoroutine, base - gap + 2 * |fs| + 4)];
    var calls, calls' := FilterCalls(fs, base + 1), FilterCalls(fs, base - gap + 1);
    var tail, tail' := [Instr(AddGoroutine, 0), Instr(JumpTo, base + 1), Instr(PushDump, 0)],
                       [Instr(AddGoroutine, 0), Instr(JumpTo, base - gap + 1), Instr(PushDump, 0)];
    forall k | 0 <= k < |calls|
      ensures Relocated(calls[k], first, gap) == calls'[k] && !IntoWindow(calls[k], first, gap)
    {
      var h := k / 2;
      assert calls[2 * h] == Instr(Call, fs[h].chunk) && calls[2 * h + 1] == FilterJump(fs[h], base + 1);
      assert calls'[2 * h] == Instr(Call, fs[h].chunk) && calls'[2 * h + 1] == FilterJump(fs[h], base - gap + 1);
      assert k == 2 * h || k == 2 * h + 1;
    }
    CleanlyConcat(head, calls, head', calls', first, gap);
    CleanlyConcat(head + calls, tail, head' + calls', tail', first, gap);
  }

  lemma RelocatedMacro(m: Macro, consts: seq<Const>, base: nat, first: nat, gap: nat)
    requires MacroInterned(m, consts) && base >= first + gap
    ensures CleanlyRelocated(MacroCode(m, base, consts), MacroCode(m, base - gap, consts), first, gap)
  {
    if m.Loop? {
      RelocatedLoop(m.filters, base, first, gap);
    }
  }

  lemma {:induction false} RelocatedLayout(ms: seq<Macro>, consts: seq<Const>, base: nat, first: nat, gap: nat)
    requires MacrosInterned(ms, consts) && base >= first + gap
    ensures CleanlyRelocated(Layout(ms, base, consts), Layout(ms, base - gap, consts), first, gap)
  {
    hide CleanlyRelocated, MacroCode, MacroInterned, Layout, MacroLen, Length;
    if ms != [] {
      var len := MacroLen(ms[0]);
      LayoutCons(ms, consts, base);
      LayoutCons(ms, consts, base - gap);
      RelocatedMacro(ms[0], consts, base, first, gap);
      RelocatedLayout(ms[1..], consts, base + len, first, gap);
      assert base + len - gap == base - gap + len;
      CleanlyConcat(MacroCode(ms[0], base, consts), Layout(ms[1..], base + len, consts),
        MacroCode(ms[0], base - gap, consts), Layout(ms[1..], base - gap + len, consts), first, gap);
    } else {
      RelocatedNothing(ms, consts, base, first, gap);
    }
  }

  lemma RelocatedNothing(ms: seq<Macro>, consts: seq<Const>, base: nat, first: nat, gap: nat)
    requires ms == [] && base >= gap
    ensures MacrosInterned(ms, consts)
    ensures CleanlyRelocated(Layout(ms, base, consts), Layout(ms, base - gap, consts), first, gap)
  {
  }

  lemma LayoutCons(ms: seq<Macro>, consts: seq<Const>, base: nat)
    requires MacrosInterned(ms, consts) && ms != []
    ensures MacroInterned(ms[0], consts) && MacrosInterned(ms[1..], consts)
    ensures Layout(ms, base, consts) == MacroCode(ms[0], base, consts) + Layout(ms[1..], base + MacroLen(ms[0]), consts)
  {
    hide MacroCode, MacroInterned;
  }

  // ----- the pass is fusion -----

  /** The rewritten part of the chunk is the code of one loop with all filters of the run. */
  lemma ClosedOnLayout(prefix: Chunk, ms: seq<Macro>, consts: seq<Const>, n: nat)
    requires MacrosInterned(ms, consts) && 2 <= n <= RunOf(ms)
    requires Adjacent(prefix + Layout(ms, |prefix|, consts), |prefix|, n)
    ensures var ops, i := prefix + Layout(ms, |prefix|, consts), |prefix|;
            var closed, first := Closed(ops, i, n), i + 2 * n + 5;
            closed[..first] == prefix + LoopCode(FiltersOf(ms[..n]), i) && closed[first..] == ops[first..]
  {
    hide Layout, Adjacent, MacroInterned, LaterCalls, Written, RunOf, IsSingle, FiltersOf, FilterCalls;
    var ops, i := prefix + Layout(ms, |prefix|, consts), |prefix|;
    var fs, end := FiltersOf(ms[..n]), i + 2 * n + 4;
    LaterCallsOnLayout(prefix, ms, consts, n);
    RunInstructions(prefix, ms, consts, 0);
    FiltersOfAt(ms[..n], 0);
    var written := Written(ops, i, n);
    WrittenParts(ops, i, n, fs);
    var closed := Closed(ops, i, n);
    var code := LoopCode(fs, i);
    forall k | 0 <= k < end + 1 ensures closed[k] == (prefix + code)[k] {
      if i + 2 <= k < end - 2 {
        assert closed[k] == written[k] == FilterCalls(fs, i + 1)[k - (i + 2)];
        assert code[k - i] == FilterCalls(fs, i + 1)[k - i - 2];
      }
    }
  }

  lemma WrittenParts(ops: Chunk, i: nat, n: nat, fs: seq<Filter>)
    requires n >= 2 && Adjacent(ops, i, n) && |fs| == n
    requires LaterCalls(ops, i, n, i + 1) == FilterCalls(fs[1..], i + 1)
    requires ops[i + 2] == Instr(Call, fs[0].chunk) && ops[i + 3] == FilterJump(fs[0], i + 1)
    ensures var w := Written(ops, i, n);
            && (forall k | 0 <= k < i + 2 :: w[k] == ops[k])
            && (forall k | i + 2 <= k < i + 2 + 2 * n :: w[k] == FilterCalls(fs, i + 1)[k - (i + 2)])
            && (forall k | i + 2 * n + 2 <= k < |ops| :: w[k] == ops[k])
  {
    hide LaterCalls, Adjacent;
    var calls := FilterCalls(fs, i + 1);
    assert calls == [Instr(Call, fs[0].chunk), FilterJump(fs[0], i + 1)] + FilterCalls(fs[1..], i + 1);
  }

  lemma PatchedOnLayout(closed: Chunk, first: nat, gap: nat, rest: seq<Macro>, consts: seq<Const>)
    requires MacrosInterned(rest, consts) && first + gap <= |closed|
    requires closed[first + gap..] == Layout(rest, first + gap, consts)
    ensures PatchedOut(closed, first, gap) == Some(closed[..first] + Layout(rest, first, consts))
  {
    hide Layout, MacroInterned;
    var tail := Layout(rest, first + gap, consts);
    RelocatedLayout(rest, consts, first + gap, first, gap);
    assert forall k | first + gap <= k < |closed| :: closed[k] == tail[k - (first + gap)];
  }

  /** FusedAt, given what the rewritten part of the chunk and the part behind the run are. */
  lemma FusedFrom(ops: Chunk, i: nat, n: nat, head: Chunk, rest: seq<Macro>, consts: seq<Const>)
    requires n >= 2 && Adjacent(ops, i, n) && MacrosInterned(rest, consts)
    requires Closed(ops, i, n)[..i + 2 * n + 5] == head
    requires Closed(ops, i, n)[i + 2 * n + 5..] == ops[i + 2 * n + 5..]
    requires ops[i + 7 * n..] == Layout(rest, i + 7 * n, consts)
    ensures FusedAt(ops, i, n) == head + Layout(rest, i + 2 * n + 5, consts)
  {
    hide Layout, MacroInterned, Closed, PatchedOut, Adjacent;
    var first, gap := i + 2 * n + 5, 5 * (n - 1);
    var closed := Closed(ops, i, n);
    assert closed[first + gap..] == ops[first..][gap..] == ops[i + 7 * n..];
    PatchedOnLayout(closed, first, gap, rest, consts);
  }

  lemma FusedOnLayout(prefix: Chunk, ms: seq<Macro>, consts: seq<Const>, n: nat)
    requires MacrosInterned(ms, consts) && 2 <= n <= RunOf(ms)
    requires Adjacent(prefix + Layout(ms, |prefix|, consts), |prefix|, n)
    ensures MacrosInterned(ms[n..], consts) && MacrosInterned([Loop(FiltersOf(ms[..n]))] + ms[n..], consts)
    ensures FusedAt(prefix + Layout(ms, |prefix|, consts), |prefix|, n) ==
            prefix + Layout([Loop(FiltersOf(ms[..n]))] + ms[n..], |prefix|, consts)
  {
    hide Layout, MacrosInterned, Closed, LoopCode, Length, FusedAt, Adjacent, RunOf, IsSingle, FiltersOf;
    var ops, i := prefix + Layout(ms, |prefix|, consts), |prefix|;
    var fs := FiltersOf(ms[..n]);
    ClosedOnLayout(prefix, ms, consts, n);
    LayoutSplit(prefix, ms, consts, n);
    var p := prefix + Layout(ms[..n], i, consts);
    assert ops[i + 7 * n..] == Layout(ms[n..], i + 7 * n, consts);
    FusedFrom(ops, i, n, prefix + LoopCode(fs, i), ms[n..], consts);
    FusedParts(fs, ms[n..], i, consts);
    assert prefix + LoopCode(fs, i) + Layout(ms[n..], i + 2 * n + 5, consts)
      == prefix + (LoopCode(fs, i) + Layout(ms[n..], i + 2 * n + 5, consts));
  }

  lemma FusedParts(fs: seq<Filter>, rest: seq<Macro>, base: nat, consts: seq<Const>)
    requires MacrosInterned(rest, consts)
    ensures MacrosInterned([Loop(fs)] + rest, consts)
    ensures Layout([Loop(fs)] + rest, base, consts) == LoopCode(fs, base) + Layout(rest, base + 2 * |fs| + 5, consts)
  {
    hide Layout, LoopCode, MacroInterned, Length;
    var fused := [Loop(fs)] + rest;
    assert fused[0] == Loop(fs) && fused[1..] == rest;
    FusedInterned(fs, rest, consts);
    LayoutCons(fused, consts, base);
  }

  lemma FusedInterned(fs: seq<Filter>, rest: seq<Macro>, consts: seq<Const>)
    requires MacrosInterned(rest, consts)
    ensures MacrosInterned([Loop(fs)] + rest, consts)
  {
    assert forall m | m in [Loop(fs)] + rest :: m == Loop(fs) || m in rest;
  }

  lemma {:induction false} FuseInterned(ms: seq<Macro>, skip: nat, consts: seq<Const>)
    requires MacrosInterned(ms, consts)
    ensures MacrosInterned(Fuse(ms, skip), consts)
    decreases |ms|
  {
    hide MacroInterned;
    if ms != [] {
      var n := RunOf(ms);
      InternedConcat(ms[..1], ms[1..], consts);
      assert ms[..1] + ms[1..] == ms && ms[..1] == [ms[0]];
      if skip > 0 || n <= 1 {
        var skip' := if skip > 0 then Minus(skip, MacroLen(ms[0])) else n;
        FuseInterned(ms[1..], skip', consts);
        InternedConcat([ms[0]], Fuse(ms[1..], skip'), consts);
      } else {
        InternedConcat(ms[..n], ms[n..], consts);
        assert ms[..n] + ms[n..] == ms;
        FuseInterned(ms[n..], 5 * n - 4, consts);
        FusedInterned(FiltersOf(ms[..n]), Fuse(ms[n..], 5 * n - 4), consts);
      }
    }
  }

  /**
   * The pass over the code of ms, from skip instructions into it, yields the
   * code of Fuse(ms, skip): jumps are relocated, patchOut never fails, and
   * nothing but runs of single-filter loops is touched.
   */
  lemma {:induction false} OptimizedOnLayout(prefix: Chunk, ms: seq<Macro>, skip: nat, consts: seq<Const>)
    requires MacrosInterned(ms, consts) && LoopsNonempty(ms)
    ensures MacrosInterned(Fuse(ms, skip), consts)
    ensures Optimized(prefix + Layout(ms, |prefix|, consts), |prefix| + skip) ==
            prefix + Layout(Fuse(ms, skip), |prefix|, consts)
    decreases |ms|, 2, if ms == [] then 0 else Minus(MacroLen(ms[0]), skip)
  {
    hide Layout, MacrosInterned, MacroLen, FusedAt, FilterAt;
    FuseInterned(ms, skip, consts);
    var ops := prefix + Layout(ms, |prefix|, consts);
    if ms == [] {
      LayoutNil(|prefix|, consts);
    } else if skip >= MacroLen(ms[0]) {
      PastHead(prefix, ms, skip - MacroLen(ms[0]), consts);
    } else {
      FilterOnlyAtSingle(prefix, ms, consts, skip);
      LayoutLength(ms, |prefix|, consts);
      if skip > 0 || !IsSingle(ms[0]) {
        assert Optimized(ops, |prefix| + skip) == Optimized(ops, |prefix| + skip + 1);
        if skip + 1 == MacroLen(ms[0]) {
          PastHead(prefix, ms, 0, consts);
        } else {
          OptimizedOnLayout(prefix, ms, skip + 1, consts);
        }
      } else {
        FromSingle(prefix, ms, consts);
      }
    }
  }

  lemma LayoutNil(base: nat, consts: seq<Const>)
    ensures MacrosInterned([], consts) && Layout([], base, consts) == []
  {
  }

  lemma LayoutLength(ms: seq<Macro>, base: nat, consts: seq<Const>)
    requires MacrosInterned(ms, consts) && ms != []
    ensures |Layout(ms, base, consts)| >= MacroLen(ms[0])
  {
  }

  /** The scan index is past the first macro, which stays. */
  lemma {:induction false} PastHead(prefix: Chunk, ms: seq<Macro>, skip: nat, consts: seq<Const>)
    requires MacrosInterned(ms, consts) && LoopsNonempty(ms) && ms != []
    ensures MacrosInterned([ms[0]] + Fuse(ms[1..], skip), consts)
    ensures Optimized(prefix + Layout(ms, |prefix|, consts), |prefix| + MacroLen(ms[0]) + skip) ==
            prefix + Layout([ms[0]] + Fuse(ms[1..], skip), |prefix|, consts)
    decreases |ms|, 0, 0
  {
    hide Layout, MacroInterned, MacroLen, Optimized, Fuse, MacroCode;
    LayoutCons(ms, consts, |prefix|);
    assert forall m | m in ms[1..] :: m in ms;
    var p := prefix + MacroCode(ms[0], |prefix|, consts);
    assert prefix + Layout(ms, |prefix|, consts) == p + Layout(ms[1..], |p|, consts);
    OptimizedOnLayout(p, ms[1..], skip, consts);
    var r := [ms[0]] + Fuse(ms[1..], skip);
    assert r[0] == ms[0] && r[1..] == Fuse(ms[1..], skip);
    InternedConcat([ms[0]], Fuse(ms[1..], skip), consts);
    LayoutCons(r, consts, |prefix|);
  }

  /** The scan index is at a single-filter loop: it and the single-filter loops behind it are fused. */
  lemma {:induction false} FromSingle(prefix: Chunk, ms: seq<Macro>, consts: seq<Const>)
    requires MacrosInterned(ms, consts) && LoopsNonempty(ms) && ms != [] && IsSingle(ms[0])
    ensures MacrosInterned(Fuse(ms, 0), consts)
    ensures Optimized(prefix + Layout(ms, |prefix|, consts), |prefix|) == prefix + Layout(Fuse(ms, 0), |prefix|, consts)
    decreases |ms|, 1, 0
  {
    hide Layout, MacroInterned, FusedAt, Optimized, Fuse, MacroCode, FilterAt;
    var ops := prefix + Layout(ms, |prefix|, consts);
    var n := RunOf(ms);
    LayoutLength(ms, |prefix|, consts);
    RunOnLayout(prefix, ms, consts, 0);
    OptimizedUnfold(ops, |prefix|);
    FuseUnfold(ms);
    if n == 1 {
      PastHead(prefix, ms, 1, consts);
    } else {
      FusedOnLayout(prefix, ms, consts, n);
      assert forall m | m in ms[n..] :: m in ms;
      AfterFused(prefix, FiltersOf(ms[..n]), ms[n..], 5 * n - 4, consts);
    }
  }

  lemma OptimizedUnfold(ops: Chunk, i: nat)
    requires i < |ops| && RunLength(ops, i) >= 1
    ensures var n := RunLength(ops, i);
            Optimized(ops, i) == if n == 1 then Optimized(ops, i + 8) else Optimized(FusedAt(ops, i, n), i + 7 * n + 1)
  {
    hide FusedAt;
  }

  lemma FuseUnfold(ms: seq<Macro>)
    requires ms != [] && RunOf(ms) >= 1
    ensures var n := RunOf(ms);
            Fuse(ms, 0) == if n == 1 then [ms[0]] + Fuse(ms[1..], 1)
                           else [Loop(FiltersOf(ms[..n]))] + Fuse(ms[n..], 5 * n - 4)
  {
    hide RunOf, FiltersOf, Minus, MacroLen, IsSingle;
  }

  lemma {:induction false} AfterFused(prefix: Chunk, fs: seq<Filter>, rest: seq<Macro>, skip: nat, consts: seq<Const>)
    requires MacrosInterned(rest, consts) && LoopsNonempty(rest) && fs != []
    ensures MacrosInterned([Loop(fs)] + rest, consts) && MacrosInterned([Loop(fs)] + Fuse(rest, skip), consts)
    ensures Optimized(prefix + Layout([Loop(fs)] + rest, |prefix|, consts), |prefix| + 2 * |fs| + 5 + skip) ==
            prefix + Layout([Loop(fs)] + Fuse(rest, skip), |prefix|, consts)
    decreases |rest| + 1, 1, 0
  {
    hide Layout, MacroInterned, Optimized, Fuse;
    var ms := [Loop(fs)] + rest;
    assert ms[0] == Loop(fs) && ms[1..] == rest;
    FusedInterned(fs, rest, consts);
    PastHead(prefix, ms, skip, consts);
  }

  /** The whole pass: the code of ms becomes the code of Fuse(ms, 0), a regrouping of the same filters. */
  lemma OptimizerFuses(ms: seq<Macro>, consts: seq<Const>)
    requires MacrosInterned(ms, consts) && LoopsNonempty(ms)
    ensures MacrosInterned(Fuse(ms, 0), consts) && LoopsNonempty(Fuse(ms, 0))
    ensures Optimized(Layout(ms, 0, consts), 0) == Layout(Fuse(ms, 0), 0, consts)
    ensures Split(Fuse(ms, 0)) == Split(ms)
  {
    hide Layout, MacroInterned, Optimized, Fuse;
    OptimizedOnLayout([], ms, 0, consts);
    assert [] + Layout(ms, 0, consts) == Layout(ms, 0, consts);
    assert [] + Layout(Fuse(ms, 0), 0, consts) == Layout(Fuse(ms, 0), 0, consts);
    FuseKeepsSplit(ms, 0);
  }
}
