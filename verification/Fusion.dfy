/**
 * Loop fusion on macros: regrouping filters into fewer loops keeps the meaning
 * of a program and saves an exactly known number of instructions.
 */
module Fusion {
  import opened Results
  import opened Goroutines
  import opened Predicates
  import opened Codegen
  import opened Machine
  import opened Pipelines

  /** Both succeed with the same value, or both fail; which error surfaces may differ. */
  ghost predicate Same<T(!new)>(a: Result<T>, b: Result<T>) {
    if a.Ok? then a == b else b.Err?
  }

  /** One loop per filter. */
  function Singles(fs: seq<Filter>): seq<Macro> {
    if fs == [] then [] else [Loop([fs[0]])] + Singles(fs[1..])
  }

  function Parts(m: Macro): seq<Macro> {
    if m.Loop? then Singles(m.filters) else [m]
  }

  /** Every loop taken apart into one loop per filter: two programs with the same Split differ only in grouping. */
  function Split(ms: seq<Macro>): seq<Macro> {
    if ms == [] then []
    else Parts(ms[0]) + Split(ms[1..])
  }

  ghost predicate LoopsNonempty(ms: seq<Macro>) {
    forall m | m in ms && m.Loop? :: m.filters != []
  }

  // ----- one boundary -----

  /** Filtering by f and then by rest is filtering by both. */
  lemma {:induction false} SurvivorsCompose(w: World, fs: seq<Filter>, gs: seq<Goroutine>, room: int)
    requires fs != []
    ensures match Survivors(w, fs[..1], gs, room)
            case Err(_) => Survivors(w, fs, gs, room).Err?
            case Ok(r) => Same(Survivors(w, fs, gs, room), Survivors(w, fs[1..], r, room))
  {
    hide Accept;
    if gs != [] && room > 0 {
      var g := gs[0];
      SurvivorsCompose(w, fs, gs[1..], room);
      AcceptOne(w, fs, g, room - 1);
      if Survivors(w, fs[..1], gs, room).Ok? {
        var r := Survivors(w, fs[..1], gs[1..], room).value;
        if Accept(w, fs[0], g, room - 1) == Ok(true) {
          assert ([g] + r)[1..] == r;
        }
      }
    }
  }

  lemma AcceptOne(w: World, fs: seq<Filter>, g: Goroutine, room: int)
    requires fs != []
    ensures AcceptAll(w, fs[..1], g, room) == Accept(w, fs[0], g, room)
    ensures FiltersCost(w, fs[..1], g, room) == FilterCost(w, fs[0], g, room)
  {
    hide Accept, FilterCost;
    assert fs[..1][1..] == [];
    assert AcceptAll(w, [], g, room) == Ok(true) && FiltersCost(w, [], g, room) == 0;
  }

  /**
   * Fusing at the first boundary saves three instructions per survivor of the first filter; LoopCost adds three
   * for the loop itself.
   */
  lemma {:induction false} IterCostCompose(w: World, fs: seq<Filter>, gs: seq<Goroutine>, room: int)
    requires fs != [] && Survivors(w, fs, gs, room).Ok?
    ensures Survivors(w, fs[..1], gs, room).Ok?
    ensures var r := Survivors(w, fs[..1], gs, room).value;
            IterCost(w, fs[..1], gs, room) + IterCost(w, fs[1..], r, room) == IterCost(w, fs, gs, room) + 3 * |r|
  {
    hide Accept, FilterCost;
    SurvivorsCompose(w, fs, gs, room);
    if gs != [] {
      var g := gs[0];
      IterCostCompose(w, fs, gs[1..], room);
      AcceptOne(w, fs, g, room - 1);
      var r := Survivors(w, fs[..1], gs[1..], room).value;
      if Accept(w, fs[0], g, room - 1) == Ok(true) {
        assert ([g] + r)[1..] == r;
      }
    }
  }

  // ----- one loop -----

  /** The state with the dump on top replaced by r. */
  function WithTop(a: AState, r: seq<Goroutine>): AState
    requires a.stack != []
  {
    Replace(a, 1, VDump(r))
  }

  function TopReplaced(a: AState, r: Result<seq<Goroutine>>): Result<AState>
    requires a.stack != []
  {
    match r
    case Err(e) => Err(e)
    case Ok(gs) => Ok(WithTop(a, gs))
  }

  /** What fusing the filters of one loop saves: 3 * (m + 1) at each interior boundary, m being the survivors there. */
  function LoopSaving(w: World, fs: seq<Filter>, gs: seq<Goroutine>, room: int): nat
    decreases |fs|
  {
    if |fs| <= 1 then 0
    else
      match Survivors(w, fs[..1], gs, room)
      case Err(_) => 0
      case Ok(r) => 3 * (|r| + 1) + LoopSaving(w, fs[1..], r, room)
  }

  lemma ExecLoop(w: World, limit: nat, fs: seq<Filter>, a: AState)
    requires a.stack != [] && ATop(a).VDump?
    ensures ExecMacro(w, limit, Loop(fs), a) == TopReplaced(a, Survivors(w, fs, ATop(a).dump, limit - |a.stack|))
    ensures MacroCost(w, limit, Loop(fs), a) == LoopCost(w, fs, ATop(a).dump, limit - |a.stack|)
  {
  }

  lemma {:induction false} SinglesFail(w: World, limit: nat, fs: seq<Filter>, a: AState)
    requires fs != [] && (a.stack == [] || !ATop(a).VDump?)
    ensures Exec(w, limit, Singles(fs), a).Err?
  {
  }

  /** A loop over several filters means the same as one loop per filter, and is cheaper by LoopSaving. */
  lemma {:induction false} SinglesMean(w: World, limit: nat, fs: seq<Filter>, a: AState)
    requires fs != [] && a.stack != [] && ATop(a).VDump?
    ensures Same(ExecMacro(w, limit, Loop(fs), a), Exec(w, limit, Singles(fs), a))
    ensures ExecMacro(w, limit, Loop(fs), a).Ok? ==>
              ExecCost(w, limit, Singles(fs), a) ==
              MacroCost(w, limit, Loop(fs), a) + LoopSaving(w, fs, ATop(a).dump, limit - |a.stack|)
    decreases |fs|
  {
    hide Survivors, IterCost, ExecMacro, MacroCost;
    var gs, room := ATop(a).dump, limit - |a.stack|;
    ExecLoop(w, limit, fs, a);
    ExecLoop(w, limit, [fs[0]], a);
    assert fs[..1] == [fs[0]];
    if |fs| == 1 {
      assert fs == [fs[0]] && Singles(fs[1..]) == [];
      assert Singles(fs) == [Loop(fs)];
      ExecSingle(w, limit, Loop(fs), a);
    } else {
      SurvivorsCompose(w, fs, gs, room);
      ExecCons(w, limit, Loop([fs[0]]), Singles(fs[1..]), a);
      if Survivors(w, [fs[0]], gs, room).Ok? {
        var r := Survivors(w, [fs[0]], gs, room).value;
        var a1 := WithTop(a, r);
        assert WithTop(a1, []).stack == WithTop(a, []).stack;
        ExecLoop(w, limit, fs[1..], a1);
        SinglesMean(w, limit, fs[1..], a1);
        if Survivors(w, fs, gs, room).Ok? {
          assert WithTop(a1, Survivors(w, fs, gs, room).value) == WithTop(a, Survivors(w, fs, gs, room).value);
          IterCostCompose(w, fs, gs, room);
        }
      }
    }
  }

  /** Continue with ms after a first part has ended with r. */
  function ExecThen(w: World, limit: nat, r: Result<AState>, ms: seq<Macro>): Result<AState> {
    match r
    case Err(e) => Err(e)
    case Ok(a) => Exec(w, limit, ms, a)
  }

  function CostThen(w: World, limit: nat, r: Result<AState>, ms: seq<Macro>): nat {
    match r
    case Err(_) => 0
    case Ok(a) => ExecCost(w, limit, ms, a)
  }

  lemma ExecSingle(w: World, limit: nat, m: Macro, a: AState)
    ensures Exec(w, limit, [m], a) == ExecMacro(w, limit, m, a)
    ensures ExecCost(w, limit, [m], a) == MacroCost(w, limit, m, a)
  {
    hide ExecMacro, MacroCost;
    ExecCons(w, limit, m, [], a);
    assert [m] + [] == [m];
  }

  lemma ExecCons(w: World, limit: nat, m: Macro, ms: seq<Macro>, a: AState)
    ensures Exec(w, limit, [m] + ms, a) == ExecThen(w, limit, ExecMacro(w, limit, m, a), ms)
    ensures ExecCost(w, limit, [m] + ms, a) ==
            MacroCost(w, limit, m, a) + CostThen(w, limit, ExecMacro(w, limit, m, a), ms)
  {
    hide ExecMacro, MacroCost;
    assert ([m] + ms)[1..] == ms;
  }

  lemma {:induction false} ExecConcat(w: World, limit: nat, ms: seq<Macro>, ns: seq<Macro>, a: AState)
    ensures Exec(w, limit, ms + ns, a) == ExecThen(w, limit, Exec(w, limit, ms, a), ns)
    ensures ExecCost(w, limit, ms + ns, a) == ExecCost(w, limit, ms, a) + CostThen(w, limit, Exec(w, limit, ms, a), ns)
    decreases |ms|
  {
    hide ExecMacro, MacroCost;
    if ms == [] {
      assert ms + ns == ns;
    } else {
      assert ms == [ms[0]] + ms[1..] && ms + ns == [ms[0]] + (ms[1..] + ns);
      ExecCons(w, limit, ms[0], ms[1..], a);
      ExecCons(w, limit, ms[0], ms[1..] + ns, a);
      if ExecMacro(w, limit, ms[0], a).Ok? {
        ExecConcat(w, limit, ms[1..], ns, ExecMacro(w, limit, ms[0], a).value);
      }
    }
  }

  // ----- whole programs -----

  function MacroSaving(w: World, limit: nat, m: Macro, a: AState): nat {
    if m.Loop? && a.stack != [] && ATop(a).VDump? then LoopSaving(w, m.filters, ATop(a).dump, limit - |a.stack|) else 0
  }

  /** What the loops of a program save over one loop per filter. */
  function Saving(w: World, limit: nat, ms: seq<Macro>, a: AState): nat
    decreases |ms|
  {
    if ms == [] then 0
    else if ExecMacro(w, limit, ms[0], a).Err? then 0
    else MacroSaving(w, limit, ms[0], a) + Saving(w, limit, ms[1..], ExecMacro(w, limit, ms[0], a).value)
  }

  lemma MacroSplit(w: World, limit: nat, m: Macro, a: AState)
    requires m.Loop? ==> m.filters != []
    ensures Same(ExecMacro(w, limit, m, a), Exec(w, limit, Parts(m), a))
    ensures ExecMacro(w, limit, m, a).Ok? ==>
              ExecCost(w, limit, Parts(m), a) == MacroCost(w, limit, m, a) + MacroSaving(w, limit, m, a)
  {
    if !m.Loop? {
      ExecSingle(w, limit, m, a);
    } else if a.stack == [] || !ATop(a).VDump? {
      SinglesFail(w, limit, m.filters, a);
    } else {
      SinglesMean(w, limit, m.filters, a);
    }
  }

  /** Grouping does not matter: a program means the same as its Split, and costs exactly Saving less. */
  lemma {:induction false} SplitMeaning(w: World, limit: nat, ms: seq<Macro>, a: AState)
    requires LoopsNonempty(ms)
    ensures Same(Exec(w, limit, ms, a), Exec(w, limit, Split(ms), a))
    ensures Exec(w, limit, ms, a).Ok? ==>
              ExecCost(w, limit, Split(ms), a) == ExecCost(w, limit, ms, a) + Saving(w, limit, ms, a)
    decreases |ms|
  {
    hide ExecMacro, MacroCost, MacroSaving, Parts;
    if ms != [] {
      hide Exec, ExecCost;
      assert ms == [ms[0]] + ms[1..];
      assert ms[0] in ms && forall m | m in ms[1..] :: m in ms;
      assert Split(ms) == Parts(ms[0]) + Split(ms[1..]);
      MacroSplit(w, limit, ms[0], a);
      ExecConcat(w, limit, Parts(ms[0]), Split(ms[1..]), a);
      ExecCons(w, limit, ms[0], ms[1..], a);
      if ExecMacro(w, limit, ms[0], a).Ok? {
        SplitMeaning(w, limit, ms[1..], ExecMacro(w, limit, ms[0], a).value);
      }
    }
  }
}
