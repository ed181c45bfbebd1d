/**
 * The stack bound of programs, typed or not: a check of stack heights alone,
 * which the code of every statement passes within the slots it needs, and
 * which rules out a full stack.
 */
module StackBound {
  import opened Results
  import opened Goroutines
  import opened Predicates
  import opened Codegen
  import opened Pipelines
  import opened Fusion
  import opened Syntax
  import opened QueryParsing
  import opened StatementParsing
  import opened Meaning

  /** A loop over a dump at this height stays within need slots. */
  ghost predicate FiltersFit(fs: seq<Filter>, height: nat, need: nat) {
    height < need && forall f | f in fs :: height + 1 + Depth(f.pred) <= need
  }

  /** The height of the stack after a macro that does not fail, or None if it may take more than need slots. */
  ghost function HeightAfter(m: Macro, height: nat, need: nat): Option<nat> {
    if m.Loop? then if FiltersFit(m.filters, height, need) then Some(height) else None
    else if m.Load? || m.LoadFile? || m.DupTop? then if height < need then Some(height + 1) else None
    else if m.Assign? || m.AssignMany? || height == 0 then Some(height)
    else Some(height - 1)
  }

  ghost function Height(ms: seq<Macro>, height: nat, need: nat): Option<nat> {
    if ms == [] then Some(height)
    else
      match HeightAfter(ms[0], height, need)
      case None => None
      case Some(h) => Height(ms[1..], h, need)
  }

  // ----- no full stack -----

  lemma {:induction false} AcceptAllFits(w: World, fs: seq<Filter>, g: Goroutine, height: nat, need: nat, limit: nat)
    requires FiltersFit(fs, height, need) && need <= limit
    ensures AcceptAll(w, fs, g, limit - height - 1) != Err(StackOverflow)
    decreases |fs|
  {
    hide Eval, Depth;
    if fs != [] {
      assert fs[0] in fs && forall f | f in fs[1..] :: f in fs;
      EnoughRoom(w, fs[0].pred, g, limit - height - 1, limit - height - 1);
      AcceptAllFits(w, fs[1..], g, height, need, limit);
    }
  }

  lemma {:induction false} SurvivorsFit(w: World, fs: seq<Filter>, gs: seq<Goroutine>, height: nat, need: nat,
                                        limit: nat)
    requires FiltersFit(fs, height, need) && need <= limit
    ensures Survivors(w, fs, gs, limit - height) != Err(StackOverflow)
    decreases |gs|
  {
    hide AcceptAll;
    if gs != [] {
      AcceptAllFits(w, fs, gs[0], height, need, limit);
      SurvivorsFit(w, fs, gs[1..], height, need, limit);
    }
  }

  lemma MacroFits(w: World, limit: nat, m: Macro, a: AState, need: nat)
    requires need <= limit && HeightAfter(m, |a.stack|, need).Some?
    ensures match ExecMacro(w, limit, m, a)
            case Ok(a1) => |a1.stack| == HeightAfter(m, |a.stack|, need).value
            case Err(e) => !e.StackOverflow?
  {
    hide Survivors, ExecSet, FiltersFit;
    if m.Loop? && a.stack != [] && ATop(a).VDump? {
      SurvivorsFit(w, m.filters, ATop(a).dump, |a.stack|, need, limit);
    }
  }

  /** A program that passes the check never finds the stack full. */
  lemma {:induction false} HeightSafe(w: World, limit: nat, ms: seq<Macro>, a: AState, need: nat)
    requires need <= limit && Height(ms, |a.stack|, need).Some?
    ensures Exec(w, limit, ms, a) != Err(StackOverflow)
    decreases |ms|
  {
    hide ExecMacro, HeightAfter;
    if ms != [] {
      MacroFits(w, limit, ms[0], a, need);
      if ExecMacro(w, limit, ms[0], a).Ok? {
        HeightSafe(w, limit, ms[1..], ExecMacro(w, limit, ms[0], a).value, need);
      }
    }
  }

  // ----- grouping does not matter -----

  ghost function HeightThen(h: Option<nat>, ms: seq<Macro>, need: nat): Option<nat> {
    if h.None? then None else Height(ms, h.value, need)
  }

  lemma {:induction false} HeightConcat(ms: seq<Macro>, ns: seq<Macro>, height: nat, need: nat)
    ensures Height(ms + ns, height, need) == HeightThen(Height(ms, height, need), ns, need)
    decreases |ms|
  {
    hide HeightAfter;
    if ms == [] {
      assert ms + ns == ns;
    } else {
      assert (ms + ns)[0] == ms[0] && (ms + ns)[1..] == ms[1..] + ns;
      if HeightAfter(ms[0], height, need).Some? {
        HeightConcat(ms[1..], ns, HeightAfter(ms[0], height, need).value, need);
      }
    }
  }

  lemma HeightOne(m: Macro, height: nat, need: nat)
    ensures Height([m], height, need) == HeightAfter(m, height, need)
  {
    hide HeightAfter;
    if HeightAfter(m, height, need).Some? {
      assert Height([m][1..], HeightAfter(m, height, need).value, need) == HeightAfter(m, height, need);
    }
  }

  lemma {:induction false} SinglesHeight(fs: seq<Filter>, height: nat, need: nat)
    requires fs != []
    ensures Height(Singles(fs), height, need) == HeightAfter(Loop(fs), height, need)
    decreases |fs|
  {
    hide Depth;
    var first := Loop([fs[0]]);
    HeightConcat([first], Singles(fs[1..]), height, need);
    HeightOne(first, height, need);
    assert fs == [fs[0]] + fs[1..];
    if fs[1..] == [] {
      assert fs == [fs[0]];
    } else {
      SinglesHeight(fs[1..], height, need);
      assert FiltersFit(fs, height, need) <==> FiltersFit([fs[0]], height, need) && FiltersFit(fs[1..], height, need);
    }
  }

  /** The check does not notice how filters are grouped into loops. */
  lemma {:induction false} SplitHeight(ms: seq<Macro>, height: nat, need: nat)
    requires LoopsNonempty(ms)
    ensures Height(Split(ms), height, need) == Height(ms, height, need)
    decreases |ms|
  {
    hide HeightAfter, Singles;
    if ms != [] {
      assert ms[0] in ms && forall m | m in ms[1..] :: m in ms;
      HeightConcat(Parts(ms[0]), Split(ms[1..]), height, need);
      if ms[0].Loop? {
        SinglesHeight(ms[0].filters, height, need);
      } else {
        HeightOne(ms[0], height, need);
      }
      if HeightAfter(ms[0], height, need).Some? {
        SplitHeight(ms[1..], HeightAfter(ms[0], height, need).value, need);
      }
    }
  }

  // ----- the code of statements -----

  lemma FilterHeight(fn: FnName, k: nat, p: Expr, height: nat, need: nat)
    requires height > 0 && height + Depth(p) + (if fn.FnGraph? then 2 else 1) <= need
    ensures Height(FilterMacros(fn, k, p), height, need) == Some(height)
  {
    hide Depth;
    if fn.FnGraph? {
      var loop := Loop([Filter(k, true, p)]);
      HeightConcat([DupTop], [loop, Graph], height, need);
      HeightConcat([loop], [Graph], height + 1, need);
      HeightOne(DupTop, height, need);
      HeightOne(loop, height + 1, need);
      HeightOne(Graph, height + 1, need);
      assert [DupTop] + [loop, Graph] == [DupTop, loop, Graph] && [loop] + [Graph] == [loop, Graph];
    } else {
      HeightOne(Loop([Filter(k, !fn.FnDelete?, p)]), height, need);
    }
  }

  /** The code of a dump expression pushes one value within the slots the expression needs. */
  lemma {:induction false} DumpsHeight(d: Dumps, k: nat, height: nat, need: nat)
    requires height + Need(d) <= need
    ensures Height(MacrosOf(d, k), height, need) == Some(height + 1)
    decreases d
  {
    hide HeightAfter, FilterMacros, Depth, Height, SetMacro, Preds;
    match d
    case Filtered(r, _, fn, p) =>
      DumpsHeight(r, k, height, need);
      HeightConcat(MacrosOf(r, k), FilterMacros(fn, k + |Preds(r)|, p), height, need);
      FilterHeight(fn, k + |Preds(r)|, p, height + 1, need);
    case Combined(r, _, fn, a) =>
      var ms, ns := MacrosOf(r, k), MacrosOf(a, k + |Preds(r)|);
      DumpsHeight(r, k, height, need);
      DumpsHeight(a, k + |Preds(r)|, height + 1, need);
      HeightConcat(ms + ns, [SetMacro(fn)], height, need);
      HeightConcat(ms, ns, height, need);
      SetHeight(fn, height, need);
    case _ => LoadHeight(d, k, height, need);
  }

  lemma LoadHeight(d: Dumps, k: nat, height: nat, need: nat)
    requires (d.Var? || d.File?) && height < need
    ensures Height(MacrosOf(d, k), height, need) == Some(height + 1)
  {
    HeightOne(MacrosOf(d, k)[0], height, need);
  }

  lemma SetHeight(fn: FnName, height: nat, need: nat)
    ensures Height([SetMacro(fn)], height + 2, need) == Some(height + 1)
  {
    HeightOne(SetMacro(fn), height + 2, need);
  }

  lemma AssignHeight(names: seq<string>, height: nat, need: nat)
    ensures Height(AssignMacros(names), height, need) == Some(height)
  {
    if names != [] {
      HeightOne(AssignMacros(names)[0], height, need);
    }
  }

  lemma StatementHeight(s: Statement)
    ensures Height(StatementMacros(s), 0, Need(s.body)) == Some(1)
  {
    hide Height, Need;
    DumpsHeight(s.body, 1, 0, Need(s.body));
    HeightConcat(MacrosOf(s.body, 1), AssignMacros(s.targets), 0, Need(s.body));
    AssignHeight(s.targets, 1, Need(s.body));
  }

  /**
   * Whatever its types, a statement, its filters grouped in any way, never finds
   * the stack full when the limit is at least its need.
   */
  lemma StatementFits(w: World, limit: nat, s: Statement, ms: seq<Macro>, env: AEnv)
    requires Need(s.body) <= limit && LoopsNonempty(ms) && LoopsNonempty(StatementMacros(s))
    requires Split(ms) == Split(StatementMacros(s))
    ensures Exec(w, limit, ms, AState([], env)) != Err(StackOverflow)
  {
    hide Exec, Split, Height, Need, StatementMacros;
    StatementHeight(s);
    SplitHeight(ms, 0, Need(s.body));
    SplitHeight(StatementMacros(s), 0, Need(s.body));
    HeightSafe(w, limit, ms, AState([], env), Need(s.body));
  }
}
