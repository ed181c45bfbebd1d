/**
 * A chain of where and delete calls becomes one loop, whatever its length and
 * its style; two calls of a chain mean one call with both predicates.
 */
module Chains {
  import opened Results
  import opened Goroutines
  import opened Predicates
  import opened Codegen
  import opened Pipelines
  import opened Fusion
  import opened Optimizer
  import opened Syntax
  import opened QueryParsing
  import opened StatementParsing
  import opened Meaning
  import opened EndToEnd

  datatype Link = Link(asMethod: bool, keep: bool, pred: Expr)

  /** base with the calls of a chain, where if keep is set and delete otherwise. */
  function ChainOf(base: Dumps, links: seq<Link>): Dumps
    decreases |links|
  {
    if links == [] then base
    else
      var last := links[|links| - 1];
      Filtered(ChainOf(base, links[..|links| - 1]), last.asMethod, if last.keep then FnWhere else FnDelete, last.pred)
  }

  /** The filters of a chain; the first predicate is in chunk k. */
  function ChainFilters(links: seq<Link>, k: nat): seq<Filter> {
    seq(|links|, i requires 0 <= i < |links| => Filter(k + i, links[i].keep, links[i].pred))
  }

  lemma {:induction false} SinglesSnoc(fs: seq<Filter>, f: Filter)
    ensures Singles(fs + [f]) == Singles(fs) + [Loop([f])]
  {
    if fs == [] {
      assert [f][1..] == [] && Singles([f][1..]) == [];
      assert [] + [f] == [f];
    } else {
      assert (fs + [f])[1..] == fs[1..] + [f];
      SinglesSnoc(fs[1..], f);
    }
  }

  lemma {:induction false} ChainMacros(base: Dumps, links: seq<Link>, k: nat)
    requires base.Var? || base.File?
    ensures MacrosOf(ChainOf(base, links), k) == MacrosOf(base, k) + Singles(ChainFilters(links, k))
    ensures |Preds(ChainOf(base, links))| == |links|
    decreases |links|
  {
    if links != [] {
      var front, last := links[..|links| - 1], links[|links| - 1];
      var f := Filter(k + |front|, last.keep, last.pred);
      ChainMacros(base, front, k);
      assert ChainFilters(links, k) == ChainFilters(front, k) + [f];
      SinglesSnoc(ChainFilters(front, k), f);
    }
  }

  lemma {:induction false} SinglesAt(fs: seq<Filter>)
    ensures |Singles(fs)| == |fs| && forall i | 0 <= i < |fs| :: Singles(fs)[i] == Loop([fs[i]])
  {
    if fs != [] {
      SinglesAt(fs[1..]);
    }
  }

  lemma {:induction false} RunOfLoops(ms: seq<Macro>, tail: seq<Macro>)
    requires tail == [] || !IsSingle(tail[0])
    requires forall i | 0 <= i < |ms| :: IsSingle(ms[i])
    ensures RunOf(ms + tail) == |ms|
  {
    hide IsSingle;
    if ms == [] {
      assert ms + tail == tail;
    } else {
      RunOfLoops(ms[1..], tail);
      assert (ms + tail)[0] == ms[0] && (ms + tail)[1..] == ms[1..] + tail;
    }
  }

  lemma RunFused(fs: seq<Filter>, tail: seq<Macro>)
    requires |fs| >= 2 && |tail| <= 1 && (tail != [] ==> !IsSingle(tail[0]))
    ensures Fuse(Singles(fs) + tail, 0) == [Loop(fs)] + tail
  {
    hide Singles, RunOf;
    var ms := Singles(fs) + tail;
    SinglesAt(fs);
    RunOfLoops(Singles(fs), tail);
    assert FiltersOf(ms[..|fs|]) == fs;
    assert ms[|fs|..] == tail;
    SkippedStays(tail, 5 * |fs| - 4);
  }

  lemma SkippedStays(tail: seq<Macro>, skip: nat)
    requires |tail| <= 1 && skip > 0
    ensures Fuse(tail, skip) == tail
  {
    hide MacroLen;
  }

  /** The pass turns the loops of a chain into one, and leaves what is around them. */
  lemma ChainRunFused(head: Macro, fs: seq<Filter>, tail: seq<Macro>)
    requires |fs| >= 2 && !IsSingle(head) && |tail| <= 1 && (tail != [] ==> !IsSingle(tail[0]))
    ensures Fuse([head] + Singles(fs) + tail, 0) == [head] + [Loop(fs)] + tail
  {
    hide *;
    RunFused(fs, tail);
    HeadStays(head, Singles(fs) + tail);
    Associates([head], Singles(fs), tail);
    Associates([head], [Loop(fs)], tail);
  }

  lemma Associates(a: seq<Macro>, b: seq<Macro>, c: seq<Macro>)
    ensures a + b + c == a + (b + c)
  {
  }

  lemma HeadStays(head: Macro, ms: seq<Macro>)
    requires !IsSingle(head)
    ensures Fuse([head] + ms, 0) == [head] + Fuse(ms, 0)
  {
    hide IsSingle, FiltersOf;
    assert ([head] + ms)[1..] == ms;
    assert RunOf([head] + ms) == 0;
  }

  /**
   * Main result: however long a where/delete chain on a variable or a file is,
   * its optimized main chunk is the load, one loop with all filters in their
   * order, and the assignment.
   */
  lemma ChainFused(base: Dumps, links: seq<Link>, targets: seq<string>)
    requires (base.Var? || base.File?) && |links| >= 2
    ensures var s := Statement(targets, ChainOf(base, links));
            var ms := MacrosOf(base, 1) + [Loop(ChainFilters(links, 1))] + AssignMacros(targets);
            MacrosInterned(ms, CompiledCode(s).consts) &&
            CompiledCode(s).chunks[0] == Layout(ms, 0, CompiledCode(s).consts)
  {
    hide Layout, MacrosInterned, Fuse, Optimized, MacrosOf, ChainOf, AssignMacros, CodeOf, Singles, LoopsNonempty;
    var s := Statement(targets, ChainOf(base, links));
    ChainMacros(base, links, 1);
    AroundChain(base, targets);
    var fs := ChainFilters(links, 1);
    ChainRunFused(MacrosOf(base, 1)[0], fs, AssignMacros(targets));
    SinglesNonempty(MacrosOf(base, 1)[0], fs, AssignMacros(targets));
    CodeChunks(s);
    OptimizerFuses(StatementMacros(s), CodeOf(s).consts);
  }

  lemma SinglesNonempty(head: Macro, fs: seq<Filter>, tail: seq<Macro>)
    requires !head.Loop? && |tail| <= 1 && (tail != [] ==> !tail[0].Loop?)
    ensures LoopsNonempty([head] + Singles(fs) + tail)
  {
    hide Singles;
    SinglesAt(fs);
    var ms := [head] + Singles(fs) + tail;
    forall m | m in ms && m.Loop? ensures m.filters != [] {
      assert m in Singles(fs);
    }
  }

  lemma AroundChain(base: Dumps, targets: seq<string>)
    requires base.Var? || base.File?
    ensures |MacrosOf(base, 1)| == 1 && MacrosOf(base, 1) == [MacrosOf(base, 1)[0]] && !MacrosOf(base, 1)[0].Loop?
    ensures |AssignMacros(targets)| <= 1 && (AssignMacros(targets) != [] ==> !AssignMacros(targets)[0].Loop?)
  {
  }

  // ----- chains and connectives -----

  /** A filter by `p and q` lets through what the filters by p and by q do, with the same errors; so does `p or q`. */
  lemma AcceptBoth(w: World, k: nat, keep: bool, p: Expr, q: Expr, g: Goroutine, room: int)
    ensures Accept(w, Filter(k, keep, Logic(if keep then And else Or, p, q)), g, room) ==
            AcceptAll(w, [Filter(k, keep, p), Filter(k, keep, q)], g, room)
  {
    hide Eval;
    var fs := [Filter(k, keep, p), Filter(k, keep, q)];
    EvalLogic(w, if keep then And else Or, p, q, g, room);
    assert fs[1..] == [fs[1]] && fs[1..][1..] == [];
    assert AcceptAll(w, fs[1..][1..], g, room) == Ok(true);
  }

  lemma EvalLogic(w: World, op: Connective, p: Expr, q: Expr, g: Goroutine, room: int)
    ensures Eval(w, Logic(op, p, q), g, room) ==
            match Eval(w, p, g, room)
            case Err(err) => Err(err)
            case Ok(SBool(b)) => if b == op.And? then Eval(w, q, g, room) else Ok(SBool(b))
            case Ok(_) => Err(InvalidType)
  {
  }

  lemma {:induction false} SurvivorsBoth(w: World, k: nat, keep: bool, p: Expr, q: Expr, gs: seq<Goroutine>, room: int)
    ensures Survivors(w, [Filter(k, keep, Logic(if keep then And else Or, p, q))], gs, room) ==
            Survivors(w, [Filter(k, keep, p), Filter(k, keep, q)], gs, room)
  {
    hide Eval, Accept;
    if gs != [] && room > 0 {
      var f := Filter(k, keep, Logic(if keep then And else Or, p, q));
      AcceptBoth(w, k, keep, p, q, gs[0], room - 1);
      assert [f][1..] == [] && AcceptAll(w, [f][1..], gs[0], room - 1) == Ok(true);
      SurvivorsBoth(w, k, keep, p, q, gs[1..], room);
    }
  }

  /** One call with both predicates means the same as a chain of two calls, up to which error surfaces. */
  lemma CallsJoin(w: World, d: Dumps, m: bool, m1: bool, m2: bool, keep: bool, p: Expr, q: Expr, env: AEnv, room: int)
    ensures var fn := if keep then FnWhere else FnDelete;
            Same(
              Denote(w, Filtered(d, m, fn, Logic(if keep then And else Or, p, q)), env, room),
              Denote(w, Filtered(Filtered(d, m1, fn, p), m2, fn, q), env, room))
  {
    hide Select, Survivors, Eval;
    var fn := if keep then FnWhere else FnDelete;
    var v := Denote(w, d, env, room);
    if v.Ok? && v.value.VDump? {
      var gs := v.value.dump;
      var f1, f2 := Filter(0, keep, p), Filter(0, keep, q);
      SurvivorsBoth(w, 0, keep, p, q, gs, room - 1);
      SelectIsSurvivors(w, Filter(0, keep, Logic(if keep then And else Or, p, q)), gs, room - 1);
      SelectIsSurvivors(w, f1, gs, room - 1);
      SurvivorsCompose(w, [f1, f2], gs, room - 1);
      assert [f1, f2][..1] == [f1] && [f1, f2][1..] == [f2];
      var first := Select(w, p, keep, gs, room - 1);
      if first.Ok? {
        SelectIsSurvivors(w, f2, first.value, room - 1);
      }
    }
  }

  /** where(p and q) is where(p) | where(q), and delete(p or q) is delete(p) | delete(q), in any style. */
  lemma WhereAnd(w: World, d: Dumps, m: bool, m1: bool, m2: bool, p: Expr, q: Expr, env: AEnv, room: int)
    ensures Same(
              Denote(w, Filtered(d, m, FnWhere, Logic(And, p, q)), env, room),
              Denote(w, Filtered(Filtered(d, m1, FnWhere, p), m2, FnWhere, q), env, room))
    ensures Same(
              Denote(w, Filtered(d, m, FnDelete, Logic(Or, p, q)), env, room),
              Denote(w, Filtered(Filtered(d, m1, FnDelete, p), m2, FnDelete, q), env, room))
  {
    hide Denote;
    CallsJoin(w, d, m, m1, m2, true, p, q, env, room);
    CallsJoin(w, d, m, m1, m2, false, p, q, env, room);
  }
}
