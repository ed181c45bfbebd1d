/**
 * Saving the answer of a query. Queries make no goroutines of their own, so an
 * answer over loaded dumps can be saved and loaded again without a change.
 */
module SavedQueries {
  import opened Goroutines
  import opened Predicates
  import opened Machine
  import opened Pipelines
  import opened Graphs
  import opened SetOps
  import opened GraphQueries
  import opened Syntax
  import opened Meaning
  import opened Loading

  ghost predicate All(gs: seq<Goroutine>, good: Goroutine -> bool) {
    forall g | g in gs :: good(g)
  }

  /** Every goroutine of the value is good. */
  ghost predicate AllOf(v: AValue, good: Goroutine -> bool) {
    match v
    case VDump(gs) => All(gs, good)
    case VDiff(l, c, r) => All(l, good) && All(c, good) && All(r, good)
    case _ => true
  }

  ghost predicate AllInEnv(env: AEnv, good: Goroutine -> bool) {
    forall x | x in env :: AllOf(env[x], good)
  }

  ghost predicate AllInFiles(w: World, good: Goroutine -> bool) {
    forall path: string | w.load(path).Some? :: All(w.load(path).value, good)
  }

  // ----- graph answers with goroutines of the dump and the selection -----

  lemma {:induction false} AscendGood(src: seq<Goroutine>, g: Goroutine, result: seq<Goroutine>,
                                      good: Goroutine -> bool)
    requires All(src, good) && All(result, good)
    ensures All(Ascend(src, g, result), good)
    decreases Missing(src, result)
  {
    hide Missing, Has;
    var parent := ById(src, g.createdBy);
    if parent.Some? && !Has(result, parent.value) {
      ParentMissing(src, result, parent.value);
      AscendGood(src, parent.value, result + [parent.value], good);
    }
  }

  lemma ParentMissing(src: seq<Goroutine>, result: seq<Goroutine>, g: Goroutine)
    requires g in src && !Has(result, g)
    ensures Missing(src, result + [g]) < Missing(src, result)
  {
    MissingShrinks(src, result, [g]);
  }

  lemma {:induction false} DescendGood(src: seq<Goroutine>, queue: seq<Goroutine>, result: seq<Goroutine>,
                                       good: Goroutine -> bool)
    requires All(src, good) && All(result, good)
    ensures All(Descend(src, queue, result), good)
    decreases Missing(src, result), |queue|
  {
    hide Missing, Has, NewChildren;
    if queue != [] {
      var added := NewChildren(src, queue[0], result);
      MissingShrinks(src, result, added);
      assert added != [] ==> added[0] in src && added[0] in added && !Has(result, added[0]);
      assert added == [] ==> result + added == result;
      DescendGood(src, queue[1..] + added, result + added, good);
    }
  }

  lemma {:induction false} RoundsGood(src: seq<Goroutine>, selected: seq<Goroutine>, result: seq<Goroutine>,
                                      good: Goroutine -> bool)
    requires All(src, good) && All(selected, good) && All(result, good)
    ensures All(Rounds(src, selected, result), good)
    decreases |selected|
  {
    hide Ascend, Descend, Has;
    if selected != [] {
      var g := selected[0];
      assert g in selected && forall x | x in selected[1..] :: x in selected;
      var start := if Has(result, g) then result else result + [g];
      AscendGood(src, g, start, good);
      DescendGood(src, [g], Ascend(src, g, start), good);
      RoundsGood(src, selected[1..], Round(src, g, result), good);
    }
  }

  // ----- every query -----

  lemma SetGood(w: World, fn: FnName, left: AValue, right: AValue, good: Goroutine -> bool)
    requires SortsById(w.sort) && AllOf(left, good) && AllOf(right, good)
    ensures DenoteSet(w, fn, left, right).Ok? ==> AllOf(DenoteSet(w, fn, left, right).value, good)
  {
    hide Shared, Unshared, SortsById, Has;
    if left.VDump? && right.VDump? {
      var l, r := left.dump, right.dump;
      forall g ensures (g in Shared(l, r) ==> g in l) && (g in Unshared(l, r) ==> g in l)
                    && (g in Shared(r, l) ==> g in r) && (g in Unshared(r, l) ==> g in r) {
        SharedMembers(l, r, g);
        SharedMembers(r, l, g);
      }
      SortedCopy(w.sort, r + l);
    }
  }

  lemma FilterGood(w: World, fn: FnName, p: Expr, v: AValue, room: int, good: Goroutine -> bool)
    requires SortsById(w.sort) && AllOf(v, good)
    ensures DenoteFilter(w, fn, p, v, room).Ok? ==> AllOf(DenoteFilter(w, fn, p, v, room).value, good)
  {
    hide Select, Rounds, SortsById, Eval;
    if DenoteFilter(w, fn, p, v, room).Ok? {
      if fn.FnGraph? {
        SelectedExactly(w, p, true, v.dump, room - 2);
        var selected := Select(w, p, true, v.dump, room - 2).value;
        RoundsGood(v.dump, selected, [], good);
        SortedCopy(w.sort, InGraph(v.dump, selected));
      } else {
        SelectedExactly(w, p, !fn.FnDelete?, v.dump, room - 1);
      }
    }
  }

  /** What holds of every goroutine in the variables and the files holds of every goroutine in an answer. */
  lemma {:induction false} AnswersGood(w: World, d: Dumps, env: AEnv, room: int, good: Goroutine -> bool)
    requires SortsById(w.sort) && AllInEnv(env, good) && AllInFiles(w, good)
    ensures Denote(w, d, env, room).Ok? ==> AllOf(Denote(w, d, env, room).value, good)
    decreases d
  {
    hide AllOf, DenoteFilter, DenoteSet, SortsById, All;
    match d
    case Filtered(r, _, fn, p) =>
      AnswersGood(w, r, env, room, good);
      if Denote(w, r, env, room).Ok? {
        FilterGood(w, fn, p, Denote(w, r, env, room).value, room, good);
      }
    case Combined(r, _, fn, a) =>
      AnswersGood(w, r, env, room, good);
      AnswersGood(w, a, env, room - 1, good);
      if Denote(w, r, env, room).Ok? && Denote(w, a, env, room - 1).Ok? {
        SetGood(w, fn, Denote(w, r, env, room).value, Denote(w, a, env, room - 1).value, good);
      }
    case Var(name) =>
    case File(path) =>
      if w.load(path).Some? {
        DumpGood(w.load(path).value, good);
      }
  }

  lemma DumpGood(gs: seq<Goroutine>, good: Goroutine -> bool)
    requires All(gs, good)
    ensures AllOf(VDump(gs), good)
  {
  }

  /**
   * Main result: if the variables and the files hold goroutines read from dump
   * texts, the answer of any query is the same after saving and loading.
   */
  lemma SavedAnswerLoads(w: World, p: Patterns, d: Dumps, env: AEnv, room: int)
    requires SortsById(w.sort) && p.header("").None?
    requires AllInEnv(env, g => FromText(p, g)) && AllInFiles(w, g => FromText(p, g))
    requires Denote(w, d, env, room).Ok? && Denote(w, d, env, room).value.VDump?
    ensures var gs := Denote(w, d, env, room).value.dump; Load(p, Save(gs)) == Loaded(gs)
  {
    hide Denote, Load, Save, FromText;
    AnswersGood(w, d, env, room, g => FromText(p, g));
    SavedLoads(p, Denote(w, d, env, room).value.dump);
  }
}
