/** What a graph query answers: the closure of the goroutines its predicate selects, in ID order. */
module GraphQueries {
  import opened Results
  import opened Goroutines
  import opened Predicates
  import opened Machine
  import opened Graphs
  import opened SetOps
  import opened GraphClosure
  import opened Syntax
  import opened Meaning

  /** Select keeps goroutines of gs for which p has the value wanted, all of them, and in order. */
  lemma {:induction false} SelectedExactly(w: World, p: Expr, wanted: bool, gs: seq<Goroutine>, room: int)
    requires Select(w, p, wanted, gs, room).Ok?
    ensures var r := Select(w, p, wanted, gs, room).value;
            && (forall g :: g in r <==> g in gs && Eval(w, p, g, room - 1) == Ok(SBool(wanted)))
            && (SortedById(gs) ==> SortedById(r))
    decreases |gs|
  {
    hide Eval, SortedById;
    if gs == [] {
      EmptySorted();
    } else {
      var rest := Select(w, p, wanted, gs[1..], room).value;
      SelectedExactly(w, p, wanted, gs[1..], room);
      assert forall g :: g in gs <==> g == gs[0] || g in gs[1..];
      TailSorted(gs);
      if SortedById(gs) {
        InFrontSorted(gs, rest);
      }
    }
  }

  lemma EmptySorted()
    ensures SortedById([])
  {
  }

  lemma TailSorted(gs: seq<Goroutine>)
    requires gs != []
    ensures SortedById(gs) ==> SortedById(gs[1..])
  {
  }

  lemma InFrontSorted(gs: seq<Goroutine>, rest: seq<Goroutine>)
    requires gs != [] && SortedById(gs) && SortedById(rest) && forall g | g in rest :: g in gs[1..]
    ensures SortedById([gs[0]] + rest)
  {
    forall i | 0 <= i < |rest| ensures gs[0].id <= rest[i].id {
      assert rest[i] in gs[1..];
    }
  }

  /** A sorted copy has the same members and the same length. */
  lemma SortedCopy(sort: seq<Goroutine> -> seq<Goroutine>, gs: seq<Goroutine>)
    requires SortsById(sort)
    ensures SortedById(sort(gs)) && forall g :: g in sort(gs) <==> g in gs
    ensures |sort(gs)| == |gs|
  {
    assert multiset(sort(gs)) == multiset(gs);
    forall g ensures g in sort(gs) <==> g in gs {
      assert g in multiset(sort(gs)) <==> g in multiset(gs);
    }
    assert |sort(gs)| == |multiset(sort(gs))| == |multiset(gs)| == |gs|;
  }

  /** In a sequence without duplicates everything occurs once. */
  lemma {:induction false} OccursOnce(gs: seq<Goroutine>, g: Goroutine)
    requires forall i, j | 0 <= i < j < |gs| :: gs[i] != gs[j]
    ensures multiset(gs)[g] <= 1
    decreases |gs|
  {
    if gs != [] {
      assert gs == [gs[0]] + gs[1..];
      var rest := gs[1..];
      OccursOnce(rest, g);
      forall k | 0 <= k < |rest| ensures rest[k] != gs[0] {
        assert rest[k] == gs[k + 1];
      }
    }
  }

  lemma OccursTwice(gs: seq<Goroutine>, i: nat, j: nat)
    requires i < j < |gs| && gs[i] == gs[j]
    ensures multiset(gs)[gs[i]] >= 2
  {
    assert gs == gs[..j] + [gs[j]] + gs[j + 1..];
    assert gs[..j][i] == gs[i];
  }

  /** The sorted copy of goroutines without duplicates, from a dump with unique IDs, has unique IDs. */
  lemma SortedUnique(sort: seq<Goroutine> -> seq<Goroutine>, src: seq<Goroutine>, gs: seq<Goroutine>)
    requires SortsById(sort) && UniqueIds(src) && Members(src, gs)
    ensures UniqueIds(sort(gs))
  {
    hide UniqueIds;
    var r := sort(gs);
    assert multiset(r) == multiset(gs);
    SortedCopy(sort, gs);
    forall i, j | 0 <= i < j < |r| ensures r[i].id != r[j].id {
      if r[i].id == r[j].id {
        assert r[i] in r && r[j] in r;
        SameIdSame(src, r[i], r[j]);
        OccursTwice(r, i, j);
        OccursOnce(gs, r[i]);
      }
    }
    assert UniqueIds(r) by { UniqueIdsIs(r); }
  }

  lemma UniqueIdsIs(gs: seq<Goroutine>)
    requires forall i, j | 0 <= i < j < |gs| :: gs[i].id != gs[j].id
    ensures UniqueIds(gs)
  {
  }

  /**
   * graph(p) on a dump with unique IDs answers with an ID-sorted dump without
   * duplicates that contains the parent of each of its goroutines, and exactly
   * the closure of the goroutines for which p is true.
   */
  lemma GraphAnswers(w: World, p: Expr, src: seq<Goroutine>, room: int)
    requires SortsById(w.sort) && UniqueIds(src)
    requires DenoteFilter(w, FnGraph, p, VDump(src), room).Ok?
    ensures var selected := Select(w, p, true, src, room - 2);
            var v := DenoteFilter(w, FnGraph, p, VDump(src), room).value;
            && selected.Ok? && v.VDump? && SortedById(v.dump) && UniqueIds(v.dump)
            && (forall g :: g in selected.value <==> g in src && Eval(w, p, g, room - 3) == Ok(SBool(true)))
            && (forall y :: y in v.dump <==> y in src && InClosure(src, selected.value, y))
            && (forall y | y in v.dump && ById(src, y.createdBy).Some? :: ById(src, y.createdBy).value in v.dump)
  {
    hide Select, Eval, InGraph, InClosure;
    var selected := Select(w, p, true, src, room - 2).value;
    SelectedExactly(w, p, true, src, room - 2);
    GraphExactly(src, selected);
    SortedCopy(w.sort, InGraph(src, selected));
    SortedUnique(w.sort, src, InGraph(src, selected));
  }

  /**
   * graph(p) answers with exactly the goroutines for which p is true, their
   * ancestors and their descendants, in whatever order the dump is, if and only
   * if no goroutine is missed.
   */
  lemma GraphAnswersFully(w: World, p: Expr, src: seq<Goroutine>, room: int)
    requires SortsById(w.sort) && UniqueIds(src)
    requires DenoteFilter(w, FnGraph, p, VDump(src), room).Ok?
    ensures var selected := Select(w, p, true, src, room - 2);
            var v := DenoteFilter(w, FnGraph, p, VDump(src), room).value;
            && selected.Ok? && v.VDump?
            && ((forall y | y in src :: y in v.dump <==> Related(src, selected.value, y)) <==>
                (forall y | y in src :: !Missed(src, selected.value, y)))
  {
    hide Select, Eval, InGraph, Related, Missed;
    var selected := Select(w, p, true, src, room - 2).value;
    SelectedExactly(w, p, true, src, room - 2);
    GraphFull(src, selected);
    SortedCopy(w.sort, InGraph(src, selected));
  }

  /** If the dump is in ID order and parents have smaller IDs, nothing is missed. */
  lemma GraphInIdOrder(w: World, p: Expr, src: seq<Goroutine>, room: int)
    requires SortedById(src) && forall x | x in src :: x.createdBy < x.id
    requires DenoteFilter(w, FnGraph, p, VDump(src), room).Ok?
    ensures var selected := Select(w, p, true, src, room - 2);
            selected.Ok? && forall y | y in src :: !Missed(src, selected.value, y)
  {
    hide Select, Eval, InGraph, Missed, AncestorsFirst;
    var selected := Select(w, p, true, src, room - 2).value;
    SelectedExactly(w, p, true, src, room - 2);
    IdOrderIsEnough(src, selected);
    AncestorsFirstIsEnough(src, selected);
  }
}
