/** Union, intersect and diff of dumps (internal/vm.go), and what they conserve. */
module SetOps {
  import opened Goroutines
  import opened Graphs

  // ----- the loops of the source -----

  lemma SharedStep(gs: seq<Goroutine>, i: nat, other: seq<Goroutine>)
    requires i < |gs|
    ensures Shared(gs[i..], other) == (if Has(other, gs[i]) then [gs[i]] else []) + Shared(gs[i + 1..], other)
    ensures Unshared(gs[i..], other) == (if Has(other, gs[i]) then [] else [gs[i]]) + Unshared(gs[i + 1..], other)
  {
    hide Has;
    assert gs[i..][1..] == gs[i + 1..];
  }

  lemma NoneShared(other: seq<Goroutine>)
    ensures Shared([], other) == [] && Unshared([], other) == []
  {
  }

  method IntersectLoop(top: seq<Goroutine>, below: seq<Goroutine>) returns (r: seq<Goroutine>)
    ensures r == Shared(top, below)
  {
    hide Has, Shared;
    r := [];
    NoneShared(below);
    assert top[0..] == top && top[|top|..] == [];
    for i := 0 to |top|
      invariant Shared(top, below) == r + Shared(top[i..], below)
    {
      SharedStep(top, i, below);
      var present := HasGoroutine(below, top[i]);
      if present {
        r := r + [top[i]];
      }
    }
  }

  /** One of the two loops of diff: the goroutines of gs go to common or to only. */
  method DiffLoop(gs: seq<Goroutine>, other: seq<Goroutine>, common0: seq<Goroutine>)
    returns (only: seq<Goroutine>, common: seq<Goroutine>)
    ensures only == Unshared(gs, other) && common == common0 + Shared(gs, other)
  {
    hide Has, Shared, Unshared;
    only, common := [], common0;
    NoneShared(other);
    assert gs[0..] == gs && gs[|gs|..] == [];
    for i := 0 to |gs|
      invariant Unshared(gs, other) == only + Unshared(gs[i..], other)
      invariant common0 + Shared(gs, other) == common + Shared(gs[i..], other)
    {
      SharedStep(gs, i, other);
      var present := HasGoroutine(other, gs[i]);
      if present {
        common := common + [gs[i]];
      } else {
        only := only + [gs[i]];
      }
    }
  }

  // ----- conservation -----

  lemma {:induction false} SharedMultiset(gs: seq<Goroutine>, other: seq<Goroutine>)
    ensures multiset(Shared(gs, other)) + multiset(Unshared(gs, other)) == multiset(gs)
  {
    if gs != [] {
      SharedMultiset(gs[1..], other);
      assert gs == [gs[0]] + gs[1..];
    }
  }

  /** Membership in the two parts, by goroutine. */
  lemma {:induction false} SharedMembers(gs: seq<Goroutine>, other: seq<Goroutine>, g: Goroutine)
    ensures g in Shared(gs, other) <==> g in gs && Has(other, g)
    ensures g in Unshared(gs, other) <==> g in gs && !Has(other, g)
    ensures g in Shared(gs, other) <==> g in gs && (g.id, g.hash) in Keys(other)
    ensures g in Unshared(gs, other) <==> g in gs && (g.id, g.hash) !in Keys(other)
  {
    hide Has, Keys;
    HasKey(other, g);
    if gs != [] {
      SharedMembers(gs[1..], other, g);
      assert gs == [gs[0]] + gs[1..];
    }
  }

  /** The parts are the goroutines whose key is among the other dump's or not, in order. */
  lemma {:induction false} PartsAre(gs: seq<Goroutine>, other: seq<Goroutine>)
    ensures Shared(gs, other) == Kept(gs, (g: Goroutine) => (g.id, g.hash) in Keys(other), true)
    ensures Unshared(gs, other) == Kept(gs, (g: Goroutine) => (g.id, g.hash) in Keys(other), false)
  {
    hide Has, Keys;
    if gs != [] {
      HasKey(other, gs[0]);
      PartsAre(gs[1..], other);
      assert [] + Shared(gs[1..], other) == Shared(gs[1..], other);
      assert [] + Unshared(gs[1..], other) == Unshared(gs[1..], other);
    }
  }

  /** The keys of the parts are the intersection and the differences of the keys. */
  lemma PartKeys(a: seq<Goroutine>, b: seq<Goroutine>)
    ensures Keys(Shared(a, b)) == Keys(a) * Keys(b)
    ensures Keys(Unshared(a, b)) == Keys(a) - Keys(b)
    ensures Keys(Shared(a, b) + Shared(b, a)) == Keys(a) * Keys(b)
  {
    KeysOfParts(a, b);
    KeysOfParts(b, a);
    assert Keys(Shared(a, b) + Shared(b, a)) == Keys(Shared(a, b)) + Keys(Shared(b, a));
  }

  lemma KeysOfParts(a: seq<Goroutine>, b: seq<Goroutine>)
    ensures Keys(Shared(a, b)) == Keys(a) * Keys(b)
    ensures Keys(Unshared(a, b)) == Keys(a) - Keys(b)
  {
    hide Has, Shared, Unshared;
    forall g ensures (g in Shared(a, b) <==> g in a && (g.id, g.hash) in Keys(b))
                  && (g in Unshared(a, b) <==> g in a && (g.id, g.hash) !in Keys(b)) {
      SharedMembers(a, b, g);
    }
  }

  lemma HasMember(gs: seq<Goroutine>, p: Goroutine)
    ensures Has(gs, p) <==> exists g :: g in gs && SameKey(g, p)
  {
    if Has(gs, p) {
      var i :| 0 <= i < |gs| && SameKey(gs[i], p);
      assert gs[i] in gs;
    }
  }

  /** The key of a goroutine is in one of the parts exactly if it should be. */
  lemma SharedKeys(gs: seq<Goroutine>, other: seq<Goroutine>, p: Goroutine)
    ensures Has(Shared(gs, other), p) <==> Has(gs, p) && Has(other, p)
    ensures Has(Unshared(gs, other), p) <==> Has(gs, p) && !Has(other, p)
  {
    HasMember(gs, p);
    HasMember(Shared(gs, other), p);
    HasMember(Unshared(gs, other), p);
    forall g | SameKey(g, p) ensures (g in Shared(gs, other) <==> g in gs && Has(other, p))
                                  && (g in Unshared(gs, other) <==> g in gs && !Has(other, p)) {
      SharedMembers(gs, other, g);
      SameKeyHas(other, g, p);
    }
  }

  lemma SameKeyHas(gs: seq<Goroutine>, a: Goroutine, b: Goroutine)
    requires SameKey(a, b)
    ensures Has(gs, a) == Has(gs, b)
  {
    if Has(gs, a) {
      var i :| 0 <= i < |gs| && SameKey(gs[i], a);
      assert SameKey(gs[i], b);
    }
    if Has(gs, b) {
      var i :| 0 <= i < |gs| && SameKey(gs[i], b);
      assert SameKey(gs[i], a);
    }
  }

  /**
   * Diff conserves goroutines: the three parts together are both inputs, each
   * side contributing its own copies to the common part; a key is in left,
   * right or common exactly if it is in the first input only, the second only,
   * or both.
   */
  lemma DiffConserves(l: seq<Goroutine>, r: seq<Goroutine>)
    ensures var left, right, common := Unshared(l, r), Unshared(r, l), Shared(l, r) + Shared(r, l);
            && multiset(left) + multiset(common) + multiset(right) == multiset(l) + multiset(r)
            && (forall p :: Has(left, p) <==> Has(l, p) && !Has(r, p))
            && (forall p :: Has(right, p) <==> Has(r, p) && !Has(l, p))
            && (forall p :: Has(common, p) <==> Has(l, p) && Has(r, p))
  {
    SharedMultiset(l, r);
    SharedMultiset(r, l);
    forall p ensures (Has(Unshared(l, r), p) <==> Has(l, p) && !Has(r, p))
                  && (Has(Unshared(r, l), p) <==> Has(r, p) && !Has(l, p))
                  && (Has(Shared(l, r) + Shared(r, l), p) <==> Has(l, p) && Has(r, p)) {
      SharedKeys(l, r, p);
      SharedKeys(r, l, p);
      HasGrows(Shared(l, r), Shared(r, l), p);
    }
  }

  /** Intersect has the same keys in either argument order, though the goroutines are those of the first. */
  lemma IntersectKeysCommute(a: seq<Goroutine>, b: seq<Goroutine>)
    ensures forall p :: Has(Shared(a, b), p) <==> Has(Shared(b, a), p)
    ensures forall g | g in Shared(a, b) :: g in a
  {
    forall p ensures Has(Shared(a, b), p) <==> Has(Shared(b, a), p) {
      SharedKeys(a, b, p);
      SharedKeys(b, a, p);
    }
    forall g | g in Shared(a, b) ensures g in a {
      SharedMembers(a, b, g);
    }
  }

  // ----- sorting -----

  predicate SortedById(gs: seq<Goroutine>) {
    forall i, j | 0 <= i < j < |gs| :: gs[i].id <= gs[j].id
  }

  /** What the source relies on from sort.Slice: the result is in ID order and a permutation. */
  ghost predicate SortsById(sort: seq<Goroutine> -> seq<Goroutine>) {
    forall gs :: SortedById(sort(gs)) && multiset(sort(gs)) == multiset(gs)
  }

  function Insert(gs: seq<Goroutine>, g: Goroutine): seq<Goroutine> {
    if gs == [] || g.id <= gs[0].id then [g] + gs else [gs[0]] + Insert(gs[1..], g)
  }

  function InsertionSort(gs: seq<Goroutine>): seq<Goroutine> {
    if gs == [] then [] else Insert(InsertionSort(gs[1..]), gs[0])
  }

  lemma ConsSorted(g: Goroutine, gs: seq<Goroutine>)
    requires SortedById(gs) && forall x | x in multiset(gs) :: g.id <= x.id
    ensures SortedById([g] + gs)
  {
    forall i | 0 <= i < |gs| ensures g.id <= gs[i].id {
      assert gs[i] in multiset(gs);
    }
  }

  lemma SortedCons(g: Goroutine, gs: seq<Goroutine>)
    requires SortedById([g] + gs)
    ensures SortedById(gs) && forall x | x in multiset(gs) :: g.id <= x.id
  {
    var all := [g] + gs;
    assert forall i | 0 <= i < |gs| :: all[i + 1] == gs[i];
    forall x | x in multiset(gs) ensures g.id <= x.id {
      var k :| 0 <= k < |gs| && gs[k] == x;
      assert all[0] == g && all[k + 1] == x;
    }
  }

  lemma {:induction false} InsertAdds(gs: seq<Goroutine>, g: Goroutine)
    ensures multiset(Insert(gs, g)) == multiset(gs) + multiset{g}
  {
    if gs != [] && g.id > gs[0].id {
      assert gs == [gs[0]] + gs[1..];
      InsertAdds(gs[1..], g);
      assert multiset(Insert(gs, g)) == multiset{gs[0]} + multiset(Insert(gs[1..], g));
    }
  }

  lemma {:induction false} InsertSorts(gs: seq<Goroutine>, g: Goroutine)
    requires SortedById(gs)
    ensures SortedById(Insert(gs, g))
  {
    hide SortedById;
    if gs == [] {
      NoneSorted(g);
      assert [g] + gs == [g];
    } else {
      assert gs == [gs[0]] + gs[1..];
      SortedCons(gs[0], gs[1..]);
      if g.id <= gs[0].id {
        ConsSorted(g, gs);
      } else {
        var rest := Insert(gs[1..], g);
        InsertAdds(gs[1..], g);
        InsertSorts(gs[1..], g);
        ConsSorted(gs[0], rest);
      }
    }
  }

  lemma NoneSorted(g: Goroutine)
    ensures SortedById([]) && SortedById([g])
  {
  }

  lemma {:induction false} InsertionSortSorts(gs: seq<Goroutine>)
    ensures SortedById(InsertionSort(gs)) && multiset(InsertionSort(gs)) == multiset(gs)
  {
    if gs != [] {
      assert gs == [gs[0]] + gs[1..];
      InsertionSortSorts(gs[1..]);
      InsertSorts(InsertionSort(gs[1..]), gs[0]);
      InsertAdds(InsertionSort(gs[1..]), gs[0]);
    }
  }

  /** There is a sort as assumed. */
  lemma SomeSortSorts()
    ensures SortsById(InsertionSort)
  {
    forall gs ensures SortedById(InsertionSort(gs)) && multiset(InsertionSort(gs)) == multiset(gs) {
      InsertionSortSorts(gs);
    }
  }

  /** Union is the ID-sorted multiset sum: nothing is dropped, not even equal goroutines of both sides. */
  lemma UnionIsSum(sort: seq<Goroutine> -> seq<Goroutine>, top: seq<Goroutine>, below: seq<Goroutine>)
    requires SortsById(sort)
    ensures var r := sort(top + below);
            SortedById(r) && multiset(r) == multiset(top) + multiset(below) && |r| == |top| + |below|
  {
    var r := sort(top + below);
    assert multiset(r) == multiset(top + below);
    assert |r| == |multiset(r)| == |multiset(top + below)| == |top + below|;
  }
  // ----- what union does not do -----

  /** No two goroutines have the same ID and trace hash. */
  ghost predicate UniqueKeys(gs: seq<Goroutine>) {
    forall i, j | 0 <= i < j < |gs| :: (gs[i].id, gs[i].hash) != (gs[j].id, gs[j].hash)
  }

  lemma UniqueSnoc(gs: seq<Goroutine>, g: Goroutine)
    ensures Keys(gs + [g]) == Keys(gs) + {(g.id, g.hash)}
    ensures UniqueKeys(gs + [g]) <==> UniqueKeys(gs) && (g.id, g.hash) !in Keys(gs)
  {
    var all := gs + [g];
    assert all[|gs|] == g && forall k | 0 <= k < |gs| :: all[k] == gs[k] && gs[k] in gs;
    if (g.id, g.hash) in Keys(gs) {
      var x :| x in gs && (x.id, x.hash) == (g.id, g.hash);
      var k :| 0 <= k < |gs| && gs[k] == x;
      assert all[k] == x;
    }
  }

  lemma {:induction false} UniqueCount(gs: seq<Goroutine>)
    ensures |Keys(gs)| <= |gs|
    ensures UniqueKeys(gs) <==> |Keys(gs)| == |gs|
    decreases |gs|
  {
    if gs == [] {
      assert Keys(gs) == {};
    } else {
      hide UniqueKeys, Keys;
      var front, last := gs[..|gs| - 1], gs[|gs| - 1];
      assert gs == front + [last];
      UniqueSnoc(front, last);
      UniqueCount(front);
    }
  }

  lemma UniqueConcat(a: seq<Goroutine>, b: seq<Goroutine>)
    ensures UniqueKeys(a + b) <==> UniqueKeys(a) && UniqueKeys(b) && Keys(a) !! Keys(b)
  {
    var all := a + b;
    assert forall i | 0 <= i < |a| :: all[i] == a[i];
    assert forall j | 0 <= j < |b| :: all[|a| + j] == b[j];
    if UniqueKeys(all) {
      forall g, h | g in a && h in b ensures (g.id, g.hash) != (h.id, h.hash) {
        var i :| 0 <= i < |a| && a[i] == g;
        var j :| 0 <= j < |b| && b[j] == h;
        assert all[i] == g && all[|a| + j] == h;
      }
    }
    if UniqueKeys(a) && UniqueKeys(b) && Keys(a) !! Keys(b) {
      forall i, j | 0 <= i < j < |all| ensures (all[i].id, all[i].hash) != (all[j].id, all[j].hash) {
        if i < |a| <= j {
          assert all[i] == a[i] && all[j] == b[j - |a|];
          assert (a[i].id, a[i].hash) in Keys(a) && (b[j - |a|].id, b[j - |a|].hash) in Keys(b);
        } else if |a| <= i {
          assert all[i] == b[i - |a|] && all[j] == b[j - |a|];
        }
      }
    }
  }

  /** The answer of union is free of duplicates if and only if both dumps are, and have no goroutine in common. */
  lemma UnionUnique(sort: seq<Goroutine> -> seq<Goroutine>, top: seq<Goroutine>, below: seq<Goroutine>)
    requires SortsById(sort)
    ensures UniqueKeys(sort(top + below)) <==> UniqueKeys(top) && UniqueKeys(below) && Keys(top) !! Keys(below)
  {
    hide UniqueKeys;
    var all := top + below;
    var r := sort(all);
    UnionIsSum(sort, top, below);
    assert multiset(r) == multiset(all);
    assert forall g :: g in r <==> g in multiset(r);
    assert forall g :: g in all <==> g in multiset(all);
    assert Keys(r) == Keys(all);
    UniqueCount(r);
    UniqueCount(all);
    UniqueConcat(top, below);
  }
}
