/**
 * Which error a failing program reports. A fused loop asks all filters about
 * one goroutine before it turns to the next; separate loops ask one filter
 * about all goroutines. The first error on the one path need not be the first
 * on the other.
 */
module ErrorOrder {
  import opened Results
  import opened Goroutines
  import opened Predicates
  import opened Codegen
  import opened Machine
  import opened Pipelines
  import opened Fusion

  // ----- where the two scans fail -----

  /**
   * Goroutine i gets past the filters before k, and filter k fails on it; the goroutine itself takes one slot of
   * room.
   */
  predicate FailsAt(w: World, fs: seq<Filter>, gs: seq<Goroutine>, room: int, i: nat, k: nat) {
    && i < |gs| && k < |fs|
    && (forall j | 0 <= j < k :: Accept(w, fs[j], gs[i], room - 1) == Ok(true))
    && Accept(w, fs[k], gs[i], room - 1).Err?
  }

  /** The failure a scan goroutine by goroutine meets first. */
  ghost predicate FirstByGoroutine(w: World, fs: seq<Filter>, gs: seq<Goroutine>, room: int, i: nat, k: nat) {
    FailsAt(w, fs, gs, room, i, k) && forall i': nat, k': nat | i' < i :: !FailsAt(w, fs, gs, room, i', k')
  }

  /** The failure a scan filter by filter meets first. */
  ghost predicate FirstByFilter(w: World, fs: seq<Filter>, gs: seq<Goroutine>, room: int, i: nat, k: nat) {
    && FailsAt(w, fs, gs, room, i, k)
    && (forall i': nat, k': nat | k' < k :: !FailsAt(w, fs, gs, room, i', k'))
    && (forall i': nat | i' < i :: !FailsAt(w, fs, gs, room, i', k))
  }

  /** The two scans of gs meet the same error first, if any; with no free slot neither gets as far as a filter. */
  ghost predicate ScansAgree(w: World, fs: seq<Filter>, gs: seq<Goroutine>, room: int) {
    room > 0 ==>
      forall i: nat, k: nat, j: nat, l: nat |
        FirstByGoroutine(w, fs, gs, room, i, k) && FirstByFilter(w, fs, gs, room, j, l) ::
        Accept(w, fs[k], gs[i], room - 1) == Accept(w, fs[l], gs[j], room - 1)
  }

  lemma {:induction false} AcceptAllFails(w: World, fs: seq<Filter>, g: Goroutine, room: int) returns (k: nat)
    requires AcceptAll(w, fs, g, room - 1).Err?
    ensures FailsAt(w, fs, [g], room, 0, k) && AcceptAll(w, fs, g, room - 1) == Err(Accept(w, fs[k], g, room - 1).error)
    decreases |fs|
  {
    hide Accept;
    k := 0;
    if Accept(w, fs[0], g, room - 1).Ok? {
      var k1 := AcceptAllFails(w, fs[1..], g, room);
      k := k1 + 1;
      forall j | 0 <= j < k ensures Accept(w, fs[j], g, room - 1) == Ok(true) {
        assert j > 0 ==> fs[1..][j - 1] == fs[j];
      }
    }
  }

  lemma {:induction false} AcceptAllPasses(w: World, fs: seq<Filter>, g: Goroutine, room: int, k: nat)
    requires FailsAt(w, fs, [g], room, 0, k)
    ensures AcceptAll(w, fs, g, room - 1).Err?
    decreases |fs|
  {
    hide Accept;
    if k > 0 {
      assert forall j | 0 <= j < k - 1 :: fs[1..][j] == fs[j + 1];
      AcceptAllPasses(w, fs[1..], g, room, k - 1);
    }
  }

  /** A fused loop fails with the error of its first failure goroutine by goroutine. */
  lemma {:induction false} FailsByGoroutine(w: World, fs: seq<Filter>, gs: seq<Goroutine>, room: int)
    returns (i: nat, k: nat)
    requires room > 0 && Survivors(w, fs, gs, room).Err?
    ensures FirstByGoroutine(w, fs, gs, room, i, k)
    ensures Survivors(w, fs, gs, room) == Err(Accept(w, fs[k], gs[i], room - 1).error)
    decreases |gs|
  {
    hide Accept;
    if AcceptAll(w, fs, gs[0], room - 1).Err? {
      i := 0;
      k := AcceptAllFails(w, fs, gs[0], room);
    } else {
      var i1;
      i1, k := FailsByGoroutine(w, fs, gs[1..], room);
      i := i1 + 1;
      forall i': nat, k': nat | FailsAt(w, fs, gs, room, i', k') ensures i' >= i {
        if i' == 0 {
          AcceptAllPasses(w, fs, gs[0], room, k');
        } else {
          assert FailsAt(w, fs, gs[1..], room, i' - 1, k');
        }
      }
    }
  }

  // ----- filter by filter -----

  /** The filters one after the other, each on what the ones before have left. */
  function InTurn(w: World, fs: seq<Filter>, gs: seq<Goroutine>, room: int): Result<seq<Goroutine>> {
    if fs == [] then Ok(gs)
    else
      match Survivors(w, [fs[0]], gs, room)
      case Err(e) => Err(e)
      case Ok(r) => InTurn(w, fs[1..], r, room)
  }

  lemma {:induction false} SinglesInTurn(w: World, limit: nat, fs: seq<Filter>, a: AState)
    requires a.stack != [] && ATop(a).VDump?
    ensures Exec(w, limit, Singles(fs), a) == TopReplaced(a, InTurn(w, fs, ATop(a).dump, limit - |a.stack|))
    decreases |fs|
  {
    hide Survivors, ExecMacro, MacroCost;
    if fs == [] {
      assert WithTop(a, ATop(a).dump).stack == a.stack;
    } else {
      ExecLoop(w, limit, [fs[0]], a);
      ExecCons(w, limit, Loop([fs[0]]), Singles(fs[1..]), a);
      var r := Survivors(w, [fs[0]], ATop(a).dump, limit - |a.stack|);
      if r.Ok? {
        var a1 := WithTop(a, r.value);
        SinglesInTurn(w, limit, fs[1..], a1);
        TopReplacedTwice(a, r.value, InTurn(w, fs[1..], r.value, limit - |a.stack|));
      }
    }
  }

  lemma TopReplacedTwice(a: AState, gs: seq<Goroutine>, r: Result<seq<Goroutine>>)
    requires a.stack != []
    ensures TopReplaced(WithTop(a, gs), r) == TopReplaced(a, r)
  {
    if r.Ok? {
      assert WithTop(WithTop(a, gs), r.value).stack == WithTop(a, r.value).stack;
    }
  }

  /** Where the goroutines a filter accepts are in gs. */
  function Places(w: World, f: Filter, gs: seq<Goroutine>, room: int): (ps: seq<nat>)
    ensures forall j | 0 <= j < |ps| :: ps[j] < |gs| && Accept(w, f, gs[ps[j]], room) == Ok(true)
    ensures forall i, j | 0 <= i < j < |ps| :: ps[i] < ps[j]
    ensures forall i | 0 <= i < |gs| && Accept(w, f, gs[i], room) == Ok(true) :: i in ps
    decreases |gs|
  {
    if gs == [] then []
    else
      var n := |gs| - 1;
      Places(w, f, gs[..n], room) + (if Accept(w, f, gs[n], room) == Ok(true) then [n] else [])
  }

  function Placed(gs: seq<Goroutine>, ps: seq<nat>): seq<Goroutine>
    requires forall j | 0 <= j < |ps| :: ps[j] < |gs|
  {
    seq(|ps|, j requires 0 <= j < |ps| => gs[ps[j]])
  }

  lemma {:induction false} SurvivorsSnoc(w: World, fs: seq<Filter>, gs: seq<Goroutine>, g: Goroutine, room: int)
    requires Survivors(w, fs, gs + [g], room).Ok?
    ensures Survivors(w, fs, gs, room).Ok? && AcceptAll(w, fs, g, room - 1).Ok?
    ensures Survivors(w, fs, gs + [g], room).value ==
            Survivors(w, fs, gs, room).value + (if AcceptAll(w, fs, g, room - 1).value then [g] else [])
    decreases |gs|
  {
    hide AcceptAll;
    if gs == [] {
      assert (gs + [g])[1..] == [];
    } else {
      assert (gs + [g])[0] == gs[0] && (gs + [g])[1..] == gs[1..] + [g];
      SurvivorsSnoc(w, fs, gs[1..], g, room);
    }
  }

  lemma PlacedSnoc(w: World, f: Filter, gs: seq<Goroutine>, g: Goroutine, room: int)
    ensures Placed(gs + [g], Places(w, f, gs + [g], room)) ==
            Placed(gs, Places(w, f, gs, room)) + (if Accept(w, f, g, room) == Ok(true) then [g] else [])
  {
    hide Accept;
    assert (gs + [g])[..|gs|] == gs;
  }

  lemma {:induction false} SurvivorsPlaced(w: World, f: Filter, gs: seq<Goroutine>, room: int)
    requires Survivors(w, [f], gs, room).Ok?
    ensures Survivors(w, [f], gs, room).value == Placed(gs, Places(w, f, gs, room - 1))
    decreases |gs|
  {
    hide Accept, AcceptAll, Places, Placed, Survivors;
    if gs == [] {
      NonePlaced(w, f, room);
    } else {
      var n := |gs| - 1;
      assert gs == gs[..n] + [gs[n]];
      SurvivorsSnoc(w, [f], gs[..n], gs[n], room);
      SurvivorsPlaced(w, f, gs[..n], room);
      AcceptOne(w, [f], gs[n], room - 1);
      assert [f][..1] == [f];
      PlacedSnoc(w, f, gs[..n], gs[n], room - 1);
    }
  }

  lemma NonePlaced(w: World, f: Filter, room: int)
    ensures Survivors(w, [f], [], room) == Ok([]) && Placed([], Places(w, f, [], room - 1)) == []
  {
  }

  /** A failure of the later filters on the survivors of the first is a failure on all of gs. */
  lemma FailureMoves(w: World, fs: seq<Filter>, gs: seq<Goroutine>, room: int, j: nat, k: nat)
    requires fs != []
    ensures var ps := Places(w, fs[0], gs, room - 1);
            j < |ps| ==>
              (FailsAt(w, fs[1..], Placed(gs, ps), room, j, k) <==> FailsAt(w, fs, gs, room, ps[j], k + 1))
  {
    hide Accept;
    var ps := Places(w, fs[0], gs, room - 1);
    if j < |ps| && FailsAt(w, fs[1..], Placed(gs, ps), room, j, k) {
      forall l | 0 <= l < k + 1 ensures Accept(w, fs[l], gs[ps[j]], room - 1) == Ok(true) {
        assert l > 0 ==> fs[1..][l - 1] == fs[l];
      }
    }
    if j < |ps| && FailsAt(w, fs, gs, room, ps[j], k + 1) {
      forall l | 0 <= l < k ensures Accept(w, fs[1..][l], gs[ps[j]], room - 1) == Ok(true) {
        assert fs[1..][l] == fs[l + 1];
      }
    }
  }

  /** A filter that has got through gs fails on none of it. */
  lemma {:induction false} FirstFilterPasses(w: World, fs: seq<Filter>, gs: seq<Goroutine>, room: int, i: nat)
    requires fs != [] && Survivors(w, [fs[0]], gs, room).Ok?
    ensures !FailsAt(w, fs, gs, room, i, 0)
    decreases |gs|
  {
    hide Accept;
    if i < |gs| {
      AcceptOne(w, [fs[0]], gs[0], room - 1);
      assert [fs[0]][..1] == [fs[0]];
      if i > 0 {
        FirstFilterPasses(w, fs, gs[1..], room, i - 1);
      }
    }
  }

  /** Separate loops fail with the error of the first failure filter by filter. */
  lemma {:induction false} FailsByFilter(w: World, fs: seq<Filter>, gs: seq<Goroutine>, room: int)
    returns (i: nat, k: nat)
    requires room > 0 && InTurn(w, fs, gs, room).Err?
    ensures FirstByFilter(w, fs, gs, room, i, k)
    ensures InTurn(w, fs, gs, room) == Err(Accept(w, fs[k], gs[i], room - 1).error)
    decreases |fs|
  {
    hide Accept, Survivors, Places;
    var f := fs[0];
    if Survivors(w, [f], gs, room).Err? {
      i, k := FailsByGoroutine(w, [f], gs, room);
      forall i': nat | FailsAt(w, fs, gs, room, i', 0) ensures i' >= i {
        assert FailsAt(w, [f], gs, room, i', 0);
      }
    } else {
      SurvivorsPlaced(w, f, gs, room);
      var ps := Places(w, f, gs, room - 1);
      var j, l := FailsByFilter(w, fs[1..], Placed(gs, ps), room);
      FailureMoves(w, fs, gs, room, j, l);
      i, k := ps[j], l + 1;
      forall i': nat, k': nat | FailsAt(w, fs, gs, room, i', k')
        ensures k' >= k && (k' == k ==> i' >= i)
      {
        FirstFilterPasses(w, fs, gs, room, i');
        assert Accept(w, fs[0], gs[i'], room - 1) == Ok(true);
        var j' :| 0 <= j' < |ps| && ps[j'] == i';
        FailureMoves(w, fs, gs, room, j', k' - 1);
      }
    }
  }

  // ----- one loop -----

  lemma FirstUnique(w: World, fs: seq<Filter>, gs: seq<Goroutine>, room: int, i: nat, k: nat, j: nat, l: nat)
    ensures FirstByGoroutine(w, fs, gs, room, i, k) && FirstByGoroutine(w, fs, gs, room, j, l) ==> i == j && k == l
    ensures FirstByFilter(w, fs, gs, room, i, k) && FirstByFilter(w, fs, gs, room, j, l) ==> i == j && k == l
  {
    hide Accept;
  }

  /**
   * Two results that are both values and equal, or both errors, are the same exactly if the scans meet the same
   * error first.
   */
  lemma InTurnAgrees(w: World, fs: seq<Filter>, gs: seq<Goroutine>, room: int)
    requires fs != [] && Same(Survivors(w, fs, gs, room), InTurn(w, fs, gs, room))
    ensures Survivors(w, fs, gs, room) == InTurn(w, fs, gs, room) <==>
            Survivors(w, fs, gs, room).Ok? || ScansAgree(w, fs, gs, room)
  {
    if Survivors(w, fs, gs, room).Err? && room > 0 {
      hide Accept, FailsAt, FirstByGoroutine, FirstByFilter, Survivors, InTurn;
      var i, k := FailsByGoroutine(w, fs, gs, room);
      var j, l := FailsByFilter(w, fs, gs, room);
      FirstsInRange(w, fs, gs, room, i, k);
      FirstsInRange(w, fs, gs, room, j, l);
      forall i': nat, k': nat, j': nat, l': nat |
        FirstByGoroutine(w, fs, gs, room, i', k') && FirstByFilter(w, fs, gs, room, j', l')
        ensures i' == i && k' == k && j' == j && l' == l
      {
        FirstUnique(w, fs, gs, room, i, k, i', k');
        FirstUnique(w, fs, gs, room, j, l, j', l');
      }
    }
  }

  lemma FirstsInRange(w: World, fs: seq<Filter>, gs: seq<Goroutine>, room: int, i: nat, k: nat)
    requires FirstByGoroutine(w, fs, gs, room, i, k) || FirstByFilter(w, fs, gs, room, i, k)
    ensures i < |gs| && k < |fs| && Accept(w, fs[k], gs[i], room - 1).Err?
  {
    hide Accept;
  }

  /**
   * One fused loop ends as its filters do as separate loops, error included,
   * exactly if it succeeds, or starts from no dump, or the two scans meet the
   * same error first.
   */
  lemma LoopErrorsAgree(w: World, limit: nat, fs: seq<Filter>, a: AState)
    requires fs != []
    ensures ExecMacro(w, limit, Loop(fs), a) == Exec(w, limit, Singles(fs), a) <==>
            ExecMacro(w, limit, Loop(fs), a).Ok? || LoopAgrees(w, limit, fs, a)
  {
    hide Survivors, InTurn, ScansAgree;
    if a.stack == [] || !ATop(a).VDump? {
    } else {
      var gs, room := ATop(a).dump, limit - |a.stack|;
      ExecLoop(w, limit, fs, a);
      SinglesInTurn(w, limit, fs, a);
      SinglesMean(w, limit, fs, a);
      SameThrough(a, Survivors(w, fs, gs, room), InTurn(w, fs, gs, room));
      InTurnAgrees(w, fs, gs, room);
    }
  }

  lemma SameThrough(a: AState, x: Result<seq<Goroutine>>, y: Result<seq<Goroutine>>)
    requires a.stack != [] && Same(TopReplaced(a, x), TopReplaced(a, y))
    ensures Same(x, y) && (TopReplaced(a, x) == TopReplaced(a, y) <==> x == y)
  {
    if x.Ok? && y.Ok? {
      assert ATop(WithTop(a, x.value)) == VDump(x.value) && ATop(WithTop(a, y.value)) == VDump(y.value);
    }
  }

  // ----- whole programs -----

  ghost predicate LoopAgrees(w: World, limit: nat, fs: seq<Filter>, a: AState) {
    a.stack == [] || !ATop(a).VDump? || ScansAgree(w, fs, ATop(a).dump, limit - |a.stack|)
  }

  /** If a program fails in a loop, the two scans of that loop meet the same error first. */
  ghost predicate ErrorsAgree(w: World, limit: nat, ms: seq<Macro>, a: AState)
    decreases |ms|
  {
    if ms == [] then true
    else
      match ExecMacro(w, limit, ms[0], a)
      case Ok(a1) => ErrorsAgree(w, limit, ms[1..], a1)
      case Err(_) => ms[0].Loop? ==> LoopAgrees(w, limit, ms[0].filters, a)
  }

  /**
   * Main result: regrouping the filters of a program keeps everything, the
   * reported error included, exactly if the loop it fails in meets the same
   * error first both ways.
   */
  lemma {:induction false} SplitErrors(w: World, limit: nat, ms: seq<Macro>, a: AState)
    requires LoopsNonempty(ms)
    ensures Exec(w, limit, ms, a) == Exec(w, limit, Split(ms), a) <==> ErrorsAgree(w, limit, ms, a)
    decreases |ms|
  {
    hide ExecMacro, LoopAgrees, Parts, MacroCost;
    if ms != [] {
      assert ms == [ms[0]] + ms[1..];
      assert ms[0] in ms && forall m | m in ms[1..] :: m in ms;
      assert Split(ms) == Parts(ms[0]) + Split(ms[1..]);
      ExecConcat(w, limit, Parts(ms[0]), Split(ms[1..]), a);
      PartErrors(w, limit, ms[0], a);
      if ExecMacro(w, limit, ms[0], a).Ok? {
        SplitErrors(w, limit, ms[1..], ExecMacro(w, limit, ms[0], a).value);
      }
    }
  }

  lemma PartErrors(w: World, limit: nat, m: Macro, a: AState)
    requires m.Loop? ==> m.filters != []
    ensures Same(ExecMacro(w, limit, m, a), Exec(w, limit, Parts(m), a))
    ensures ExecMacro(w, limit, m, a) == Exec(w, limit, Parts(m), a) <==>
            ExecMacro(w, limit, m, a).Ok? || (m.Loop? ==> LoopAgrees(w, limit, m.filters, a))
  {
    hide LoopAgrees, ExecMacro, Exec;
    MacroSplit(w, limit, m, a);
    if m.Loop? {
      LoopErrorsAgree(w, limit, m.filters, a);
    } else {
      ExecSingle(w, limit, m, a);
    }
  }

  // ----- a program whose error changes -----

  // id == 1 or "a" matches "("
  const ID_OR_PATTERN: Expr :=
    Logic(Or, Compare(CmpEq, Leaf(Field(".id")), Leaf(Num(1))), Compare(CmpMatches, Leaf(Str("a")), Leaf(Str("("))))

  // id == "x"
  const ID_IS_TEXT: Expr := Compare(CmpEq, Leaf(Field(".id")), Leaf(Str("x")))

  function WithId(id: int): Goroutine {
    Goroutine(id, "", "", 0, 0, "", 1, map[], 0, 0)
  }

  lemma WitnessValues(w: World, room: int)
    requires !w.compiles("(") && room >= 2
    ensures Eval(w, ID_OR_PATTERN, WithId(1), room) == Ok(SBool(true))
    ensures Eval(w, ID_OR_PATTERN, WithId(2), room) == Err(BadRegex)
    ensures Eval(w, ID_IS_TEXT, WithId(1), room) == Err(MismatchedTypes)
  {
    assert Eval(w, ID_OR_PATTERN.left, WithId(1), room) == Ok(SBool(true));
    assert Eval(w, ID_OR_PATTERN.left, WithId(2), room) == Ok(SBool(false));
    assert Eval(w, ID_OR_PATTERN.right, WithId(2), room) == Err(BadRegex);
  }

  lemma WitnessFilters(w: World, one: nat, two: nat, room: int)
    requires !w.compiles("(") && room >= 2
    ensures Accept(w, Filter(one, true, ID_OR_PATTERN), WithId(1), room) == Ok(true)
    ensures Accept(w, Filter(one, true, ID_OR_PATTERN), WithId(2), room) == Err(BadRegex)
    ensures Accept(w, Filter(two, true, ID_IS_TEXT), WithId(1), room) == Err(MismatchedTypes)
  {
    hide Eval;
    WitnessValues(w, room);
  }

  /**
   * On goroutines 1 and 2 the fused loop compares goroutine 1 with a text before it comes to goroutine 2 and the
   * bad pattern.
   */
  lemma FusedErrorDiffers(w: World, one: nat, two: nat, room: int)
    requires !w.compiles("(") && room >= 3
    ensures var fs, gs := [Filter(one, true, ID_OR_PATTERN), Filter(two, true, ID_IS_TEXT)], [WithId(1), WithId(2)];
            && Survivors(w, fs, gs, room) == Err(MismatchedTypes)
            && InTurn(w, fs, gs, room) == Err(BadRegex)
            && !ScansAgree(w, fs, gs, room)
  {
    hide Accept;
    var f1, f2 := Filter(one, true, ID_OR_PATTERN), Filter(two, true, ID_IS_TEXT);
    var fs, gs := [f1, f2], [WithId(1), WithId(2)];
    WitnessFilters(w, one, two, room - 1);
    assert fs[1..] == [f2] && gs[1..] == [WithId(2)];
    assert AcceptAll(w, [f2], gs[0], room - 1) == Err(MismatchedTypes);
    assert AcceptAll(w, [f1][1..], gs[0], room - 1) == Ok(true);
    assert AcceptAll(w, [f1], gs[1], room - 1) == Err(BadRegex);
    assert Survivors(w, [f1], gs[1..], room) == Err(BadRegex);
    assert Survivors(w, [f1], gs, room) == Err(BadRegex);
    InTurnAgrees(w, fs, gs, room);
  }
}
