/**
 * Which goroutines graph selects. The visited set is shared by all start
 * goroutines, so the answer depends on their order; the main result says
 * exactly which goroutines are in it.
 */
module GraphClosure {
  import opened Results
  import opened Goroutines
  import opened Graphs
  import opened SetOps

  // ----- the created-by forest -----

  predicate UniqueIds(src: seq<Goroutine>) {
    forall i, j | 0 <= i < j < |src| :: src[i].id != src[j].id
  }

  /** The goroutine n created-by links above g. */
  function Up(src: seq<Goroutine>, g: Goroutine, n: nat): Option<Goroutine> {
    if n == 0 then Some(g)
    else
      match Up(src, g, n - 1)
      case None => None
      case Some(x) => ById(src, x.createdBy)
  }

  /** z is s or one of its ancestors. */
  ghost predicate AtOrAbove(src: seq<Goroutine>, s: Goroutine, z: Goroutine) {
    exists n: nat :: Up(src, s, n) == Some(z)
  }

  /** z is at or above one of the first k selected goroutines. */
  ghost predicate Early(src: seq<Goroutine>, selected: seq<Goroutine>, k: nat, z: Goroutine) {
    exists j | 0 <= j < k && j < |selected| :: AtOrAbove(src, selected[j], z)
  }

  /**
   * y is n links below selected goroutine k, and nothing strictly between them is at or above a goroutine
   * selected no later than it.
   */
  ghost predicate Reached(src: seq<Goroutine>, selected: seq<Goroutine>, y: Goroutine, k: nat, n: nat) {
    && k < |selected| && n > 0
    && Up(src, y, n) == Some(selected[k])
    && forall m | 0 < m < n :: Up(src, y, m).Some? && !Early(src, selected, k + 1, Up(src, y, m).value)
  }

  ghost predicate ReachedFromSome(src: seq<Goroutine>, selected: seq<Goroutine>, y: Goroutine) {
    exists k: nat, n: nat :: Reached(src, selected, y, k, n)
  }

  /** The goroutines graph selects, described without running it. */
  ghost predicate InClosure(src: seq<Goroutine>, selected: seq<Goroutine>, y: Goroutine) {
    Early(src, selected, |selected|, y) || ReachedFromSome(src, selected, y)
  }

  lemma SameIdSame(src: seq<Goroutine>, a: Goroutine, b: Goroutine)
    requires UniqueIds(src) && a in src && b in src && a.id == b.id
    ensures a == b
  {
    var i :| 0 <= i < |src| && src[i] == a;
    var j :| 0 <= j < |src| && src[j] == b;
  }

  /** With unique IDs, having the key is being a member. */
  lemma HasIsMember(src: seq<Goroutine>, result: seq<Goroutine>, g: Goroutine)
    requires UniqueIds(src) && g in src && forall x | x in result :: x in src
    ensures Has(result, g) <==> g in result
  {
    HasMember(result, g);
    forall x | x in result && SameKey(x, g) ensures x == g {
      SameIdSame(src, x, g);
    }
    if g in result {
      assert SameKey(g, g);
    }
  }

  lemma ByIdUnique(src: seq<Goroutine>, c: Goroutine, x: Goroutine)
    requires UniqueIds(src) && x in src
    ensures c.createdBy == x.id <==> ById(src, c.createdBy) == Some(x)
  {
    if c.createdBy == x.id {
      SameIdSame(src, ById(src, c.createdBy).value, x);
    }
  }

  lemma {:induction false} UpMember(src: seq<Goroutine>, g: Goroutine, n: nat)
    requires g in src
    ensures Up(src, g, n).Some? ==> Up(src, g, n).value in src
  {
    if n > 0 {
      UpMember(src, g, n - 1);
    }
  }

  /** One link and then n more are n + 1 links. */
  lemma {:induction false} UpFromParent(src: seq<Goroutine>, g: Goroutine, n: nat)
    ensures ById(src, g.createdBy).Some? ==> Up(src, g, n + 1) == Up(src, ById(src, g.createdBy).value, n)
    ensures ById(src, g.createdBy).None? ==> Up(src, g, n + 1) == None
  {
    if n > 0 {
      UpFromParent(src, g, n - 1);
    } else {
      assert Up(src, g, 0) == Some(g);
      assert Up(src, g, 1) == ById(src, g.createdBy);
    }
  }

  // ----- what every set of results keeps -----

  ghost predicate Members(src: seq<Goroutine>, result: seq<Goroutine>) {
    (forall x | x in result :: x in src) && forall i, j | 0 <= i < j < |result| :: result[i] != result[j]
  }

  /** The parent of every goroutine of the result, but possibly g, is in the result. */
  ghost predicate ParentClosedBut(src: seq<Goroutine>, result: seq<Goroutine>, g: Option<Goroutine>) {
    forall x | x in result && g != Some(x) && ById(src, x.createdBy).Some? :: ById(src, x.createdBy).value in result
  }

  ghost predicate ParentClosed(src: seq<Goroutine>, result: seq<Goroutine>) {
    ParentClosedBut(src, result, None)
  }

  lemma {:induction false} AscendProperties(src: seq<Goroutine>, g: Goroutine, result: seq<Goroutine>)
    requires UniqueIds(src) && g in src && Members(src, result) && ParentClosedBut(src, result, Some(g))
    ensures var r := Ascend(src, g, result);
            && result <= r && Members(src, r) && ParentClosed(src, r)
            && forall y | y in r && y !in result :: AtOrAbove(src, g, y)
    decreases Missing(src, result)
  {
    var up := ById(src, g.createdBy);
    if up.Some? {
      var parent := up.value;
      HasIsMember(src, result, parent);
      if !Has(result, parent) {
        MissingShrinks(src, result, [parent]);
        AscendProperties(src, parent, result + [parent]);
        var r := Ascend(src, g, result);
        forall y | y in r && y !in result ensures AtOrAbove(src, g, y) {
          assert Up(src, g, 0) == Some(g) && Up(src, g, 1) == Some(parent);
          if y != parent {
            var n: nat :| Up(src, parent, n) == Some(y);
            UpFromParent(src, g, n);
          }
        }
      }
    }
  }

  lemma {:induction false} ClosedAbove(src: seq<Goroutine>, result: seq<Goroutine>, s: Goroutine, n: nat)
    requires ParentClosed(src, result) && s in result
    ensures Up(src, s, n).Some? ==> Up(src, s, n).value in result
  {
    if n > 0 {
      ClosedAbove(src, result, s, n - 1);
    }
  }

  lemma MembersIn(src: seq<Goroutine>, result: seq<Goroutine>)
    requires Members(src, result)
    ensures forall x | x in result :: x in src
  {
  }

  lemma MembersSnoc(src: seq<Goroutine>, result: seq<Goroutine>, g: Goroutine)
    requires Members(src, result) && g in src && g !in result
    ensures Members(src, result + [g])
  {
  }

  lemma {:induction false} NewChildrenProperties(src: seq<Goroutine>, gs: seq<Goroutine>, parent: Goroutine,
                                                 result: seq<Goroutine>)
    requires UniqueIds(src) && Members(src, result) && forall x | x in gs :: x in src
    ensures var r := NewChildren(gs, parent, result);
            && Members(src, result + r)
            && (forall c | c in gs && c.createdBy == parent.id :: c in result + r)
            && (forall c | c in r :: c.createdBy == parent.id && c !in result)
  {
    hide Has, UniqueIds, Members;
    MembersIn(src, result);
    var r := NewChildren(gs, parent, result);
    if gs != [] {
      assert gs[0] in gs && forall x | x in gs[1..] :: x in gs;
      assert forall c | c in gs :: c == gs[0] || c in gs[1..];
      HasIsMember(src, result, gs[0]);
      if gs[0].createdBy == parent.id && !Has(result, gs[0]) {
        MembersSnoc(src, result, gs[0]);
        NewChildrenProperties(src, gs[1..], parent, result + [gs[0]]);
        var rest := NewChildren(gs[1..], parent, result + [gs[0]]);
        assert result + r == result + [gs[0]] + rest;
      } else {
        NewChildrenProperties(src, gs[1..], parent, result);
      }
    } else {
      assert result + r == result;
    }
  }

  /** How y comes in by descending: a chain of newly added goroutines up to one of the queue. */
  ghost predicate Descends(src: seq<Goroutine>, before: seq<Goroutine>, queue: seq<Goroutine>, y: Goroutine, n: nat) {
    && n > 0 && Up(src, y, n).Some? && Up(src, y, n).value in queue
    && forall m | 0 < m < n :: Up(src, y, m).Some? && Up(src, y, m).value !in before
  }

  lemma ChildDescends(src: seq<Goroutine>, before: seq<Goroutine>, queue: seq<Goroutine>, x: Goroutine, c: Goroutine)
    requires UniqueIds(src) && x in src && x in queue && c.createdBy == x.id
    ensures Descends(src, before, queue, c, 1)
  {
    ByIdUnique(src, c, x);
    assert Up(src, c, 0) == Some(c);
  }

  /** The children of x are in the result. */
  ghost predicate Expanded(src: seq<Goroutine>, result: seq<Goroutine>, x: Goroutine) {
    forall c | c in src && c.createdBy == x.id :: c in result
  }

  ghost predicate DescendsSome(src: seq<Goroutine>, before: seq<Goroutine>, queue: seq<Goroutine>, y: Goroutine) {
    exists n: nat :: Descends(src, before, queue, y, n)
  }

  /** What the descending work list adds, and that it expands all it adds. */
  ghost predicate Descended(src: seq<Goroutine>, queue: seq<Goroutine>, before: seq<Goroutine>, r: seq<Goroutine>) {
    && before <= r && Members(src, r) && ParentClosed(src, r)
    && (forall x | x in queue :: Expanded(src, r, x))
    && (forall x | x in r && x !in before :: Expanded(src, r, x))
    && (forall y | y in r && y !in before :: DescendsSome(src, before, queue, y))
  }

  lemma {:induction false} DescendProperties(src: seq<Goroutine>, queue: seq<Goroutine>, result: seq<Goroutine>)
    requires UniqueIds(src) && Members(src, result) && ParentClosed(src, result)
    requires forall x | x in queue :: x in result
    ensures Descended(src, queue, result, Descend(src, queue, result))
    decreases Missing(src, result), |queue|
  {
    if queue != [] {
      var added := NewChildren(src, queue[0], result);
      NewChildrenProperties(src, src, queue[0], result);
      AddedClosed(src, queue[0], result, added);
      MissingShrinks(src, result, added);
      assert added != [] ==> added[0] in src && added[0] in added && !Has(result, added[0]);
      assert added == [] ==> result + added == result;
      var rest := queue[1..] + added;
      assert forall x | x in rest :: x in queue[1..] || x in added;
      assert forall x | x in queue :: x == queue[0] || x in queue[1..];
      DescendProperties(src, rest, result + added);
      DescendedStep(src, queue, result, added, Descend(src, rest, result + added));
    }
  }

  lemma AddedClosed(src: seq<Goroutine>, parent: Goroutine, result: seq<Goroutine>, added: seq<Goroutine>)
    requires UniqueIds(src) && Members(src, result) && ParentClosed(src, result) && parent in result
    requires forall c | c in added :: c.createdBy == parent.id
    ensures ParentClosed(src, result + added)
  {
    forall x | x in result + added && ById(src, x.createdBy).Some?
      ensures ById(src, x.createdBy).value in result + added
    {
      if x in added {
        ByIdUnique(src, x, parent);
      }
    }
  }

  lemma DescendedStep(src: seq<Goroutine>, queue: seq<Goroutine>, before: seq<Goroutine>, added: seq<Goroutine>,
                      r: seq<Goroutine>)
    requires UniqueIds(src) && queue != [] && queue[0] in src
    requires forall c | c in added :: c in src && c.createdBy == queue[0].id && c !in before
    requires forall c | c in src && c.createdBy == queue[0].id :: c in before + added
    requires Descended(src, queue[1..] + added, before + added, r)
    ensures Descended(src, queue, before, r)
  {
    hide Members, ParentClosed, Descends;
    forall x | x in queue ensures Expanded(src, r, x) {
      if x in queue[1..] {
        assert x in queue[1..] + added;
      } else {
        assert forall c | c in before + added :: c in r;
      }
    }
    forall x | x in r && x !in before ensures Expanded(src, r, x) {
      if x in added {
        assert x in queue[1..] + added;
      }
    }
    forall y | y in r && y !in before ensures DescendsSome(src, before, queue, y) {
      if y in added {
        ChildDescends(src, before, queue, queue[0], y);
      } else {
        var n: nat :| Descends(src, before + added, queue[1..] + added, y, n);
        DescendsFurther(src, queue, before, added, y, n);
      }
    }
  }

  lemma DescendsFurther(src: seq<Goroutine>, queue: seq<Goroutine>, before: seq<Goroutine>, added: seq<Goroutine>,
                        y: Goroutine, n: nat)
    requires UniqueIds(src) && queue != [] && queue[0] in src
    requires forall c | c in added :: c in src && c.createdBy == queue[0].id && c !in before
    requires Descends(src, before + added, queue[1..] + added, y, n)
    ensures DescendsSome(src, before, queue, y)
  {
    var top := Up(src, y, n).value;
    if top in queue[1..] {
      assert Descends(src, before, queue, y, n);
    } else {
      ByIdUnique(src, top, queue[0]);
      assert Up(src, y, n + 1) == Some(queue[0]);
      assert Descends(src, before, queue, y, n + 1);
    }
  }

  // ----- one start goroutine after the other -----

  /** Starts, and goroutines that are not at or above a start, have their children in the result. */
  ghost predicate Saturated(src: seq<Goroutine>, selected: seq<Goroutine>, result: seq<Goroutine>) {
    forall x | x in result && (x in selected || !Early(src, selected, |selected|, x)) :: Expanded(src, result, x)
  }

  ghost predicate Invariant(src: seq<Goroutine>, selected: seq<Goroutine>, result: seq<Goroutine>) {
    && Members(src, result)
    && ParentClosed(src, result)
    && (forall s | s in selected :: s in result)
    && Saturated(src, selected, result)
    && forall y | y in result :: InClosure(src, selected, y)
  }

  lemma EarlyGrows(src: seq<Goroutine>, selected: seq<Goroutine>, g: Goroutine, k: nat, z: Goroutine)
    requires k <= |selected|
    ensures Early(src, selected + [g], k, z) <==> Early(src, selected, k, z)
    ensures Early(src, selected + [g], |selected| + 1, z) <==>
            Early(src, selected, |selected|, z) || AtOrAbove(src, g, z)
  {
    assert forall j | 0 <= j < |selected| :: (selected + [g])[j] == selected[j];
    if AtOrAbove(src, g, z) {
      assert AtOrAbove(src, (selected + [g])[|selected|], z);
    }
    if Early(src, selected, k, z) {
      var j :| 0 <= j < k && j < |selected| && AtOrAbove(src, selected[j], z);
      assert AtOrAbove(src, (selected + [g])[j], z);
    }
    if Early(src, selected, |selected|, z) {
      var j :| 0 <= j < |selected| && AtOrAbove(src, selected[j], z);
      assert AtOrAbove(src, (selected + [g])[j], z);
    }
  }

  lemma ClosureGrows(src: seq<Goroutine>, selected: seq<Goroutine>, g: Goroutine, y: Goroutine)
    requires InClosure(src, selected, y)
    ensures InClosure(src, selected + [g], y)
  {
    EarlyGrows(src, selected, g, |selected|, y);
    if !Early(src, selected, |selected|, y) {
      var k: nat, n: nat :| Reached(src, selected, y, k, n);
      forall m | 0 < m < n ensures !Early(src, selected + [g], k + 1, Up(src, y, m).value) {
        EarlyGrows(src, selected, g, k + 1, Up(src, y, m).value);
      }
      assert Reached(src, selected + [g], y, k, n);
    }
  }

  /** A closed result has everything at or above its starts. */
  lemma EarlyInResult(src: seq<Goroutine>, selected: seq<Goroutine>, result: seq<Goroutine>, k: nat, z: Goroutine)
    requires ParentClosed(src, result) && (forall s | s in selected :: s in result) && Early(src, selected, k, z)
    ensures z in result
  {
    var j :| 0 <= j < k && j < |selected| && AtOrAbove(src, selected[j], z);
    var n: nat :| Up(src, selected[j], n) == Some(z);
    assert selected[j] in selected;
    ClosedAbove(src, result, selected[j], n);
  }

  /** The stages of a round: the start is added, then its ancestors, then its descendants. */
  ghost predicate Stages(src: seq<Goroutine>, g: Goroutine, result: seq<Goroutine>, added: seq<Goroutine>,
                         up: seq<Goroutine>, r: seq<Goroutine>) {
    && (forall x | x in added :: x in result || x == g) && g in added && (forall x | x in result :: x in added)
    && added <= up && ParentClosed(src, up) && (forall y | y in up && y !in added :: AtOrAbove(src, g, y))
    && Descended(src, [g], up, r)
  }

  function WithStart(g: Goroutine, result: seq<Goroutine>): seq<Goroutine> {
    if Has(result, g) then result else result + [g]
  }

  lemma StartAdded(src: seq<Goroutine>, g: Goroutine, result: seq<Goroutine>)
    requires UniqueIds(src) && g in src && Members(src, result) && ParentClosed(src, result)
    ensures var added := WithStart(g, result);
            && Members(src, added) && ParentClosedBut(src, added, Some(g))
            && (forall x | x in added :: x in result || x == g) && g in added && (forall x | x in result :: x in added)
  {
    hide Has;
    HasIsMember(src, result, g);
  }

  lemma PrefixMember(a: seq<Goroutine>, b: seq<Goroutine>, g: Goroutine)
    requires a <= b && g in a
    ensures g in b
  {
    assert forall i | 0 <= i < |a| :: a[i] == b[i];
  }

  lemma RoundStages(src: seq<Goroutine>, g: Goroutine, result: seq<Goroutine>)
    returns (added: seq<Goroutine>, up: seq<Goroutine>)
    requires UniqueIds(src) && g in src && Members(src, result) && ParentClosed(src, result)
    ensures Stages(src, g, result, added, up, Round(src, g, result))
  {
    added := WithStart(g, result);
    up := Ascend(src, g, added);
    assert Round(src, g, result) == Descend(src, [g], up);
    hide Ascend, Descend, Missing, AtOrAbove, Members, ParentClosedBut, WithStart, Descended, Round;
    StartAdded(src, g, result);
    AscendProperties(src, g, added);
    PrefixMember(added, up, g);
    DescendProperties(src, [g], up);
  }

  lemma RoundKeeps(src: seq<Goroutine>, selected: seq<Goroutine>, g: Goroutine, result: seq<Goroutine>)
    requires UniqueIds(src) && g in src && Invariant(src, selected, result)
    ensures Invariant(src, selected + [g], Round(src, g, result))
    ensures forall x | x in result :: x in Round(src, g, result)
  {
    hide Round, InClosure, Members, ParentClosedBut, Saturated, DescendsSome, AtOrAbove, Expanded;
    var added, up := RoundStages(src, g, result);
    var r := Round(src, g, result);
    assert forall s | s in selected + [g] :: s in selected || s == g;
    assert forall x | x in result :: x in r;
    assert g in r;
    RoundSound(src, selected, g, result, added, up, r);
    RoundSaturated(src, selected, g, result, added, up, r);
  }

  lemma RoundSaturated(src: seq<Goroutine>, selected: seq<Goroutine>, g: Goroutine, result: seq<Goroutine>,
                       added: seq<Goroutine>, up: seq<Goroutine>, r: seq<Goroutine>)
    requires Stages(src, g, result, added, up, r) && Saturated(src, selected, result)
    requires forall s | s in selected :: s in result
    ensures Saturated(src, selected + [g], r)
  {
    hide Members, ParentClosedBut, DescendsSome, AtOrAbove, Early;
    var selected' := selected + [g];
    assert forall s | s in selected' :: s in selected || s == g;
    forall x | x in r && (x in selected' || !Early(src, selected', |selected'|, x)) ensures Expanded(src, r, x) {
      EarlyGrows(src, selected, g, |selected|, x);
      if x == g {
        assert g in [g];
      } else if x in result {
        assert Expanded(src, result, x);
      } else {
        assert x in up ==> AtOrAbove(src, g, x);
      }
    }
  }

  lemma RoundSound(src: seq<Goroutine>, selected: seq<Goroutine>, g: Goroutine, result: seq<Goroutine>,
                   added: seq<Goroutine>, up: seq<Goroutine>, r: seq<Goroutine>)
    requires Invariant(src, selected, result) && Stages(src, g, result, added, up, r)
    ensures forall y | y in r :: InClosure(src, selected + [g], y)
  {
    hide Members, Saturated, ParentClosedBut, Expanded;
    var selected' := selected + [g];
    assert forall s | s in selected' :: s in selected || s == g;
    assert Up(src, g, 0) == Some(g);
    forall y | y in r ensures InClosure(src, selected', y) {
      EarlyGrows(src, selected, g, |selected|, y);
      if y in result {
        ClosureGrows(src, selected, g, y);
      } else if y !in up {
        var n: nat :| Descends(src, up, [g], y, n);
        forall m | 0 < m < n ensures !Early(src, selected', |selected| + 1, Up(src, y, m).value) {
          if Early(src, selected', |selected| + 1, Up(src, y, m).value) {
            EarlyInResult(src, selected', up, |selected| + 1, Up(src, y, m).value);
          }
        }
        assert Reached(src, selected', y, |selected|, n);
      }
    }
  }

  lemma {:induction false} RoundsSnoc(src: seq<Goroutine>, selected: seq<Goroutine>, g: Goroutine,
                                      result: seq<Goroutine>)
    ensures Rounds(src, selected + [g], result) == Round(src, g, Rounds(src, selected, result))
    decreases |selected|
  {
    hide Round;
    if selected == [] {
      assert Rounds(src, [g][1..], Round(src, g, result)) == Round(src, g, result);
      assert [] + [g] == [g];
    } else {
      assert (selected + [g])[0] == selected[0] && (selected + [g])[1..] == selected[1..] + [g];
      RoundsSnoc(src, selected[1..], g, Round(src, selected[0], result));
    }
  }

  lemma {:induction false} GraphInvariant(src: seq<Goroutine>, selected: seq<Goroutine>)
    requires UniqueIds(src) && forall s | s in selected :: s in src
    ensures Invariant(src, selected, InGraph(src, selected))
    decreases |selected|
  {
    hide Round;
    if selected != [] {
      var front, g := selected[..|selected| - 1], selected[|selected| - 1];
      assert selected == front + [g];
      GraphInvariant(src, front);
      RoundKeeps(src, front, g, InGraph(src, front));
      RoundsSnoc(src, front, g, []);
    }
  }

  // ----- the exact answer -----

  /** The result after the first k starts is kept. */
  lemma {:induction false} PrefixGrows(src: seq<Goroutine>, selected: seq<Goroutine>, k: nat)
    requires UniqueIds(src) && k <= |selected| && forall s | s in selected :: s in src
    ensures forall x | x in InGraph(src, selected[..k]) :: x in InGraph(src, selected)
    decreases |selected| - k
  {
    hide Round, Invariant;
    if k < |selected| {
      PrefixGrows(src, selected, k + 1);
      var front, g := selected[..k], selected[k];
      assert selected[..k + 1] == front + [g];
      GraphInvariant(src, front);
      RoundKeeps(src, front, g, InGraph(src, front));
      RoundsSnoc(src, front, g, []);
    } else {
      assert selected[..k] == selected;
    }
  }

  /** Following a chain down from the last start: every goroutine on it is in the result. */
  lemma {:induction false} ChainInResult(src: seq<Goroutine>, selected: seq<Goroutine>, result: seq<Goroutine>,
                                         y: Goroutine, n: nat, m: nat)
    requires UniqueIds(src) && y in src && Invariant(src, selected, result) && selected != [] && m <= n
    requires Reached(src, selected, y, |selected| - 1, n)
    ensures Up(src, y, m).Some? && Up(src, y, m).value in result
    decreases n - m
  {
    hide Members, ParentClosedBut, InClosure, Early, Up, UniqueIds;
    if m == n {
      assert selected[|selected| - 1] in selected;
    } else {
      UpNext(src, y, m);
      ChainInResult(src, selected, result, y, n, m + 1);
      UpMember(src, y, m);
      UpMember(src, y, m + 1);
      var x, c := Up(src, y, m + 1).value, Up(src, y, m).value;
      ByIdUnique(src, c, x);
      if m + 1 == n {
        assert x in selected;
      }
      assert Expanded(src, result, x);
    }
  }

  lemma UpNext(src: seq<Goroutine>, y: Goroutine, m: nat)
    ensures Up(src, y, m + 1) == if Up(src, y, m).None? then None else ById(src, Up(src, y, m).value.createdBy)
  {
  }

  lemma EarlyPrefix(src: seq<Goroutine>, selected: seq<Goroutine>, k: nat, z: Goroutine)
    requires k < |selected|
    ensures Early(src, selected[..k + 1], k + 1, z) ==> Early(src, selected, k + 1, z)
  {
    assert forall j | 0 <= j < k + 1 :: selected[..k + 1][j] == selected[j];
  }

  lemma ReachedPrefix(src: seq<Goroutine>, selected: seq<Goroutine>, y: Goroutine, k: nat, n: nat)
    requires Reached(src, selected, y, k, n)
    ensures Reached(src, selected[..k + 1], y, k, n)
  {
    forall m | 0 < m < n ensures !Early(src, selected[..k + 1], k + 1, Up(src, y, m).value) {
      EarlyPrefix(src, selected, k, Up(src, y, m).value);
    }
  }

  /**
   * The main result on graph: for a dump with unique IDs and a predicate drawn
   * from it, a goroutine is in the answer exactly if it is at or above a
   * selected one, or below a selected one along a chain on which no goroutine
   * is at or above one selected no later. The answer has no duplicates and
   * contains the parent of each of its goroutines.
   */
  lemma GraphExactly(src: seq<Goroutine>, selected: seq<Goroutine>)
    requires UniqueIds(src) && forall s | s in selected :: s in src
    ensures var r := InGraph(src, selected);
            && Members(src, r) && ParentClosed(src, r)
            && forall y | y in src :: y in r <==> InClosure(src, selected, y)
  {
    hide Members, ParentClosedBut, Reached;
    GraphInvariant(src, selected);
    var r := InGraph(src, selected);
    forall y | y in src && InClosure(src, selected, y) ensures y in r {
      if Early(src, selected, |selected|, y) {
        EarlyInResult(src, selected, r, |selected|, y);
      } else {
        var k: nat, n: nat :| Reached(src, selected, y, k, n);
        ReachedInResult(src, selected, y, k, n);
      }
    }
  }

  lemma ReachedInResult(src: seq<Goroutine>, selected: seq<Goroutine>, y: Goroutine, k: nat, n: nat)
    requires UniqueIds(src) && (forall s | s in selected :: s in src) && y in src && Reached(src, selected, y, k, n)
    ensures y in InGraph(src, selected)
  {
    hide Invariant, Early, Rounds;
    var prefix := selected[..k + 1];
    ReachedPrefix(src, selected, y, k, n);
    GraphInvariant(src, prefix);
    ChainInResult(src, prefix, InGraph(src, prefix), y, n, 0);
    assert Up(src, y, 0) == Some(y);
    PrefixGrows(src, selected, k + 1);
  }

  // ----- the full closure -----

  /** y is at or above, or at or below, a selected goroutine. */
  ghost predicate Related(src: seq<Goroutine>, selected: seq<Goroutine>, y: Goroutine) {
    exists s | s in selected :: AtOrAbove(src, s, y) || AtOrAbove(src, y, s)
  }

  lemma ClosureRelated(src: seq<Goroutine>, selected: seq<Goroutine>, y: Goroutine)
    requires InClosure(src, selected, y)
    ensures Related(src, selected, y)
  {
    if Early(src, selected, |selected|, y) {
      var j :| 0 <= j < |selected| && AtOrAbove(src, selected[j], y);
      assert selected[j] in selected;
    } else {
      var k: nat, n: nat :| Reached(src, selected, y, k, n);
      assert selected[k] in selected;
      assert Up(src, y, n) == Some(selected[k]);
    }
  }

  /**
   * No goroutine strictly below a selected one is at or above one selected no later: no selected goroutine comes
   * after one of its own descendants, and none is on a cycle.
   */
  ghost predicate AncestorsFirst(src: seq<Goroutine>, selected: seq<Goroutine>) {
    forall k: nat, z | k < |selected| && z in src && z != selected[k] && AtOrAbove(src, z, selected[k]) ::
      !Early(src, selected, k + 1, z)
  }

  /** A chain below start k, as short as possible, is not blocked. */
  lemma {:induction false} ShortestReached(src: seq<Goroutine>, selected: seq<Goroutine>, y: Goroutine, k: nat, n: nat)
    requires AncestorsFirst(src, selected) && y in src && k < |selected| && Up(src, y, n) == Some(selected[k])
    ensures InClosure(src, selected, y)
    decreases n
  {
    if n == 0 {
      assert AtOrAbove(src, selected[k], y);
    } else if m :| 0 < m < n && Up(src, y, m) == Some(selected[k]) {
      ShortestReached(src, selected, y, k, m);
    } else {
      forall m | 0 < m < n ensures Up(src, y, m).Some? && !Early(src, selected, k + 1, Up(src, y, m).value) {
        UpSplit(src, y, m, n - m);
        UpMember(src, y, m);
        assert AtOrAbove(src, Up(src, y, m).value, selected[k]);
      }
      assert Reached(src, selected, y, k, n);
    }
  }

  lemma {:induction false} UpSplit(src: seq<Goroutine>, g: Goroutine, m: nat, n: nat)
    ensures Up(src, g, m + n) == if Up(src, g, m).Some? then Up(src, Up(src, g, m).value, n) else None
  {
    if n > 0 {
      UpSplit(src, g, m, n - 1);
    }
  }

  /** Strictly between y and start k, n links above it, there is a goroutine at or above a start no later than k. */
  ghost predicate Blocked(src: seq<Goroutine>, selected: seq<Goroutine>, y: Goroutine, k: nat, n: nat) {
    exists m | 0 < m < n :: Up(src, y, m).Some? && Early(src, selected, k + 1, Up(src, y, m).value)
  }

  ghost predicate BelowStart(src: seq<Goroutine>, selected: seq<Goroutine>, y: Goroutine, k: nat, n: nat) {
    k < |selected| && n > 0 && Up(src, y, n) == Some(selected[k])
  }

  /** y is below a selected goroutine and above none, and every way up to a selected one is blocked. */
  ghost predicate Missed(src: seq<Goroutine>, selected: seq<Goroutine>, y: Goroutine) {
    && !Early(src, selected, |selected|, y)
    && (exists k: nat, n: nat :: BelowStart(src, selected, y, k, n))
    && (forall k: nat, n: nat | BelowStart(src, selected, y, k, n) :: Blocked(src, selected, y, k, n))
  }

  lemma NotBlockedReached(src: seq<Goroutine>, selected: seq<Goroutine>, y: Goroutine, k: nat, n: nat)
    ensures Reached(src, selected, y, k, n) <==> BelowStart(src, selected, y, k, n) && !Blocked(src, selected, y, k, n)
  {
    hide Early, Up;
    if BelowStart(src, selected, y, k, n) {
      forall m | 0 < m < n ensures Up(src, y, m).Some? {
        UpSplit(src, y, m, n - m);
      }
    }
  }

  lemma RelatedBelow(src: seq<Goroutine>, selected: seq<Goroutine>, y: Goroutine)
    requires !Early(src, selected, |selected|, y)
    ensures Related(src, selected, y) <==> exists k: nat, n: nat :: BelowStart(src, selected, y, k, n)
  {
    if Related(src, selected, y) {
      var s :| s in selected && (AtOrAbove(src, s, y) || AtOrAbove(src, y, s));
      var k :| 0 <= k < |selected| && selected[k] == s;
      var n: nat :| Up(src, y, n) == Some(s);
      assert n == 0 ==> AtOrAbove(src, s, y) by {
        assert Up(src, s, 0) == Some(s);
      }
      assert BelowStart(src, selected, y, k, n);
    }
    if k: nat, n: nat :| BelowStart(src, selected, y, k, n) {
      assert selected[k] in selected && AtOrAbove(src, y, selected[k]);
    }
  }

  lemma MissedExactly(src: seq<Goroutine>, selected: seq<Goroutine>, y: Goroutine)
    ensures Missed(src, selected, y) <==> Related(src, selected, y) && !InClosure(src, selected, y)
  {
    hide Early, Related, Reached, BelowStart, Blocked;
    forall k: nat, n: nat
      ensures Reached(src, selected, y, k, n) <==>
              BelowStart(src, selected, y, k, n) && !Blocked(src, selected, y, k, n)
    {
      NotBlockedReached(src, selected, y, k, n);
    }
    if !Early(src, selected, |selected|, y) {
      RelatedBelow(src, selected, y);
    }
  }

  /**
   * Main result on completeness: graph answers with exactly the selected
   * goroutines, their ancestors and their descendants if and only if no
   * goroutine is missed.
   */
  lemma GraphFull(src: seq<Goroutine>, selected: seq<Goroutine>)
    requires UniqueIds(src) && forall s | s in selected :: s in src
    ensures (forall y | y in src :: y in InGraph(src, selected) <==> Related(src, selected, y)) <==>
            (forall y | y in src :: !Missed(src, selected, y))
  {
    hide InGraph, Members, ParentClosedBut, InClosure, Related, Missed;
    GraphExactly(src, selected);
    forall y | y in src
      ensures Missed(src, selected, y) <==> !(y in InGraph(src, selected) <==> Related(src, selected, y))
    {
      MissedExactly(src, selected, y);
      if InClosure(src, selected, y) {
        ClosureRelated(src, selected, y);
      }
    }
  }

  /** If ancestors come first, nothing is missed. */
  lemma AncestorsFirstIsEnough(src: seq<Goroutine>, selected: seq<Goroutine>)
    requires AncestorsFirst(src, selected)
    ensures forall y | y in src :: !Missed(src, selected, y)
  {
    hide AncestorsFirst, Missed, InClosure;
    forall y | y in src && Related(src, selected, y) ensures InClosure(src, selected, y) {
      var s :| s in selected && (AtOrAbove(src, s, y) || AtOrAbove(src, y, s));
      var k :| 0 <= k < |selected| && selected[k] == s;
      if AtOrAbove(src, y, s) {
        var n: nat :| Up(src, y, n) == Some(s);
        ShortestReached(src, selected, y, k, n);
      } else {
        EarlyInClosure(src, selected, k, y);
      }
    }
    forall y | y in src ensures !Missed(src, selected, y) {
      MissedExactly(src, selected, y);
    }
  }

  lemma EarlyInClosure(src: seq<Goroutine>, selected: seq<Goroutine>, k: nat, y: Goroutine)
    requires k < |selected| && AtOrAbove(src, selected[k], y)
    ensures InClosure(src, selected, y)
  {
    hide AtOrAbove;
  }

  lemma {:induction false} IdsDecreaseUpwards(src: seq<Goroutine>, g: Goroutine, n: nat)
    requires g in src && forall x | x in src :: x.createdBy < x.id
    ensures Up(src, g, n).Some? ==> Up(src, g, n).value.id <= g.id - n
  {
    if n > 0 {
      IdsDecreaseUpwards(src, g, n - 1);
      UpMember(src, g, n - 1);
    }
  }

  lemma AboveIsSmaller(src: seq<Goroutine>, g: Goroutine, z: Goroutine)
    requires g in src && (forall x | x in src :: x.createdBy < x.id) && AtOrAbove(src, g, z)
    ensures z == g || z.id < g.id
  {
    var n: nat :| Up(src, g, n) == Some(z);
    IdsDecreaseUpwards(src, g, n);
  }

  /** The usual case: a goroutine is created by one with a smaller ID, and the selection is in ID order. */
  lemma IdOrderIsEnough(src: seq<Goroutine>, selected: seq<Goroutine>)
    requires (forall s | s in selected :: s in src) && SortedById(selected)
    requires forall x | x in src :: x.createdBy < x.id
    ensures AncestorsFirst(src, selected)
  {
    hide AtOrAbove;
    forall k: nat, z | k < |selected| && z in src && z != selected[k] && AtOrAbove(src, z, selected[k])
      ensures !Early(src, selected, k + 1, z)
    {
      AboveIsSmaller(src, z, selected[k]);
      forall j | 0 <= j < k + 1 && AtOrAbove(src, selected[j], z) ensures z.id <= selected[j].id {
        assert selected[j] in selected;
        AboveIsSmaller(src, selected[j], z);
      }
    }
  }

  function Plain(id: int, createdBy: int): Goroutine {
    Goroutine(id, "", "", 0, createdBy, "", 1, map[], 0, 0)
  }

  // Goroutines 4 and 5 are children of 3, and 3 of 2; 4 comes first.
  const UNORDERED: seq<Goroutine> := [Plain(4, 3), Plain(3, 2), Plain(2, 0), Plain(5, 3)]

  lemma OrderMattersParents()
    ensures ById(UNORDERED, 3) == Some(Plain(3, 2)) && ById(UNORDERED, 2) == Some(Plain(2, 0)) &&
            ById(UNORDERED, 0) == None
  {
    var rest := UNORDERED[1..];
    assert rest == [Plain(3, 2), Plain(2, 0), Plain(5, 3)];
    assert rest[1..] == [Plain(2, 0), Plain(5, 3)];
    assert ById(rest[1..], 2) == Some(Plain(2, 0));
    assert rest[1..][1..] == [Plain(5, 3)];
    assert rest[1..][1..][1..] == [];
    assert ById(rest[1..][1..], 0) == None;
    assert ById(rest[1..], 0) == None;
    assert ById(rest, 0) == None;
  }

  lemma {:induction false} OrderMattersChains(n: nat)
    ensures Up(UNORDERED, Plain(5, 3), n) ==
            (if n == 0 then Some(Plain(5, 3)) else if n == 1 then Some(Plain(3, 2))
             else if n == 2 then Some(Plain(2, 0)) else None)
    ensures Up(UNORDERED, Plain(4, 3), n) ==
            (if n == 0 then Some(Plain(4, 3)) else if n == 1 then Some(Plain(3, 2))
             else if n == 2 then Some(Plain(2, 0)) else None)
    ensures Up(UNORDERED, Plain(2, 0), n) == if n == 0 then Some(Plain(2, 0)) else None
  {
    hide ById;
    OrderMattersParents();
    if n > 0 {
      OrderMattersChains(n - 1);
    }
  }

  /** Without the order a descendant can be missed: with 4 selected before 2, goroutine 5 is below 2 and not found. */
  lemma OrderMatters()
    ensures var selected := [Plain(4, 3), Plain(2, 0)];
            && UniqueIds(UNORDERED) && (forall s | s in selected :: s in UNORDERED)
            && Related(UNORDERED, selected, Plain(5, 3))
            && Plain(5, 3) !in InGraph(UNORDERED, selected)
  {
    hide Up, InGraph, Members, ParentClosedBut;
    var src, selected, five := UNORDERED, [Plain(4, 3), Plain(2, 0)], Plain(5, 3);
    assert src[0] == Plain(4, 3) && src[2] == Plain(2, 0) && src[3] == five;
    assert Related(src, selected, five) by {
      OrderMattersChains(2);
      assert selected[1] in selected && AtOrAbove(src, five, selected[1]);
    }
    forall s, n: nat | s in selected ensures Up(src, s, n) != Some(five) {
      OrderMattersChains(n);
    }
    forall k: nat, n: nat ensures !Reached(src, selected, five, k, n) {
      OrderMattersChains(n);
      OrderMattersChains(1);
      assert AtOrAbove(src, selected[0], Plain(3, 2));
      assert Early(src, selected, 2, Plain(3, 2));
    }
    GraphExactly(src, selected);
  }
}
