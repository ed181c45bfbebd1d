/** The created-by graph of a dump (internal/graph.go). */
module Graphs {
  import opened Results
  import opened Goroutines

  /** How many goroutines of src the result does not have yet. */
  function Missing(src: seq<Goroutine>, result: seq<Goroutine>): nat {
    if src == [] then 0
    else (if Has(result, src[0]) then 0 else 1) + Missing(src[1..], result)
  }

  lemma HasGrows(result: seq<Goroutine>, more: seq<Goroutine>, g: Goroutine)
    ensures Has(result + more, g) <==> Has(result, g) || Has(more, g)
  {
    var all := result + more;
    if Has(result, g) {
      var i :| 0 <= i < |result| && SameKey(result[i], g);
      assert SameKey(all[i], g);
    }
    if Has(more, g) {
      var i :| 0 <= i < |more| && SameKey(more[i], g);
      assert SameKey(all[|result| + i], g);
    }
  }

  lemma {:induction false} MissingShrinks(src: seq<Goroutine>, result: seq<Goroutine>, more: seq<Goroutine>)
    ensures Missing(src, result + more) <= Missing(src, result)
    ensures (exists g :: g in src && g in more && !Has(result, g)) ==>
            Missing(src, result + more) < Missing(src, result)
  {
    if src != [] {
      HasGrows(result, more, src[0]);
      MissingShrinks(src[1..], result, more);
      if src[0] in more {
        assert SameKey(src[0], src[0]);
        assert Has(more, src[0]);
      }
    }
  }

  /** graphAncestors: follow created-by links until there is no parent or the parent is already in the result. */
  function Ascend(src: seq<Goroutine>, g: Goroutine, result: seq<Goroutine>): seq<Goroutine>
    decreases Missing(src, result)
  {
    match ById(src, g.createdBy)
    case None => result
    case Some(parent) =>
      if Has(result, parent) then result
      else
        MissingShrinks(src, result, [parent]);
        Ascend(src, parent, result + [parent])
  }

  /** The children of parent among gs that the result does not have, in order. */
  function NewChildren(gs: seq<Goroutine>, parent: Goroutine, result: seq<Goroutine>): (r: seq<Goroutine>)
    ensures forall g | g in r :: g in gs && g.createdBy == parent.id && !Has(result, g)
  {
    if gs == [] then []
    else if gs[0].createdBy == parent.id && !Has(result, gs[0]) then
      var rest := NewChildren(gs[1..], parent, result + [gs[0]]);
      assert forall g | g in rest :: !Has(result, g) by {
        forall g | g in rest ensures !Has(result, g) { HasGrows(result, [gs[0]], g); }
      }
      [gs[0]] + rest
    else NewChildren(gs[1..], parent, result)
  }

  /** graphDescendants: a work list of goroutines whose children are still to be added. */
  function Descend(src: seq<Goroutine>, queue: seq<Goroutine>, result: seq<Goroutine>): seq<Goroutine>
    decreases Missing(src, result), |queue|
  {
    if queue == [] then result
    else
      var added := NewChildren(src, queue[0], result);
      MissingShrinks(src, result, added);
      assert added != [] ==> added[0] in src && added[0] in added && !Has(result, added[0]);
      assert added == [] ==> result + added == result;
      Descend(src, queue[1..] + added, result + added)
  }

  /** One round of inGraphOf: the selected goroutine, its ancestors, then its descendants. */
  function Round(src: seq<Goroutine>, g: Goroutine, result: seq<Goroutine>): seq<Goroutine> {
    var added := if Has(result, g) then result else result + [g];
    Descend(src, [g], Ascend(src, g, added))
  }

  function Rounds(src: seq<Goroutine>, selected: seq<Goroutine>, result: seq<Goroutine>): seq<Goroutine>
    decreases |selected|
  {
    if selected == [] then result
    else Rounds(src, selected[1..], Round(src, selected[0], result))
  }

  /** The goroutines inGraphOf collects, before they are sorted. */
  function InGraph(src: seq<Goroutine>, selected: seq<Goroutine>): seq<Goroutine> {
    Rounds(src, selected, [])
  }

  // ----- the loops of the source -----

  method FindById(gs: seq<Goroutine>, id: int) returns (r: Option<Goroutine>)
    ensures r == ById(gs, id)
  {
    assert gs[0..] == gs;
    for i := 0 to |gs|
      invariant ById(gs, id) == ById(gs[i..], id)
    {
      assert gs[i..][0] == gs[i] && gs[i..][1..] == gs[i + 1..];
      if gs[i].id == id {
        return Some(gs[i]);
      }
    }
    return None;
  }

  lemma HasKey(gs: seq<Goroutine>, p: Goroutine)
    ensures Has(gs, p) <==> (p.id, p.hash) in Keys(gs)
  {
    if Has(gs, p) {
      var i :| 0 <= i < |gs| && SameKey(gs[i], p);
      assert gs[i] in gs;
    }
    if (p.id, p.hash) in Keys(gs) {
      var g :| g in gs && (g.id, g.hash) == (p.id, p.hash);
      assert SameKey(g, p);
    }
  }

  method HasGoroutine(gs: seq<Goroutine>, p: Goroutine) returns (r: bool)
    ensures r == Has(gs, p)
    ensures r == ((p.id, p.hash) in Keys(gs))
  {
    HasKey(gs, p);
    for i := 0 to |gs|
      invariant forall j | 0 <= j < i :: !SameKey(gs[j], p)
    {
      if SameKey(gs[i], p) {
        return true;
      }
    }
    return false;
  }

  method GraphAncestors(src: seq<Goroutine>, g: Goroutine, result: seq<Goroutine>) returns (r: seq<Goroutine>)
    ensures r == Ascend(src, g, result)
  {
    var stack := [g];
    r := result;
    while stack != []
      invariant |stack| <= 1
      invariant Ascend(src, g, result) == if stack == [] then r else Ascend(src, stack[0], r)
      decreases Missing(src, r), |stack|
    {
      var next := stack[0];
      stack := stack[1..];
      var parent := FindById(src, next.createdBy);
      if parent.Some? {
        var present := HasGoroutine(r, parent.value);
        if !present {
          MissingShrinks(src, r, [parent.value]);
          r := r + [parent.value];
          stack := stack + [parent.value];
        }
      }
    }
  }

  lemma ChildStep(src: seq<Goroutine>, i: nat, parent: Goroutine, r: seq<Goroutine>)
    requires i < |src|
    ensures NewChildren(src[i..], parent, r) ==
            if src[i].createdBy == parent.id && !Has(r, src[i]) then
              [src[i]] + NewChildren(src[i + 1..], parent, r + [src[i]])
            else NewChildren(src[i + 1..], parent, r)
  {
    hide Has;
    assert src[i..][1..] == src[i + 1..];
  }

  lemma NoChildren(parent: Goroutine, r: seq<Goroutine>)
    ensures NewChildren([], parent, r) == []
  {
  }

  /** The inner loop of graphDescendants: new children go to the result and to the work list. */
  method AddChildren(src: seq<Goroutine>, parent: Goroutine, result: seq<Goroutine>, stack: seq<Goroutine>)
    returns (r: seq<Goroutine>, work: seq<Goroutine>)
    ensures r == result + NewChildren(src, parent, result) && work == stack + NewChildren(src, parent, result)
  {
    hide Has, NewChildren;
    r, work := result, stack;
    ghost var added := [];
    NoChildren(parent, result);
    assert src[0..] == src && src[|src|..] == [] && result + [] == result && stack + [] == stack;
    for i := 0 to |src|
      invariant r == result + added && work == stack + added
      invariant NewChildren(src, parent, result) == added + NewChildren(src[i..], parent, r)
    {
      var g := src[i];
      ChildStep(src, i, parent, r);
      if parent.id == g.createdBy {
        var present := HasGoroutine(r, g);
        if !present {
          r := r + [g];
          work := work + [g];
          added := added + [g];
        }
      }
    }
    NoChildren(parent, r);
    assert added == NewChildren(src, parent, result);
  }

  method GraphDescendants(src: seq<Goroutine>, parent: Goroutine, result: seq<Goroutine>) returns (r: seq<Goroutine>)
    ensures r == Descend(src, [parent], result)
  {
    var stack := [parent];
    r := result;
    while stack != []
      invariant Descend(src, [parent], result) == Descend(src, stack, r)
      decreases Missing(src, r), |stack|
    {
      ghost var added := NewChildren(src, stack[0], r);
      MissingShrinks(src, r, added);
      assert added != [] ==> added[0] in src && added[0] in added && !Has(r, added[0]);
      assert added == [] ==> r + added == r;
      r, stack := AddChildren(src, stack[0], r, stack[1..]);
    }
  }

  method InGraphOf(src: seq<Goroutine>, selected: seq<Goroutine>) returns (r: seq<Goroutine>)
    ensures r == InGraph(src, selected)
  {
    r := [];
    assert selected[0..] == selected;
    for i := 0 to |selected|
      invariant InGraph(src, selected) == Rounds(src, selected[i..], r)
    {
      var g := selected[i];
      assert selected[i..][0] == g && selected[i..][1..] == selected[i + 1..];
      var present := HasGoroutine(r, g);
      if !present {
        r := r + [g];
      }
      r := GraphAncestors(src, g, r);
      r := GraphDescendants(src, g, r);
    }
  }
}
