/** The node and edge bookkeeping of the dot export (internal/graph.go). */
module Dot {
  import opened Goroutines
  import opened GraphClosure

  /** An arrow between two IDs. */
  datatype Link = Link(source: int, target: int)

  /** An arrow as it is drawn; known says that its source is drawn as a record of the dump. */
  datatype Edge = Edge(source: int, target: int, known: bool)

  function Ids(gs: seq<Goroutine>): set<int> {
    set g | g in gs :: g.id
  }

  function ParentIds(gs: seq<Goroutine>): set<int> {
    set g | g in gs && g.createdBy > 0 :: g.createdBy
  }

  function LinkOf(g: Goroutine): seq<Link> {
    if g.createdBy > 0 then [Link(g.createdBy, g.id)] else []
  }

  /** One arrow per goroutine with a parent, in dump order. */
  function Links(gs: seq<Goroutine>): seq<Link> {
    if gs == [] then [] else Links(gs[..|gs| - 1]) + LinkOf(gs[|gs| - 1])
  }

  /** The goroutines with a parent, as pairs of the parent's ID and their own. */
  function ParentPairs(gs: seq<Goroutine>): seq<(int, int)> {
    if gs == [] then []
    else (if gs[0].createdBy > 0 then [(gs[0].createdBy, gs[0].id)] else []) + ParentPairs(gs[1..])
  }

  lemma {:induction false} PairsConcat(a: seq<Goroutine>, b: seq<Goroutine>)
    ensures ParentPairs(a + b) == ParentPairs(a) + ParentPairs(b)
  {
    if a == [] {
      assert a + b == b;
    } else {
      assert (a + b)[0] == a[0] && (a + b)[1..] == a[1..] + b;
      PairsConcat(a[1..], b);
    }
  }

  /** The arrows are those pairs, in dump order. */
  lemma {:induction false} LinksArePairs(gs: seq<Goroutine>)
    ensures |Links(gs)| == |ParentPairs(gs)|
    ensures forall k | 0 <= k < |Links(gs)| :: (Links(gs)[k].source, Links(gs)[k].target) == ParentPairs(gs)[k]
    decreases |gs|
  {
    if gs != [] {
      var front, last := gs[..|gs| - 1], gs[|gs| - 1];
      assert gs == front + [last];
      LinksArePairs(front);
      PairsConcat(front, [last]);
      assert [last][1..] == [] && ParentPairs([last][1..]) == [];
    }
  }

  /** Each arrow, with whether its source is in the dump. */
  function Drawn(links: seq<Link>, ids: set<int>): seq<Edge> {
    seq(|links|, i requires 0 <= i < |links| => Edge(links[i].source, links[i].target, links[i].source in ids))
  }

  lemma IdsStep(gs: seq<Goroutine>, i: nat)
    requires i < |gs|
    ensures Ids(gs[..i + 1]) == Ids(gs[..i]) + {gs[i].id}
    ensures ParentIds(gs[..i + 1]) == ParentIds(gs[..i]) + (if gs[i].createdBy > 0 then {gs[i].createdBy} else {})
    ensures IdList(gs[..i + 1]) == IdList(gs[..i]) + [gs[i].id]
    ensures Links(gs[..i + 1]) == Links(gs[..i]) + LinkOf(gs[i])
  {
    var a, b := gs[..i], gs[..i + 1];
    assert b == a + [gs[i]];
    assert b[..|b| - 1] == a;
  }

  /** The one pass over the goroutines; unknown is exact at the end whatever their order. */
  method Scan(gs: seq<Goroutine>) returns (records: seq<int>, unknown: set<int>, links: seq<Link>)
    ensures records == IdList(gs)
    ensures unknown == ParentIds(gs) - Ids(gs)
    ensures links == Links(gs)
  {
    hide *;
    records, unknown, links := [], {}, [];
    var seen: set<int> := {};
    ScanStarts();
    assert gs[..0] == [];
    for i := 0 to |gs|
      invariant records == IdList(gs[..i]) && links == Links(gs[..i])
      invariant seen == Ids(gs[..i]) && unknown == ParentIds(gs[..i]) - Ids(gs[..i])
    {
      var g := gs[i];
      IdsStep(gs, i);
      LinkOfParent(g);
      seen := seen + {g.id};
      unknown := unknown - {g.id};
      records := records + [g.id];
      if g.createdBy > 0 {
        if g.createdBy !in seen {
          unknown := unknown + {g.createdBy};
        }
        links := links + [Link(g.createdBy, g.id)];
      }
    }
    assert gs[..|gs|] == gs;
  }

  lemma ScanStarts()
    ensures Ids([]) == {} && ParentIds([]) == {} && IdList([]) == [] && Links([]) == []
  {
  }

  lemma LinkOfParent(g: Goroutine)
    ensures LinkOf(g) == if g.createdBy > 0 then [Link(g.createdBy, g.id)] else []
  {
  }

  lemma KnownIds(gs: seq<Goroutine>)
    ensures forall id :: id in Ids(gs) <==> exists g :: g in gs && g.id == id
  {
  }

  /** Records for the goroutines of the dump, ovals for the other parents, and the edges between them. */
  method Export(gs: seq<Goroutine>) returns (records: seq<int>, ovals: set<int>, edges: seq<Edge>)
    ensures records == IdList(gs)
    ensures ovals == ParentIds(gs) - Ids(gs)
    ensures edges == Drawn(Links(gs), Ids(gs))
    ensures |edges| == |ParentPairs(gs)|
    ensures forall k | 0 <= k < |edges| ::
              && (edges[k].source, edges[k].target) == ParentPairs(gs)[k]
              && (edges[k].known <==> exists g :: g in gs && g.id == edges[k].source)
  {
    LinksArePairs(gs);
    KnownIds(gs);
    hide Ids, ParentIds, IdList, Links, ParentPairs;
    var links;
    records, ovals, links := Scan(gs);
    edges := [];
    for i := 0 to |links|
      invariant |edges| == i
      invariant forall k | 0 <= k < i :: edges[k] == Edge(links[k].source, links[k].target, links[k].source in Ids(gs))
    {
      var unknownSource := links[i].source in ovals;
      LinkFromParent(gs, links[i]);
      edges := edges + [Edge(links[i].source, links[i].target, !unknownSource)];
    }
  }

  /** Every arrow starts at a parent ID and ends at a record. */
  lemma {:induction false} LinkFromParent(gs: seq<Goroutine>, l: Link)
    requires l in Links(gs)
    ensures l.source in ParentIds(gs) && l.target in Ids(gs)
    decreases |gs|
  {
    if gs != [] {
      var last := gs[|gs| - 1];
      assert gs == gs[..|gs| - 1] + [last];
      if l in Links(gs[..|gs| - 1]) {
        LinkFromParent(gs[..|gs| - 1], l);
      }
    }
  }

  /** A goroutine with a parent has its arrow. */
  lemma {:induction false} ParentLinked(gs: seq<Goroutine>, g: Goroutine)
    requires g in gs && g.createdBy > 0
    ensures Link(g.createdBy, g.id) in Links(gs)
    decreases |gs|
  {
    var last := gs[|gs| - 1];
    assert gs == gs[..|gs| - 1] + [last];
    if g == last {
      assert Link(g.createdBy, g.id) == LinkOf(last)[0];
    } else {
      ParentLinked(gs[..|gs| - 1], g);
    }
  }

  lemma {:induction false} RecordsCounted(gs: seq<Goroutine>, x: int)
    requires UniqueIds(gs)
    ensures multiset(IdList(gs))[x] == if x in Ids(gs) then 1 else 0
    decreases |gs|
  {
    if gs != [] {
      var front, last := gs[..|gs| - 1], gs[|gs| - 1];
      assert gs == front + [last];
      RecordsCounted(front, x);
      assert IdList(gs) == IdList(front) + [last.id];
      assert Ids(gs) == Ids(front) + {last.id};
      forall g | g in front ensures g.id != last.id {
        var k :| 0 <= k < |front| && front[k] == g;
        assert gs[k] == g;
      }
    }
  }

  /**
   * Every edge's source is declared, as a record if it is in the dump and as an
   * oval otherwise, and with unique IDs exactly once.
   */
  lemma DeclaredOnce(gs: seq<Goroutine>, e: Edge)
    requires e in Drawn(Links(gs), Ids(gs))
    ensures e.known <==> e.source in Ids(gs)
    ensures e.source in Ids(gs) || e.source in ParentIds(gs) - Ids(gs)
    ensures UniqueIds(gs) ==>
              multiset(IdList(gs))[e.source] + multiset(ParentIds(gs) - Ids(gs))[e.source] == 1
  {
    var k :| 0 <= k < |Links(gs)| && Drawn(Links(gs), Ids(gs))[k] == e;
    LinkFromParent(gs, Links(gs)[k]);
    if UniqueIds(gs) {
      RecordsCounted(gs, e.source);
    }
  }
}
