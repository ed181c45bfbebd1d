/** Goroutines and goroutine dumps (internal/goroutines.go). */
module Goroutines {
  import opened Results

  /** A goroutine that has been read completely; it never changes again. */
  datatype Goroutine = Goroutine(
    id: int,
    header: string,
    state: string,
    duration: int,
    createdBy: int,
    trace: string,
    lineCount: int,
    labels: map<string, string>,
    dups: nat,
    hash: nat)

  /** The part of a dump object the virtual machine reads and writes. */
  datatype Dump = Dump(goroutines: seq<Goroutine>, iter: nat, indexed: bool)

  /** Two goroutines with the same ID and the same trace hash count as the same one. */
  predicate SameKey(a: Goroutine, b: Goroutine) {
    a.id == b.id && a.hash == b.hash
  }

  function IdList(gs: seq<Goroutine>): seq<int> {
    seq(|gs|, i requires 0 <= i < |gs| => gs[i].id)
  }

  /** The goroutines for which pred is as wanted, in order. */
  function Kept(gs: seq<Goroutine>, pred: Goroutine -> bool, wanted: bool): seq<Goroutine> {
    if gs == [] then []
    else if pred(gs[0]) == wanted then [gs[0]] + Kept(gs[1..], pred, wanted)
    else Kept(gs[1..], pred, wanted)
  }

  /** The IDs of the goroutines, each with its trace hash. */
  ghost function Keys(gs: seq<Goroutine>): set<(int, nat)> {
    set g | g in gs :: (g.id, g.hash)
  }

  predicate Has(gs: seq<Goroutine>, p: Goroutine) {
    exists i | 0 <= i < |gs| :: SameKey(gs[i], p)
  }

  /** The first goroutine with the given ID. */
  function ById(gs: seq<Goroutine>, id: int): (r: Option<Goroutine>)
    ensures r.None? ==> forall g | g in gs :: g.id != id
    ensures r.Some? ==> r.value in gs && r.value.id == id
  {
    if gs == [] then None
    else if gs[0].id == id then Some(gs[0])
    else ById(gs[1..], id)
  }

  /** The goroutines of gs that are also in other, in order. */
  function Shared(gs: seq<Goroutine>, other: seq<Goroutine>): seq<Goroutine> {
    if gs == [] then []
    else (if Has(other, gs[0]) then [gs[0]] else []) + Shared(gs[1..], other)
  }

  /** The goroutines of gs that are not in other, in order. */
  function Unshared(gs: seq<Goroutine>, other: seq<Goroutine>): seq<Goroutine> {
    if gs == [] then []
    else (if Has(other, gs[0]) then [] else [gs[0]]) + Unshared(gs[1..], other)
  }
}
