/**
 * The dump object (internal/goroutines.go): iteration, the lazily built
 * de-duplication index, and paged printing.
 */
module Dumps {
  import opened Results
  import opened Goroutines
  import opened SetOps

  // ----- the index as a function of the goroutines -----

  /** The IDs of the goroutines with hash h, in dump order. */
  function IdsWith(gs: seq<Goroutine>, h: nat): seq<int>
    decreases |gs|
  {
    if gs == [] then []
    else
      var last := gs[|gs| - 1];
      IdsWith(gs[..|gs| - 1], h) + (if last.hash == h then [last.id] else [])
  }

  function Hashes(gs: seq<Goroutine>): set<nat> {
    set i | 0 <= i < |gs| :: gs[i].hash
  }

  /** The goroutines whose hash has not occurred before them. */
  function Firsts(gs: seq<Goroutine>): seq<Goroutine>
    decreases |gs|
  {
    if gs == [] then []
    else
      var front, last := gs[..|gs| - 1], gs[|gs| - 1];
      Firsts(front) + (if last.hash in Hashes(front) then [] else [last])
  }

  datatype Mode = ByIds | ByNumber | Plain

  /** What is printed for one goroutine: itself, and the duplicate IDs it is printed with. */
  datatype Printed = Printed(g: Goroutine, duplicates: seq<int>)

  function Min(a: int, b: int): int {
    if a < b then a else b
  }

  function SafeLimit(size: nat, limit: int, offset: nat): int {
    if limit == 0 then size - offset else Min(limit, size - offset)
  }

  /** The items from offset on, at most limit of them unless limit is 0. */
  function Page<T>(items: seq<T>, limit: int, offset: nat): seq<T> {
    if offset >= |items| || limit < 0 then []
    else if limit == 0 || offset + limit > |items| then items[offset..]
    else items[offset..offset + limit]
  }

  /** The goroutines of all from offset on, limit of them or as many as are left. */
  ghost predicate Shows(printed: seq<Printed>, all: seq<Goroutine>, limit: int, offset: nat) {
    && (offset >= |all| || limit < 0 ==> printed == [])
    && (offset < |all| && (limit == 0 || limit > |all| - offset) ==> |printed| == |all| - offset)
    && (offset < |all| && 0 < limit <= |all| - offset ==> |printed| == limit)
    && (forall i | 0 <= i < |printed| :: offset + i < |all| && printed[i].g == all[offset + i])
  }

  class GoroutineDump {
    var goroutines: seq<Goroutine>
    var index: seq<Goroutine>
    var duplicates: map<nat, seq<int>>
    var isIndexed: bool
    var iterIndex: nat

    /**
     * An index that has been built is the one of the goroutines: the first of each hash, and for each hash the
     * IDs of the others.
     */
    ghost predicate Valid()
      reads this
    {
      isIndexed ==> IndexOk(goroutines, index, duplicates)
    }

    constructor ()
      ensures Valid() && goroutines == [] && !isIndexed && iterIndex == 0
    {
      goroutines, index, duplicates, isIndexed, iterIndex := [], [], map[], false, 0;
    }

    /** Add: an indexed dump must not change; the append happens before the panic. */
    method Add(g: Goroutine) returns (panic: bool)
      modifies this`goroutines
      ensures goroutines == old(goroutines) + [g] && panic == isIndexed
    {
      goroutines := goroutines + [g];
      panic := isIndexed;
    }

    method StartIter()
      modifies this`iterIndex
      ensures iterIndex == 0
    {
      iterIndex := 0;
    }

    method Next() returns (g: Option<Goroutine>)
      modifies this`iterIndex
      ensures old(iterIndex) >= |goroutines| ==> g.None? && iterIndex == old(iterIndex)
      ensures old(iterIndex) < |goroutines| ==> g == Some(goroutines[old(iterIndex)]) && iterIndex == old(iterIndex) + 1
    {
      if iterIndex >= |goroutines| {
        return None;
      }
      g := Some(goroutines[iterIndex]);
      iterIndex := iterIndex + 1;
    }

    /** Index: built once, in one pass. */
    method Index()
      requires Valid()
      modifies this`index, this`duplicates, this`isIndexed
      ensures Valid() && isIndexed && IndexOk(goroutines, index, duplicates)
      ensures old(isIndexed) ==> index == old(index) && duplicates == old(duplicates)
    {
      if isIndexed {
        return;
      }
      isIndexed := true;
      index := [];
      duplicates := map[];
      for i := 0 to |goroutines|
        invariant isIndexed && IndexOk(goroutines[..i], index, duplicates)
      {
        var g := goroutines[i];
        assert goroutines[..i + 1] == goroutines[..i] + [g];
        IndexStep(goroutines[..i], g, index, duplicates);
        if g.hash in duplicates {
          duplicates := duplicates[g.hash := duplicates[g.hash] + [g.id]];
        } else {
          duplicates := duplicates[g.hash := []];
          index := index + [g];
        }
      }
      assert goroutines[..|goroutines|] == goroutines;
    }

    /** Show: a page of the dump, or of its index with the duplicates of each goroutine. */
    method Show(mode: Mode, limit: int, offset: nat) returns (printed: seq<Printed>)
      requires Valid()
      modifies this`index, this`duplicates, this`isIndexed
      ensures Valid() && goroutines == old(goroutines)
      ensures printed == Page(Items(mode), limit, offset) && (mode != Plain ==> isIndexed)
      ensures Shows(printed, if mode == Plain then goroutines else index, limit, offset)
      ensures mode == Plain ==> forall x | x in printed :: x.duplicates == []
      ensures mode != Plain ==>
                forall x | x in printed :: x.g in goroutines && [x.g.id] + x.duplicates == IdsWith(goroutines, x.g.hash)
      ensures mode != Plain && limit == offset == 0 ==> multiset(PrintedIds(printed)) == multiset(IdList(goroutines))
    {
      hide Page, IndexOk, PlainPrinted, IndexPrinted, DuplicatesOf, PrintedIds, IdsWith, IdList;
      if mode == Plain {
        PlainShows(goroutines, limit, offset);
        printed := ShowPlain(limit, offset);
        return;
      }
      if !isIndexed {
        Index();
      }
      IndexShows(goroutines, index, duplicates, limit, offset);
      printed := ShowIndex(limit, offset);
    }

    method ShowPlain(limit: int, offset: nat) returns (printed: seq<Printed>)
      ensures printed == Page(PlainPrinted(goroutines), limit, offset)
    {
      hide Page, PlainPrinted;
      printed := [];
      ghost var items := PlainPrinted(goroutines);
      var count := SafeLimit(|goroutines|, limit, offset);
      PageContents(items, limit, offset);
      var i := offset;
      while i < offset + count
        invariant offset <= i && (i == offset || i <= offset + count)
        invariant printed == Page(items, limit, offset)[..i - offset]
        decreases offset + count - i
      {
        printed := printed + [Printed(goroutines[i], [])];
        i := i + 1;
      }
    }

    method ShowIndex(limit: int, offset: nat) returns (printed: seq<Printed>)
      ensures printed == Page(IndexPrinted(index, duplicates), limit, offset)
    {
      hide Page, IndexPrinted, DuplicatesOf;
      printed := [];
      ghost var items := IndexPrinted(index, duplicates);
      var count := SafeLimit(|index|, limit, offset);
      PageContents(items, limit, offset);
      var i := offset;
      while i < offset + count
        invariant offset <= i && (i == offset || i <= offset + count)
        invariant printed == Page(items, limit, offset)[..i - offset]
        decreases offset + count - i
      {
        var g := index[i];
        printed := printed + [Printed(g, DuplicatesOf(duplicates, g.hash))];
        i := i + 1;
      }
    }

    /** All that Show would print in a mode. */
    function Items(mode: Mode): (items: seq<Printed>)
      reads this
    {
      if mode == Plain then PlainPrinted(goroutines) else IndexPrinted(index, duplicates)
    }
  }

  /** A lookup of a missing key gives no duplicates. */
  function DuplicatesOf(duplicates: map<nat, seq<int>>, h: nat): seq<int> {
    if h in duplicates then duplicates[h] else []
  }

  function PlainPrinted(gs: seq<Goroutine>): (items: seq<Printed>)
    ensures |items| == |gs| && forall i | 0 <= i < |gs| :: items[i] == Printed(gs[i], [])
  {
    seq(|gs|, i requires 0 <= i < |gs| => Printed(gs[i], []))
  }

  function IndexPrinted(index: seq<Goroutine>, duplicates: map<nat, seq<int>>): (items: seq<Printed>)
    ensures |items| == |index|
    ensures forall i | 0 <= i < |index| :: items[i] == Printed(index[i], DuplicatesOf(duplicates, index[i].hash))
  {
    seq(|index|, i requires 0 <= i < |index| => Printed(index[i], DuplicatesOf(duplicates, index[i].hash)))
  }

  ghost predicate IndexOk(gs: seq<Goroutine>, index: seq<Goroutine>, duplicates: map<nat, seq<int>>) {
    && index == Firsts(gs)
    && duplicates.Keys == Hashes(gs)
    && forall h | h in duplicates :: IdsWith(gs, h) != [] && duplicates[h] == IdsWith(gs, h)[1..]
  }

  lemma PageContents<T>(items: seq<T>, limit: int, offset: nat)
    ensures var count := SafeLimit(|items|, limit, offset);
            var page := Page(items, limit, offset);
            && |page| == (if count < 0 then 0 else count)
            && forall j | 0 <= j < |page| :: page[j] == items[offset + j]
  {
  }

  // ----- the index is a partition -----

  lemma IndexStep(gs: seq<Goroutine>, g: Goroutine, index: seq<Goroutine>, duplicates: map<nat, seq<int>>)
    requires IndexOk(gs, index, duplicates)
    ensures g.hash in duplicates ==>
              IndexOk(gs + [g], index, duplicates[g.hash := duplicates[g.hash] + [g.id]])
    ensures g.hash !in duplicates ==>
              IndexOk(gs + [g], index + [g], duplicates[g.hash := []])
  {
    hide IdsWith, Firsts, Hashes;
    HashesStep(gs, g);
    FirstsStep(gs, g);
    forall h ensures IdsWith(gs + [g], h) == IdsWith(gs, h) + (if g.hash == h then [g.id] else []) {
      IdsStep(gs, g, h);
    }
    NoIds(gs, g.hash);
  }

  lemma IdsStep(gs: seq<Goroutine>, g: Goroutine, h: nat)
    ensures IdsWith(gs + [g], h) == IdsWith(gs, h) + (if g.hash == h then [g.id] else [])
  {
    var more := gs + [g];
    assert more[..|more| - 1] == gs;
  }

  lemma FirstsStep(gs: seq<Goroutine>, g: Goroutine)
    ensures Firsts(gs + [g]) == Firsts(gs) + (if g.hash in Hashes(gs) then [] else [g])
  {
    hide Hashes;
    var more := gs + [g];
    assert more[..|more| - 1] == gs;
  }

  lemma HashesStep(gs: seq<Goroutine>, g: Goroutine)
    ensures Hashes(gs + [g]) == Hashes(gs) + {g.hash}
  {
    var more := gs + [g];
    assert more[|gs|].hash == g.hash;
    forall i | 0 <= i < |gs| ensures gs[i].hash in Hashes(more) {
      assert more[i].hash == gs[i].hash;
    }
    forall i | 0 <= i < |more| ensures more[i].hash in Hashes(gs) + {g.hash} {
      if i < |gs| {
        assert more[i] == gs[i];
      }
    }
  }

  lemma {:induction false} NoIds(gs: seq<Goroutine>, h: nat)
    ensures h in Hashes(gs) <==> IdsWith(gs, h) != []
    decreases |gs|
  {
    if gs != [] {
      var front, last := gs[..|gs| - 1], gs[|gs| - 1];
      assert gs == front + [last];
      HashesStep(front, last);
      NoIds(front, h);
    }
  }

  /** The representative of hash h comes first among the goroutines with h. */
  ghost predicate Represents(gs: seq<Goroutine>, g: Goroutine) {
    IdsWith(gs, g.hash) != [] && IdsWith(gs, g.hash)[0] == g.id
  }

  lemma {:induction false} FirstsRepresent(gs: seq<Goroutine>)
    ensures forall g | g in Firsts(gs) :: g in gs && Represents(gs, g)
    ensures forall h | h in Hashes(gs) :: exists g :: g in Firsts(gs) && g.hash == h
    ensures forall i, j | 0 <= i < j < |Firsts(gs)| :: Firsts(gs)[i].hash != Firsts(gs)[j].hash
    decreases |gs|
  {
    hide IdsWith, Firsts, Hashes;
    if gs == [] {
      NoFirsts();
    } else {
      var front, last := gs[..|gs| - 1], gs[|gs| - 1];
      assert gs == front + [last];
      HashesStep(front, last);
      FirstsStep(front, last);
      FirstsRepresent(front);
      NoIds(front, last.hash);
      var fs := Firsts(front);
      forall g | g in Firsts(gs) ensures g in gs && Represents(gs, g) {
        IdsStep(front, last, g.hash);
      }
      forall h | h in Hashes(gs) ensures exists g :: g in Firsts(gs) && g.hash == h {
        if h in Hashes(front) {
          var g :| g in fs && g.hash == h;
          assert g in Firsts(gs);
        } else {
          assert last in Firsts(gs);
        }
      }
      forall i | 0 <= i < |fs| ensures fs[i].hash in Hashes(front) {
        HashIn(front, fs[i]);
      }
    }
  }

  lemma NoFirsts()
    ensures Firsts([]) == [] && Hashes([]) == {}
  {
  }

  lemma HashIn(gs: seq<Goroutine>, g: Goroutine)
    requires g in gs
    ensures g.hash in Hashes(gs)
  {
    var k :| 0 <= k < |gs| && gs[k] == g;
  }

  // ----- what the index shows -----

  /** All IDs in printed items, each goroutine's before those of its duplicates. */
  function PrintedIds(items: seq<Printed>): seq<int> {
    if items == [] then [] else [items[0].g.id] + items[0].duplicates + PrintedIds(items[1..])
  }

  /** The IDs with the hashes hs, one hash after the other. */
  ghost function Together(gs: seq<Goroutine>, hs: seq<nat>): seq<int> {
    if hs == [] then [] else IdsWith(gs, hs[0]) + Together(gs, hs[1..])
  }

  ghost predicate Distinct(hs: seq<nat>) {
    forall i, j | 0 <= i < j < |hs| :: hs[i] != hs[j]
  }

  lemma {:induction false} TogetherStep(gs: seq<Goroutine>, g: Goroutine, hs: seq<nat>)
    requires Distinct(hs)
    ensures multiset(Together(gs + [g], hs)) ==
            multiset(Together(gs, hs)) + (if g.hash in hs then multiset{g.id} else multiset{})
  {
    hide IdsWith;
    if hs != [] {
      assert hs == [hs[0]] + hs[1..];
      IdsStep(gs, g, hs[0]);
      TogetherStep(gs, g, hs[1..]);
    }
  }

  lemma {:induction false} NoneTogether(hs: seq<nat>)
    ensures Together([], hs) == []
  {
    if hs != [] {
      NoneTogether(hs[1..]);
    }
  }

  lemma {:induction false} AllTogether(gs: seq<Goroutine>, hs: seq<nat>)
    requires Distinct(hs) && forall g | g in gs :: g.hash in hs
    ensures multiset(Together(gs, hs)) == multiset(IdList(gs))
    decreases |gs|
  {
    hide Together, Distinct;
    if gs == [] {
      NoneTogether(hs);
    } else {
      var front, last := gs[..|gs| - 1], gs[|gs| - 1];
      assert gs == front + [last];
      assert IdList(gs) == IdList(front) + [last.id];
      AllTogether(front, hs);
      TogetherStep(front, last, hs);
    }
  }

  lemma {:induction false} PrintedTogether(gs: seq<Goroutine>, items: seq<Printed>, hs: seq<nat>)
    requires |hs| == |items| && forall i | 0 <= i < |items| :: items[i].g.hash == hs[i]
    requires forall x | x in items :: [x.g.id] + x.duplicates == IdsWith(gs, x.g.hash)
    ensures PrintedIds(items) == Together(gs, hs)
  {
    hide IdsWith;
    if items != [] {
      assert items[0] in items;
      PrintedTogether(gs, items[1..], hs[1..]);
    }
  }

  /** A page of items, by the size of what is shown. */
  lemma PageShows(items: seq<Printed>, all: seq<Goroutine>, limit: int, offset: nat)
    requires |items| == |all| && forall i | 0 <= i < |all| :: items[i].g == all[i]
    ensures var printed := Page(items, limit, offset);
            && Shows(printed, all, limit, offset)
            && (forall x | x in printed :: x in items)
            && (limit == offset == 0 ==> printed == items)
  {
  }

  lemma PlainShows(gs: seq<Goroutine>, limit: int, offset: nat)
    ensures var printed := Page(PlainPrinted(gs), limit, offset);
            && Shows(printed, gs, limit, offset)
            && (forall x | x in printed :: x.duplicates == [])
  {
    hide Page;
    PageShows(PlainPrinted(gs), gs, limit, offset);
  }

  lemma IndexShows(gs: seq<Goroutine>, index: seq<Goroutine>, duplicates: map<nat, seq<int>>, limit: int, offset: nat)
    requires IndexOk(gs, index, duplicates)
    ensures var printed := Page(IndexPrinted(index, duplicates), limit, offset);
            && Shows(printed, index, limit, offset)
            && (forall x | x in printed :: x.g in gs && [x.g.id] + x.duplicates == IdsWith(gs, x.g.hash))
            && (limit == offset == 0 ==> multiset(PrintedIds(printed)) == multiset(IdList(gs)))
  {
    hide Page, IdsWith, IndexOk, PrintedIds, IdList, DuplicatesOf;
    IndexHolds(gs, index, duplicates);
    PageShows(IndexPrinted(index, duplicates), index, limit, offset);
  }

  /** The index shows each goroutine with its duplicates, and every ID of the dump as often as the dump has it. */
  lemma IndexHolds(gs: seq<Goroutine>, index: seq<Goroutine>, duplicates: map<nat, seq<int>>)
    requires IndexOk(gs, index, duplicates)
    ensures var items := IndexPrinted(index, duplicates);
            && (forall x | x in items :: x.g in gs && [x.g.id] + x.duplicates == IdsWith(gs, x.g.hash))
            && multiset(PrintedIds(items)) == multiset(IdList(gs))
  {
    hide IdsWith, Firsts, Hashes, PrintedIds;
    FirstsRepresent(gs);
    var items := IndexPrinted(index, duplicates);
    forall x | x in items ensures x.g in gs && [x.g.id] + x.duplicates == IdsWith(gs, x.g.hash) {
      var i :| 0 <= i < |items| && items[i] == x;
      assert index[i] in index;
      HashIn(gs, x.g);
      NoIds(gs, x.g.hash);
    }
    var hs := seq(|items|, i requires 0 <= i < |items| => items[i].g.hash);
    PrintedTogether(gs, items, hs);
    forall g | g in gs ensures g.hash in hs {
      HashIn(gs, g);
      var f :| f in Firsts(gs) && f.hash == g.hash;
      var i :| 0 <= i < |index| && index[i] == f;
      assert hs[i] == g.hash;
    }
    AllTogether(gs, hs);
  }

  lemma {:induction false} IdsSorted(gs: seq<Goroutine>, h: nat)
    requires SortedById(gs)
    ensures forall i, j | 0 <= i < j < |IdsWith(gs, h)| :: IdsWith(gs, h)[i] <= IdsWith(gs, h)[j]
    ensures gs != [] ==> forall i | 0 <= i < |IdsWith(gs, h)| :: IdsWith(gs, h)[i] <= gs[|gs| - 1].id
    decreases |gs|
  {
    if gs != [] {
      var front := gs[..|gs| - 1];
      IdsSorted(front, h);
    }
  }

  /**
   * The index is a partition of the dump: each hash has one representative, the
   * first goroutine with it; its ID and then its duplicates are all IDs with
   * that hash, in dump order; and representatives and duplicates together are
   * all IDs of the dump, each as often as there. In an ID-sorted dump every
   * representative has the least ID of its hash and every list is sorted.
   */
  lemma IndexPartitions(gs: seq<Goroutine>, index: seq<Goroutine>, duplicates: map<nat, seq<int>>)
    requires IndexOk(gs, index, duplicates)
    ensures forall i, j | 0 <= i < j < |index| :: index[i].hash != index[j].hash
    ensures forall h | h in Hashes(gs) :: exists g :: g in index && g.hash == h
    ensures forall g | g in index ::
              g in gs && g.hash in duplicates && [g.id] + duplicates[g.hash] == IdsWith(gs, g.hash)
    ensures multiset(PrintedIds(IndexPrinted(index, duplicates))) == multiset(IdList(gs))
    ensures SortedById(gs) ==> forall h | h in duplicates ::
              forall i, j | 0 <= i < j < |IdsWith(gs, h)| :: IdsWith(gs, h)[i] <= IdsWith(gs, h)[j]
  {
    hide IdsWith, Firsts, PrintedIds, IndexPrinted;
    FirstsRepresent(gs);
    IndexHolds(gs, index, duplicates);
    forall g | g in index ensures g.hash in duplicates && [g.id] + duplicates[g.hash] == IdsWith(gs, g.hash) {
      NoIds(gs, g.hash);
    }
    if SortedById(gs) {
      forall h | h in duplicates
        ensures forall i, j | 0 <= i < j < |IdsWith(gs, h)| :: IdsWith(gs, h)[i] <= IdsWith(gs, h)[j]
      {
        IdsSorted(gs, h);
      }
    }
  }

  // ----- paging -----

  /** The pages of size k from offset on, one after the other, until the end. */
  function Pages<T>(items: seq<T>, k: nat, offset: nat): seq<T>
    requires k > 0
    decreases |items| - offset
  {
    if offset >= |items| then [] else Page(items, k, offset) + Pages(items, k, offset + k)
  }

  /** Paging tiles: the pages of any size give all that is shown without a limit, and there is nothing past the end. */
  lemma {:induction false} PagesTile<T>(items: seq<T>, k: nat, offset: nat)
    requires k > 0
    ensures Pages(items, k, offset) == Page(items, 0, offset)
    ensures offset == 0 ==> Pages(items, k, offset) == items
    ensures offset >= |items| ==> forall limit :: Page(items, limit, offset) == []
    decreases |items| - offset
  {
    if offset < |items| {
      PagesTile(items, k, offset + k);
      if offset + k <= |items| {
        assert items[offset..] == items[offset..offset + k] + items[offset + k..];
      }
    }
  }
}
