/** What intersect, diff and union answer, by the IDs and trace hashes of their operands. */
module SetQueries {
  import opened Results
  import opened Goroutines
  import opened Predicates
  import opened Machine
  import opened SetOps
  import opened Syntax
  import opened Meaning

  /** The answers on two dumps: l is the receiver and r the argument. */
  lemma SetAnswers(w: World, d: Dumps, asMethod: bool, arg: Dumps, env: AEnv, room: int,
                   l: seq<Goroutine>, r: seq<Goroutine>)
    requires Denote(w, d, env, room) == Ok(VDump(l)) && Denote(w, arg, env, room - 1) == Ok(VDump(r))
    ensures Denote(w, Combined(d, asMethod, FnIntersect, arg), env, room) ==
            Ok(VDump(Kept(r, (g: Goroutine) => (g.id, g.hash) in Keys(l), true)))
    ensures Denote(w, Combined(d, asMethod, FnDiff, arg), env, room) ==
            Ok(VDiff(
                 Kept(l, (g: Goroutine) => (g.id, g.hash) in Keys(r), false),
                 Kept(l, (g: Goroutine) => (g.id, g.hash) in Keys(r), true) +
                 Kept(r, (g: Goroutine) => (g.id, g.hash) in Keys(l), true),
                 Kept(r, (g: Goroutine) => (g.id, g.hash) in Keys(l), false)))
    ensures SortsById(w.sort) ==>
              exists gs :: Denote(w, Combined(d, asMethod, FnUnion, arg), env, room) == Ok(VDump(gs)) &&
                           SortedById(gs) && multiset(gs) == multiset(l) + multiset(r)
  {
    hide Kept, Keys, Shared, Unshared, SortsById;
    PartsAre(l, r);
    PartsAre(r, l);
    if SortsById(w.sort) {
      UnionIsSum(w.sort, r, l);
      assert Denote(w, Combined(d, asMethod, FnUnion, arg), env, room) == Ok(VDump(w.sort(r + l)));
    }
  }

  /** Three names get the left, the common and the right part of a diff, in this order. */
  lemma DiffAssigned(w: World, d: Dumps, asMethod: bool, arg: Dumps, env: AEnv, limit: nat,
                     l: seq<Goroutine>, r: seq<Goroutine>, names: seq<string>)
    requires Denote(w, d, env, limit) == Ok(VDump(l)) && Denote(w, arg, env, limit - 1) == Ok(VDump(r))
    requires |names| == 3 && "_" !in names
    requires names[0] != names[1] && names[0] != names[2] && names[1] != names[2]
    ensures var m := MeaningOf(w, Statement(names, Combined(d, asMethod, FnDiff, arg)), env, limit);
            && m.Ok? && m.value.env.Keys == env.Keys + {names[0], names[1], names[2]}
            && (forall x | x in env && x !in names :: m.value.env[x] == env[x])
            && (forall i | 0 <= i < 3 :: m.value.env[names[i]].VDump?)
            && var left, common, right :=
                 m.value.env[names[0]].dump, m.value.env[names[1]].dump, m.value.env[names[2]].dump;
               && Keys(left) == Keys(l) - Keys(r) && Keys(right) == Keys(r) - Keys(l)
               && Keys(common) == Keys(l) * Keys(r)
               && multiset(left) + multiset(common) + multiset(right) == multiset(l) + multiset(r)
  {
    hide Keys, Shared, Unshared, Has;
    PartKeys(l, r);
    PartKeys(r, l);
    DiffConserves(l, r);
  }
}
