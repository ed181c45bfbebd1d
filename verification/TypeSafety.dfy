/**
 * Type safety of the code that is really run: a type checker for the main
 * chunk, which accepts the code of every well-typed statement, takes no notice
 * of how loops are fused, and rules out all but four kinds of error.
 */
module TypeSafety {
  import opened Results
  import opened Goroutines
  import opened Graphs
  import opened Predicates
  import opened Codegen
  import opened Pipelines
  import opened Fusion
  import opened ErrorOrder
  import opened Syntax
  import opened QueryParsing
  import opened StatementParsing
  import opened Meaning

  /** The kinds of the values on the stack, and the variables that are dumps if they exist. */
  datatype Types = Types(stack: seq<Kind>, dumps: set<string>)

  /** The variables a dump expression loads. */
  function Names(d: Dumps): set<string> {
    match d
    case Var(name) => {name}
    case File(_) => {}
    case Filtered(r, _, _, _) => Names(r)
    case Combined(r, _, _, a) => Names(r) + Names(a)
  }

  ghost predicate DumpsIn(env: AEnv, names: set<string>) {
    forall x | x in names && x in env :: env[x].VDump?
  }

  function TopKind(t: Types): Option<Kind> {
    if t.stack == [] then None else Some(t.stack[|t.stack| - 1])
  }

  /** In a loop over a dump at this height, every predicate is boolean and stays within need slots. */
  ghost predicate FiltersTyped(fs: seq<Filter>, height: nat, need: nat) {
    forall f | f in fs :: TypeOf(f.pred) == Some(TBool) && height + 1 + Depth(f.pred) <= need
  }

  function Pushing(t: Types, k: Kind, need: nat): Option<Types> {
    if |t.stack| < need then Some(t.(stack := t.stack + [k])) else None
  }

  function Combining(t: Types, k: Kind): Option<Types> {
    var n := |t.stack|;
    if n >= 2 && t.stack[n - 1].KDump? && t.stack[n - 2].KDump? then Some(t.(stack := t.stack[..n - 2] + [k])) else None
  }

  ghost function CheckMacro(m: Macro, t: Types, need: nat): Option<Types> {
    match m
    case Load(name) => if name in t.dumps then Pushing(t, KDump, need) else None
    case LoadFile(_) => Pushing(t, KDump, need)
    case Loop(fs) => if TopKind(t) == Some(KDump) && FiltersTyped(fs, |t.stack|, need) then Some(t) else None
    case DupTop => if TopKind(t).Some? then Pushing(t, TopKind(t).value, need) else None
    case Diff => Combining(t, KDiff)
    case Assign(name) =>
      if TopKind(t).None? then None
      else Some(t.(dumps := if TopKind(t).value.KDump? then t.dumps + {name} else t.dumps - {name}))
    case AssignMany(names) => if TopKind(t) == Some(KDiff) && |names| == 3 then Some(t) else None
    case _ => Combining(t, KDump)
  }

  ghost function Check(ms: seq<Macro>, t: Types, need: nat): Option<Types> {
    if ms == [] then Some(t)
    else
      match CheckMacro(ms[0], t, need)
      case None => None
      case Some(t1) => Check(ms[1..], t1, need)
  }

  // ----- what the types promise -----

  predicate HasKind(v: AValue, k: Kind) {
    if k.KDump? then v.VDump? else v.VDiff?
  }

  ghost predicate StackTyped(a: AState, t: Types) {
    |a.stack| == |t.stack| && forall i | 0 <= i < |a.stack| :: HasKind(a.stack[i], t.stack[i])
  }

  ghost predicate Typed(a: AState, t: Types) {
    StackTyped(a, t) && DumpsIn(a.env, t.dumps)
  }

  /** An unknown variable, a bad regular expression, a file that cannot be loaded, or a stack limit below need. */
  predicate Allowed(e: Error, limit: nat, need: nat) {
    Expected(e) || (e.StackOverflow? && limit < need)
  }

  lemma AcceptSafe(w: World, f: Filter, g: Goroutine, room: int)
    requires TypeOf(f.pred) == Some(TBool)
    ensures Accept(w, f, g, room).Err? ==>
              || Accept(w, f, g, room).error == BadRegex
              || (Accept(w, f, g, room).error == StackOverflow && room < Depth(f.pred))
  {
    hide Eval, Depth, TypeOf;
    WellTypedEval(w, f.pred, g, room);
  }

  lemma {:induction false} AcceptAllSafe(w: World, fs: seq<Filter>, g: Goroutine, height: nat, need: nat, limit: nat)
    requires FiltersTyped(fs, height, need)
    ensures AcceptAll(w, fs, g, limit - height - 1).Err? ==>
            Allowed(AcceptAll(w, fs, g, limit - height - 1).error, limit, need)
    decreases |fs|
  {
    hide Accept, Depth, TypeOf;
    if fs != [] {
      assert fs[0] in fs && forall f | f in fs[1..] :: f in fs;
      AcceptSafe(w, fs[0], g, limit - height - 1);
      AcceptAllSafe(w, fs[1..], g, height, need, limit);
    }
  }

  lemma {:induction false} SurvivorsSafe(w: World, fs: seq<Filter>, gs: seq<Goroutine>, height: nat, need: nat,
                                         limit: nat)
    requires FiltersTyped(fs, height, need) && fs != []
    ensures Survivors(w, fs, gs, limit - height).Err? ==>
            Allowed(Survivors(w, fs, gs, limit - height).error, limit, need)
    decreases |gs|
  {
    hide AcceptAll, TypeOf;
    if gs != [] {
      assert fs[0] in fs;
      AcceptAllSafe(w, fs, gs[0], height, need, limit);
      SurvivorsSafe(w, fs, gs[1..], height, need, limit);
    }
  }

  lemma ExecSetKind(w: World, m: Macro)
    ensures var k := if m.Graph? || m.Union? || m.Intersect? then KDump else KDiff;
            forall top, below :: HasKind(ExecSet(w, m, top, below), k)
  {
    hide InGraph, Shared, Unshared;
  }

  lemma MacroSafe(w: World, limit: nat, m: Macro, a: AState, t: Types, need: nat)
    requires CheckMacro(m, t, need).Some? && Typed(a, t) && (m.Loop? ==> m.filters != [])
    ensures match ExecMacro(w, limit, m, a)
            case Ok(a1) => Typed(a1, CheckMacro(m, t, need).value)
            case Err(e) => Allowed(e, limit, need)
  {
    hide Survivors, ExecSet, FiltersTyped;
    ExecSetKind(w, m);
    if m.Loop? {
      SurvivorsSafe(w, m.filters, ATop(a).dump, |a.stack|, need, limit);
    }
  }

  /** What the checker accepts can only fail with an allowed error, and leaves values of the kinds it says. */
  lemma {:induction false} CheckedSafe(w: World, limit: nat, ms: seq<Macro>, a: AState, t: Types, need: nat)
    requires Check(ms, t, need).Some? && Typed(a, t) && LoopsNonempty(ms)
    ensures match Exec(w, limit, ms, a)
            case Ok(a1) => Typed(a1, Check(ms, t, need).value)
            case Err(e) => Allowed(e, limit, need)
    decreases |ms|
  {
    hide ExecMacro, CheckMacro, Typed;
    if ms != [] {
      assert ms[0] in ms && forall m | m in ms[1..] :: m in ms;
      MacroSafe(w, limit, ms[0], a, t, need);
      if ExecMacro(w, limit, ms[0], a).Ok? {
        CheckedSafe(w, limit, ms[1..], ExecMacro(w, limit, ms[0], a).value, CheckMacro(ms[0], t, need).value, need);
      }
    }
  }

  // ----- the error of a typed program -----

  /** Typed filters can only fail with a bad regular expression, so any two failures are the same. */
  lemma FiltersAgree(w: World, fs: seq<Filter>, gs: seq<Goroutine>, height: nat, need: nat, limit: nat)
    requires FiltersTyped(fs, height, need) && need <= limit
    ensures ScansAgree(w, fs, gs, limit - height)
  {
    hide Accept, TypeOf, Depth, FirstByGoroutine, FirstByFilter;
    var room := limit - height;
    forall i: nat, k: nat | FirstByGoroutine(w, fs, gs, room, i, k) || FirstByFilter(w, fs, gs, room, i, k)
      ensures i < |gs| && k < |fs| && Accept(w, fs[k], gs[i], room - 1) == Err(BadRegex)
    {
      FirstsInRange(w, fs, gs, room, i, k);
      assert fs[k] in fs;
      AcceptSafe(w, fs[k], gs[i], room - 1);
    }
  }

  lemma MacroKinds(w: World, limit: nat, m: Macro, a: AState, t: Types, need: nat)
    requires CheckMacro(m, t, need).Some? && StackTyped(a, t)
    ensures ExecMacro(w, limit, m, a).Ok? ==> StackTyped(ExecMacro(w, limit, m, a).value, CheckMacro(m, t, need).value)
  {
    hide Survivors, ExecSet, FiltersTyped;
    ExecSetKind(w, m);
  }

  lemma {:induction false} CheckedErrorsAgree(w: World, limit: nat, ms: seq<Macro>, a: AState, t: Types, need: nat)
    requires need <= limit && Check(ms, t, need).Some? && StackTyped(a, t)
    ensures ErrorsAgree(w, limit, ms, a)
    decreases |ms|
  {
    hide ExecMacro, ScansAgree, FiltersTyped;
    if ms != [] {
      MacroKinds(w, limit, ms[0], a, t, need);
      if ExecMacro(w, limit, ms[0], a).Ok? {
        CheckedErrorsAgree(w, limit, ms[1..], ExecMacro(w, limit, ms[0], a).value, CheckMacro(ms[0], t, need).value,
          need);
      } else if ms[0].Loop? && a.stack != [] {
        FiltersAgree(w, ms[0].filters, ATop(a).dump, |a.stack|, need, limit);
      }
    }
  }

  /** With enough stack, regrouping the filters of a program the checker accepts changes nothing, not even its error. */
  lemma TypedErrorsKept(w: World, limit: nat, ms: seq<Macro>, a: AState, t: Types, need: nat)
    requires need <= limit && Check(ms, t, need).Some? && StackTyped(a, t) && LoopsNonempty(ms)
    ensures Exec(w, limit, ms, a) == Exec(w, limit, Split(ms), a)
  {
    hide Exec, Split, Check, StackTyped, ErrorsAgree;
    CheckedErrorsAgree(w, limit, ms, a, t, need);
    SplitErrors(w, limit, ms, a);
  }

  // ----- fusion does not matter -----

  ghost function CheckThen(t: Option<Types>, ms: seq<Macro>, need: nat): Option<Types> {
    if t.None? then None else Check(ms, t.value, need)
  }

  lemma {:induction false} CheckConcat(ms: seq<Macro>, ns: seq<Macro>, t: Types, need: nat)
    ensures Check(ms + ns, t, need) == CheckThen(Check(ms, t, need), ns, need)
    decreases |ms|
  {
    hide CheckMacro;
    if ms == [] {
      assert ms + ns == ns;
    } else {
      assert (ms + ns)[0] == ms[0] && (ms + ns)[1..] == ms[1..] + ns;
      if CheckMacro(ms[0], t, need).Some? {
        CheckConcat(ms[1..], ns, CheckMacro(ms[0], t, need).value, need);
      }
    }
  }

  lemma CheckOne(m: Macro, t: Types, need: nat)
    ensures Check([m], t, need) == CheckMacro(m, t, need)
  {
    hide CheckMacro;
    if CheckMacro(m, t, need).Some? {
      assert Check([m][1..], CheckMacro(m, t, need).value, need) == CheckMacro(m, t, need);
    }
  }

  lemma {:induction false} SinglesCheck(fs: seq<Filter>, t: Types, need: nat)
    requires fs != []
    ensures Check(Singles(fs), t, need) == CheckMacro(Loop(fs), t, need)
    decreases |fs|
  {
    var first := Loop([fs[0]]);
    CheckConcat([first], Singles(fs[1..]), t, need);
    CheckOne(first, t, need);
    assert fs == [fs[0]] + fs[1..];
    if fs[1..] == [] {
      assert fs == [fs[0]];
    } else {
      SinglesCheck(fs[1..], t, need);
      assert FiltersTyped(fs, |t.stack|, need) <==>
        FiltersTyped([fs[0]], |t.stack|, need) && FiltersTyped(fs[1..], |t.stack|, need);
    }
  }

  /** How filters are grouped into loops makes no difference to the checker. */
  lemma {:induction false} SplitCheck(ms: seq<Macro>, t: Types, need: nat)
    requires LoopsNonempty(ms)
    ensures Check(Split(ms), t, need) == Check(ms, t, need)
    decreases |ms|
  {
    hide CheckMacro, Singles;
    if ms != [] {
      assert ms[0] in ms && forall m | m in ms[1..] :: m in ms;
      CheckConcat(Parts(ms[0]), Split(ms[1..]), t, need);
      if ms[0].Loop? {
        SinglesCheck(ms[0].filters, t, need);
      } else {
        CheckOne(ms[0], t, need);
      }
      if CheckMacro(ms[0], t, need).Some? {
        SplitCheck(ms[1..], CheckMacro(ms[0], t, need).value, need);
      }
    }
  }

  // ----- the compiler's code is accepted -----

  lemma FilterChecks(fn: FnName, k: nat, p: Expr, t: Types, need: nat)
    requires TypeOf(p) == Some(TBool) && TopKind(t) == Some(KDump)
    requires fn.FnGraph? || fn.FnWhere? || fn.FnDelete?
    requires |t.stack| + Depth(p) + (if fn.FnGraph? then 2 else 1) <= need
    ensures Check(FilterMacros(fn, k, p), t, need) == Some(t)
  {
    hide TypeOf, Depth;
    if fn.FnGraph? {
      var loop := Loop([Filter(k, true, p)]);
      var t1 := t.(stack := t.stack + [KDump]);
      CheckConcat([DupTop], [loop, Graph], t, need);
      CheckConcat([loop], [Graph], t1, need);
      CheckOne(DupTop, t, need);
      CheckOne(loop, t1, need);
      CheckOne(Graph, t1, need);
      assert [DupTop] + [loop, Graph] == [DupTop, loop, Graph] && [loop] + [Graph] == [loop, Graph];
      assert t1.stack[..|t1.stack| - 2] + [KDump] == t.stack;
    } else {
      CheckOne(Loop([Filter(k, !fn.FnDelete?, p)]), t, need);
    }
  }

  lemma {:induction false} DumpsCheck(d: Dumps, k: nat, t: Types, need: nat)
    requires WellFormed(d) && KindOf(d).Some? && Names(d) <= t.dumps && |t.stack| + Need(d) <= need
    ensures Check(MacrosOf(d, k), t, need) == Some(t.(stack := t.stack + [KindOf(d).value]))
    decreases d
  {
    hide CheckMacro, FilterMacros, TypeOf, Depth, Check, Preds, SetMacro;
    match d
    case Filtered(r, _, fn, p) =>
      DumpsCheck(r, k, t, need);
      var t1 := t.(stack := t.stack + [KDump]);
      CheckConcat(MacrosOf(r, k), FilterMacros(fn, k + |Preds(r)|, p), t, need);
      FilterChecks(fn, k + |Preds(r)|, p, t1, need);
    case Combined(r, _, fn, a) =>
      var ms, ns := MacrosOf(r, k), MacrosOf(a, k + |Preds(r)|);
      var t1 := t.(stack := t.stack + [KDump]);
      var t2 := t.(stack := t.stack + [KDump, KDump]);
      DumpsCheck(r, k, t, need);
      DumpsCheck(a, k + |Preds(r)|, t1, need);
      assert t1.stack + [KDump] == t2.stack;
      CheckConcat(ms + ns, [SetMacro(fn)], t, need);
      CheckConcat(ms, ns, t, need);
      CheckOne(SetMacro(fn), t2, need);
      SetChecks(fn, t, need);
    case _ =>
      LoadChecks(d, k, t, need);
  }

  lemma LoadChecks(d: Dumps, k: nat, t: Types, need: nat)
    requires (d.Var? || d.File?) && Names(d) <= t.dumps && |t.stack| < need
    ensures Check(MacrosOf(d, k), t, need) == Some(t.(stack := t.stack + [KDump]))
  {
    CheckOne(MacrosOf(d, k)[0], t, need);
  }

  lemma SetChecks(fn: FnName, t: Types, need: nat)
    ensures CheckMacro(SetMacro(fn), t.(stack := t.stack + [KDump, KDump]), need) ==
            Some(t.(stack := t.stack + [if fn.FnDiff? then KDiff else KDump]))
  {
    assert (t.stack + [KDump, KDump])[..|t.stack|] == t.stack;
  }

  lemma StatementChecks(s: Statement)
    requires WellTyped(s)
    ensures Check(StatementMacros(s), Types([], Names(s.body)), Need(s.body)).Some?
  {
    hide Check, Need;
    var t := Types([], Names(s.body));
    DumpsCheck(s.body, 1, t, Need(s.body));
    CheckConcat(MacrosOf(s.body, 1), AssignMacros(s.targets), t, Need(s.body));
    AssignChecks(s.targets, KindOf(s.body).value, Names(s.body), Need(s.body));
    assert t.stack + [KindOf(s.body).value] == [KindOf(s.body).value];
  }

  lemma AssignChecks(names: seq<string>, k: Kind, dumps: set<string>, need: nat)
    requires |names| <= 1 || (|names| == 3 && k.KDiff?)
    ensures Check(AssignMacros(names), Types([k], dumps), need).Some?
  {
    if names != [] {
      CheckOne(AssignMacros(names)[0], Types([k], dumps), need);
    }
  }
}
