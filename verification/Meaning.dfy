/**
 * The meaning of statements, directly on their syntax; the macros of a statement
 * mean the same. Also the kinds of their values and the stack slots they need.
 */
module Meaning {
  import opened Results
  import opened Goroutines
  import opened Graphs
  import opened Predicates
  import opened Codegen
  import opened Machine
  import opened Pipelines
  import opened Fusion
  import opened Syntax
  import opened QueryParsing
  import opened StatementParsing

  type AEnv = map<string, AValue>

  /** The goroutines of gs for which p has the value wanted, in order; room counts the free stack slots. */
  function Select(w: World, p: Expr, wanted: bool, gs: seq<Goroutine>, room: int): Result<seq<Goroutine>> {
    if gs == [] then Ok([])
    else if room <= 0 then Err(StackOverflow)
    else
      match Eval(w, p, gs[0], room - 1)
      case Err(e) => Err(e)
      case Ok(SBool(b)) =>
        (match Select(w, p, wanted, gs[1..], room)
         case Err(e) => Err(e)
         case Ok(rest) => Ok(if b == wanted then [gs[0]] + rest else rest))
      case Ok(_) => Err(InvalidType)
  }

  /** The value of a dump expression in an environment, with room free stack slots. */
  function Denote(w: World, d: Dumps, env: AEnv, room: int): Result<AValue> {
    match d
    case Var(name) =>
      if name !in env then Err(NoSuchEnv)
      else if !env[name].VDump? then Err(InvalidType)
      else if room <= 0 then Err(StackOverflow)
      else Ok(env[name])
    case File(path) =>
      if room <= 0 then Err(StackOverflow)
      else if w.load(path).None? then Err(LoadFailed)
      else Ok(VDump(w.load(path).value))
    case Filtered(r, _, fn, p) =>
      (match Denote(w, r, env, room)
       case Err(e) => Err(e)
       case Ok(v) => DenoteFilter(w, fn, p, v, room))
    case Combined(r, _, fn, a) =>
      match Denote(w, r, env, room)
      case Err(e) => Err(e)
      case Ok(v) =>
        match Denote(w, a, env, room - 1)
        case Err(e) => Err(e)
        case Ok(u) => DenoteSet(w, fn, v, u)
  }

  function DenoteFilter(w: World, fn: FnName, p: Expr, v: AValue, room: int): Result<AValue> {
    if fn.FnGraph? then
      if room <= 1 then Err(StackOverflow)
      else if !v.VDump? then Err(UnexpectedStackState)
      else
        match Select(w, p, true, v.dump, room - 2)
        case Err(e) => Err(e)
        case Ok(selected) => Ok(VDump(w.sort(InGraph(v.dump, selected))))
    else if !v.VDump? then Err(UnexpectedStackState)
    else
      match Select(w, p, !fn.FnDelete?, v.dump, room - 1)
      case Err(e) => Err(e)
      case Ok(gs) => Ok(VDump(gs))
  }

  function DenoteSet(w: World, fn: FnName, left: AValue, right: AValue): Result<AValue> {
    if !left.VDump? || !right.VDump? then Err(InvalidType)
    else
      var l, r := left.dump, right.dump;
      match fn
      case FnIntersect => Ok(VDump(Shared(r, l)))
      case FnDiff => Ok(VDiff(Unshared(l, r), Shared(l, r) + Shared(r, l), Unshared(r, l)))
      case _ => Ok(VDump(w.sort(r + l)))
  }

  /** The environment after an assignment of v. */
  function DenoteAssign(env: AEnv, names: seq<string>, v: AValue): Result<AEnv> {
    if names == [] then Ok(env)
    else if |names| == 1 then Ok(env[names[0] := v])
    else
      match v
      case VDiff(l, c, r) =>
        if |names| != 3 then Err(ExpectedDiffAssign)
        else Ok(BindName(BindName(BindName(env, names[0], VDump(l)), names[1], VDump(c)), names[2], VDump(r)))
      case VDump(_) => Err(BadAddress)
      case _ => Ok(env)
  }

  function BindName(env: AEnv, name: string, v: AValue): AEnv {
    if name == "_" then env else env[name := v]
  }

  /** The meaning of a statement: its value, and the environment it leaves. */
  function MeaningOf(w: World, s: Statement, env: AEnv, limit: nat): Result<AState> {
    match Denote(w, s.body, env, limit)
    case Err(e) => Err(e)
    case Ok(v) =>
      match DenoteAssign(env, s.targets, v)
      case Err(e) => Err(e)
      case Ok(env1) => Ok(AState([v], env1))
  }

  // ----- macros mean what the syntax means -----

  lemma {:induction false} SelectIsSurvivors(w: World, f: Filter, gs: seq<Goroutine>, room: int)
    ensures Survivors(w, [f], gs, room) == Select(w, f.pred, f.keep, gs, room)
  {
    hide Eval;
    if gs != [] && room > 0 {
      SelectIsSurvivors(w, f, gs[1..], room);
      assert [f][1..] == [] && AcceptAll(w, [f][1..], gs[0], room - 1) == Ok(true);
    }
  }

  function PushedA(a: AState, v: AValue): AState {
    a.(stack := a.stack + [v])
  }

  function AfterA(a: AState, r: Result<AValue>): Result<AState> {
    match r
    case Err(e) => Err(e)
    case Ok(v) => Ok(PushedA(a, v))
  }

  lemma FilterMacrosMean(w: World, limit: nat, fn: FnName, k: nat, p: Expr, a: AState, v: AValue)
    requires |a.stack| < limit && !v.VGoroutine?
    ensures Exec(w, limit, FilterMacros(fn, k, p), PushedA(a, v)) ==
            AfterA(a, DenoteFilter(w, fn, p, v, limit - |a.stack|))
  {
    hide Survivors, Select, InGraph, ExecCost;
    var b := PushedA(a, v);
    var room := limit - |a.stack|;
    if fn.FnGraph? {
      var f := Filter(k, true, p);
      assert FilterMacros(fn, k, p) == [DupTop] + ([Loop([f])] + [Graph]);
      ExecCons(w, limit, DupTop, [Loop([f])] + [Graph], b);
      if room > 1 {
        var b1 := PushedA(b, v);
        assert ExecMacro(w, limit, DupTop, b) == Ok(b1);
        ExecCons(w, limit, Loop([f]), [Graph], b1);
        if v.VDump? {
          SelectIsSurvivors(w, f, v.dump, room - 2);
          assert b1.stack[..|b1.stack| - 1] == b.stack;
          if Select(w, p, true, v.dump, room - 2).Ok? {
            var b2 := PushedA(b, VDump(Select(w, p, true, v.dump, room - 2).value));
            assert ExecMacro(w, limit, Loop([f]), b1) == Ok(b2);
            ExecSingle(w, limit, Graph, b2);
            assert b2.stack[..|b2.stack| - 2] == a.stack;
          }
        }
      }
    } else {
      var f := Filter(k, !fn.FnDelete?, p);
      ExecSingle(w, limit, Loop([f]), b);
      assert b.stack[..|b.stack| - 1] == a.stack;
      if v.VDump? {
        SelectIsSurvivors(w, f, v.dump, room - 1);
      }
    }
  }

  lemma SetMacroMeans(w: World, limit: nat, fn: FnName, a: AState, v: AValue, u: AValue)
    requires fn.FnUnion? || fn.FnIntersect? || fn.FnDiff?
    ensures Exec(w, limit, [SetMacro(fn)], PushedA(PushedA(a, v), u)) == AfterA(a, DenoteSet(w, fn, v, u))
  {
    var b := PushedA(PushedA(a, v), u);
    ExecSingle(w, limit, SetMacro(fn), b);
    assert b.stack[..|b.stack| - 2] == a.stack;
  }

  lemma DenoteProper(w: World, d: Dumps, env: AEnv, room: int)
    ensures Denote(w, d, env, room).Ok? ==> !Denote(w, d, env, room).value.VGoroutine? && room > 0
  {
    hide Select, InGraph, Shared, Unshared;
    match d
    case Filtered(r, _, _, _) => DenoteProper(w, r, env, room);
    case Combined(r, _, _, a) => DenoteProper(w, r, env, room);
    case _ =>
  }

  /** Executing the macros of a dump expression pushes its value. */
  lemma {:induction false} DumpsMean(w: World, limit: nat, d: Dumps, k: nat, a: AState)
    requires WellFormed(d)
    ensures Exec(w, limit, MacrosOf(d, k), a) == AfterA(a, Denote(w, d, a.env, limit - |a.stack|))
  {
    hide Exec, ExecMacro, DenoteFilter, DenoteSet, FilterMacros, SetMacro, ExecCost;
    var room := limit - |a.stack|;
    match d
    case Var(name) => LoadMeans(w, limit, d, k, a);
    case File(path) => LoadMeans(w, limit, d, k, a);
    case Filtered(r, _, fn, p) =>
      DumpsMean(w, limit, r, k, a);
      DenoteProper(w, r, a.env, room);
      ExecConcat(w, limit, MacrosOf(r, k), FilterMacros(fn, k + |Preds(r)|, p), a);
      if Denote(w, r, a.env, room).Ok? {
        FilterMacrosMean(w, limit, fn, k + |Preds(r)|, p, a, Denote(w, r, a.env, room).value);
      }
    case Combined(r, _, fn, arg) =>
      var ms, ns := MacrosOf(r, k), MacrosOf(arg, k + |Preds(r)|);
      DumpsMean(w, limit, r, k, a);
      ExecConcat(w, limit, ms, ns, a);
      ExecConcat(w, limit, ms + ns, [SetMacro(fn)], a);
      if Denote(w, r, a.env, room).Ok? {
        var v := Denote(w, r, a.env, room).value;
        DumpsMean(w, limit, arg, k + |Preds(r)|, PushedA(a, v));
        if Denote(w, arg, a.env, room - 1).Ok? {
          SetMacroMeans(w, limit, fn, a, v, Denote(w, arg, a.env, room - 1).value);
        }
      }
  }

  lemma LoadMeans(w: World, limit: nat, d: Dumps, k: nat, a: AState)
    requires d.Var? || d.File?
    ensures Exec(w, limit, MacrosOf(d, k), a) == AfterA(a, Denote(w, d, a.env, limit - |a.stack|))
  {
    ExecSingle(w, limit, MacrosOf(d, k)[0], a);
  }

  /** The macros of a statement mean what the statement means. */
  lemma StatementMeans(w: World, limit: nat, s: Statement, env: AEnv)
    requires WellFormed(s.body)
    ensures Exec(w, limit, StatementMacros(s), AState([], env)) == MeaningOf(w, s, env, limit)
  {
    hide Exec, Denote;
    var a := AState([], env);
    DumpsMean(w, limit, s.body, 1, a);
    ExecConcat(w, limit, MacrosOf(s.body, 1), AssignMacros(s.targets), a);
    if Denote(w, s.body, env, limit).Ok? {
      var v := Denote(w, s.body, env, limit).value;
      DenoteProper(w, s.body, env, limit);
      AssignMeans(w, limit, s.targets, env, v);
      assert PushedA(a, v) == AState([v], env);
    }
  }

  lemma AssignMeans(w: World, limit: nat, names: seq<string>, env: AEnv, v: AValue)
    ensures Exec(w, limit, AssignMacros(names), AState([v], env)) ==
            match DenoteAssign(env, names, v)
            case Err(e) => Err(e)
            case Ok(env1) => Ok(AState([v], env1))
  {
    if names != [] {
      ExecSingle(w, limit, AssignMacros(names)[0], AState([v], env));
    }
  }

  // ----- type safety and the stack bound -----

  datatype Kind = KDump | KDiff

  /** The kind of value of a well-typed dump expression: predicates are boolean, operands are dumps. */
  function KindOf(d: Dumps): Option<Kind> {
    match d
    case Var(_) => Some(KDump)
    case File(_) => Some(KDump)
    case Filtered(r, _, _, p) => if KindOf(r) == Some(KDump) && TypeOf(p) == Some(TBool) then Some(KDump) else None
    case Combined(r, _, fn, a) =>
      if KindOf(r) == Some(KDump) && KindOf(a) == Some(KDump) then Some(if fn.FnDiff? then KDiff else KDump) else None
  }

  /** A diff can be assigned to one name or to three, a dump to one. */
  predicate WellTyped(s: Statement) {
    && WellFormed(s.body)
    && KindOf(s.body).Some?
    && (|s.targets| <= 1 || (|s.targets| == 3 && KindOf(s.body) == Some(KDiff)))
  }

  /**
   * The stack slots a dump expression needs: the filter loop holds the dump, the goroutine and the predicate's
   * operands; graph holds its dump twice; a right operand sits on top of the left one.
   */
  function Need(d: Dumps): nat {
    match d
    case Var(_) => 1
    case File(_) => 1
    case Filtered(r, _, fn, p) => Max(Need(r), Depth(p) + (if fn.FnGraph? then 3 else 2))
    case Combined(r, _, _, a) => Max(Need(r), Need(a) + 1)
  }

  /** The errors a well-typed program can end with besides a full stack. */
  predicate Expected(e: Error) {
    e.NoSuchEnv? || e.BadRegex? || e.LoadFailed?
  }

  lemma {:induction false} TypedKnown(d: Dumps)
    requires KindOf(d).Some?
    ensures KnownDumps(d)
  {
    match d
    case Filtered(r, _, _, p) =>
      TypedKnown(r);
      TypeKnown(p);
    case Combined(r, _, _, a) =>
      TypedKnown(r);
      TypedKnown(a);
    case _ =>
  }

  lemma {:induction false} TypeKnown(e: Expr)
    requires TypeOf(e).Some?
    ensures Known(e)
  {
    match e
    case Leaf(_) =>
    case Compare(_, l, r) => TypeKnown(l); TypeKnown(r);
    case Logic(_, l, r) => TypeKnown(l); TypeKnown(r);
  }

  /** A where/delete chain on a variable or file, with comparisons between atoms only. */
  predicate FlatChain(d: Dumps) {
    match d
    case Filtered(r, _, fn, p) => FlatChain(r) && Flat(p) && !fn.FnGraph?
    case Combined(_, _, _, _) => false
    case _ => true
  }

  /**
   * Chains of where and delete never need more than 4 slots, whatever their length and the size of the dump;
   * graph on one needs at most 5.
   */
  lemma {:induction false} FlatChainNeed(d: Dumps)
    requires FlatChain(d)
    ensures Need(d) <= 4
    ensures forall asMethod, p | Flat(p) :: Need(Filtered(d, asMethod, FnGraph, p)) <= 5
  {
    if d.Filtered? {
      FlatChainNeed(d.recv);
      FlatDepth(d.pred);
    }
    forall asMethod, p | Flat(p) ensures Need(Filtered(d, asMethod, FnGraph, p)) <= 5 {
      FlatDepth(p);
    }
  }
}
