/**
 * Which errors programs can end with: what predicates can report, what no
 * compiled program reports, and when a statement ends in the panic of a plain
 * dump assigned to several names.
 */
module Failures {
  import opened Results
  import opened Goroutines
  import opened Graphs
  import opened Chunks
  import opened Predicates
  import opened Codegen
  import opened Pipelines
  import opened Fusion
  import opened ErrorOrder
  import opened Syntax
  import opened StatementParsing
  import opened Meaning

  /** The errors of a machine that has lost its bearings, among them adding to an indexed dump. */
  predicate Internal(e: Error) {
    || e.IndexedDump? || e.NilRegister? || e.NoFrame? || e.NoSuchConstant? || e.NotIterating?
    || e.EmptyStack? || e.NotModelled? || e.OutOfGas?
  }

  /** The errors a predicate with known fields can report. */
  predicate FromPredicate(e: Error) {
    e.StackOverflow? || e.InvalidType? || e.BadRegex? || e.MismatchedTypes?
  }

  ghost predicate FiltersKnown(fs: seq<Filter>) {
    forall f | f in fs :: Known(f.pred)
  }

  ghost predicate AllKnown(ms: seq<Macro>) {
    forall m | m in ms && m.Loop? :: FiltersKnown(m.filters)
  }

  lemma KnownAtomValue(a: Atom, g: Goroutine)
    requires KnownAtom(a)
    ensures AtomValue(a, g).Some?
  {
    WellTypedAtom(a, g);
  }

  // ----- predicates and filters -----

  lemma {:induction false} EvalErrors(w: World, e: Expr, g: Goroutine, room: int)
    requires Known(e)
    ensures Eval(w, e, g, room).Err? ==> FromPredicate(Eval(w, e, g, room).error)
  {
    hide Apply, AtomValue, KnownAtom;
    match e
    case Leaf(a) => KnownAtomValue(a, g);
    case Compare(_, l, r) =>
      EvalErrors(w, l, g, room);
      EvalErrors(w, r, g, room - 1);
    case Logic(_, l, r) =>
      EvalErrors(w, l, g, room);
      EvalErrors(w, r, g, room);
  }

  lemma {:induction false} AcceptErrors(w: World, fs: seq<Filter>, g: Goroutine, room: int)
    requires FiltersKnown(fs)
    ensures AcceptAll(w, fs, g, room).Err? ==> FromPredicate(AcceptAll(w, fs, g, room).error)
    decreases |fs|
  {
    hide Eval, Known;
    if fs != [] {
      assert fs[0] in fs && forall f | f in fs[1..] :: f in fs;
      EvalErrors(w, fs[0].pred, g, room);
      AcceptErrors(w, fs[1..], g, room);
    }
  }

  lemma {:induction false} SurvivorsErrors(w: World, fs: seq<Filter>, gs: seq<Goroutine>, room: int)
    requires FiltersKnown(fs)
    ensures Survivors(w, fs, gs, room).Err? ==> FromPredicate(Survivors(w, fs, gs, room).error)
    decreases |gs|
  {
    hide AcceptAll, FiltersKnown;
    if gs != [] && room > 0 {
      AcceptErrors(w, fs, gs[0], room - 1);
      SurvivorsErrors(w, fs, gs[1..], room);
    }
  }

  lemma {:induction false} InTurnErrors(w: World, fs: seq<Filter>, gs: seq<Goroutine>, room: int)
    requires FiltersKnown(fs)
    ensures InTurn(w, fs, gs, room).Err? ==> FromPredicate(InTurn(w, fs, gs, room).error)
    decreases |fs|
  {
    hide Survivors, Known;
    if fs != [] {
      assert fs[0] in fs && forall f | f in fs[1..] :: f in fs;
      SurvivorsErrors(w, [fs[0]], gs, room);
      if Survivors(w, [fs[0]], gs, room).Ok? {
        InTurnErrors(w, fs[1..], Survivors(w, [fs[0]], gs, room).value, room);
      }
    }
  }

  lemma {:induction false} SelectErrors(w: World, p: Expr, wanted: bool, gs: seq<Goroutine>, room: int)
    requires Known(p)
    ensures Select(w, p, wanted, gs, room).Err? ==> FromPredicate(Select(w, p, wanted, gs, room).error)
    decreases |gs|
  {
    hide Eval, Known;
    if gs != [] && room > 0 {
      EvalErrors(w, p, gs[0], room - 1);
      SelectErrors(w, p, wanted, gs[1..], room);
    }
  }

  // ----- programs -----

  /** A list of macros can find the stack empty, but then not in a loop over a dump. */
  lemma {:induction false} ExecErrors(w: World, limit: nat, ms: seq<Macro>, a: AState)
    requires AllKnown(ms)
    ensures match Exec(w, limit, ms, a)
            case Ok(_) => true
            case Err(e) => !Internal(e) || (e.EmptyStack? && ErrorsAgree(w, limit, ms, a))
    decreases |ms|
  {
    hide Survivors, ExecSet, FiltersKnown, ScansAgree;
    if ms != [] {
      assert ms[0] in ms && forall m | m in ms[1..] :: m in ms;
      if ms[0].Loop? && a.stack != [] && ATop(a).VDump? {
        SurvivorsErrors(w, ms[0].filters, ATop(a).dump, limit - |a.stack|);
      }
      if ExecMacro(w, limit, ms[0], a).Ok? {
        ExecErrors(w, limit, ms[1..], ExecMacro(w, limit, ms[0], a).value);
      }
    }
  }

  /** A loop never assigns, fused or not. */
  lemma LoopNeverAssigns(w: World, limit: nat, fs: seq<Filter>, a: AState)
    requires FiltersKnown(fs) && fs != []
    ensures ExecMacro(w, limit, Loop(fs), a) != Err(BadAddress) && Exec(w, limit, Singles(fs), a) != Err(BadAddress)
  {
    hide Survivors, InTurn, FiltersKnown;
    if a.stack != [] && ATop(a).VDump? {
      ExecLoop(w, limit, fs, a);
      SinglesInTurn(w, limit, fs, a);
      SurvivorsErrors(w, fs, ATop(a).dump, limit - |a.stack|);
      InTurnErrors(w, fs, ATop(a).dump, limit - |a.stack|);
    }
  }

  /** Regrouping the filters of a program does not change whether it ends in the panic of an assignment. */
  lemma {:induction false} PanicKept(w: World, limit: nat, ms: seq<Macro>, a: AState)
    requires AllKnown(ms) && LoopsNonempty(ms)
    ensures Exec(w, limit, ms, a) == Err(BadAddress) <==> Exec(w, limit, Split(ms), a) == Err(BadAddress)
    decreases |ms|
  {
    hide ExecMacro, FiltersKnown, Singles;
    if ms != [] {
      assert ms[0] in ms && forall m | m in ms[1..] :: m in ms;
      ExecConcat(w, limit, Parts(ms[0]), Split(ms[1..]), a);
      MacroSplit(w, limit, ms[0], a);
      if ms[0].Loop? {
        LoopNeverAssigns(w, limit, ms[0].filters, a);
      } else {
        ExecSingle(w, limit, ms[0], a);
      }
      if ExecMacro(w, limit, ms[0], a).Ok? {
        PanicKept(w, limit, ms[1..], ExecMacro(w, limit, ms[0], a).value);
      }
    }
  }

  lemma LinkedKnown(code: Code, ms: seq<Macro>)
    requires Linked(code, ms)
    ensures AllKnown(ms) && MacrosInterned(ms, code.consts)
  {
    hide Known, Interned, PredicateChunk, MacroInterned, Layout;
    forall m, f | m in ms && m.Loop? && f in m.filters ensures Known(f.pred) {
      assert FilterLinked(code, f);
    }
  }

  // ----- meanings -----

  lemma {:induction false} DenoteErrors(w: World, d: Dumps, env: AEnv, room: int)
    requires KnownDumps(d)
    ensures match Denote(w, d, env, room)
            case Ok(_) => true
            case Err(e) => !Internal(e) && !e.BadAddress?
    decreases d
  {
    hide Select, Known, InGraph, Shared, Unshared;
    match d
    case Filtered(r, _, fn, p) =>
      DenoteErrors(w, r, env, room);
      if Denote(w, r, env, room).Ok? && Denote(w, r, env, room).value.VDump? {
        var gs := Denote(w, r, env, room).value.dump;
        SelectErrors(w, p, true, gs, room - 2);
        SelectErrors(w, p, !fn.FnDelete?, gs, room - 1);
      }
    case Combined(r, _, _, a) =>
      DenoteErrors(w, r, env, room);
      DenoteErrors(w, a, env, room - 1);
    case _ =>
  }

  /** The statement assigns a plain dump to several names. */
  predicate AssignsDump(w: World, s: Statement, env: AEnv, limit: nat) {
    && |s.targets| > 1
    && Denote(w, s.body, env, limit).Ok?
    && Denote(w, s.body, env, limit).value.VDump?
  }

  lemma MeaningErrors(w: World, s: Statement, env: AEnv, limit: nat)
    requires KnownDumps(s.body)
    ensures MeaningOf(w, s, env, limit).Err? ==> !Internal(MeaningOf(w, s, env, limit).error)
    ensures MeaningOf(w, s, env, limit) == Err(BadAddress) <==> AssignsDump(w, s, env, limit)
  {
    hide Denote, KnownDumps;
    DenoteErrors(w, s.body, env, limit);
  }
}
