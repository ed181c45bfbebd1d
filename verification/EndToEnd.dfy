/**
 * From text to the final state: what evaluating the code of a printed
 * statement does, which errors it can report, and when they are the errors the
 * statement means.
 */
module EndToEnd {
  import opened Results
  import opened Goroutines
  import opened Chunks
  import opened Predicates
  import opened Codegen
  import opened Machine
  import opened Pipelines
  import opened LoopRuns
  import opened MacroRuns
  import opened Fusion
  import opened ErrorOrder
  import opened Optimizer
  import opened Syntax
  import opened QueryParsing
  import opened StatementParsing
  import opened Programs
  import opened Meaning
  import opened TypeSafety
  import opened Failures
  import opened StackBound

  /** What compile returns for a printed statement: the parsed code, optimized. */
  ghost function CompiledCode(s: Statement): Code {
    OptimizedCode(CodeOf(s))
  }

  /** The macros that code is the layout of. */
  ghost function FusedMacros(s: Statement): seq<Macro> {
    Fuse(StatementMacros(s), 0)
  }

  // ----- one statement -----

  /** The error e with which a run of s fails, against what s means. */
  ghost predicate FailsAs(w: World, s: Statement, limit: nat, env: AEnv, e: Error) {
    var meaning := MeaningOf(w, s, env, limit);
    && meaning.Err? && !Internal(e)
    && (e == meaning.error <==> ErrorsAgree(w, limit, FusedMacros(s), AState([], env)))
    && (e.BadAddress? <==> AssignsDump(w, s, env, limit))
    && (Need(s.body) <= limit ==> !e.StackOverflow?)
    && (WellTyped(s) && Need(s.body) <= limit ==> e == meaning.error)
    && (WellTyped(s) && DumpsIn(env, Names(s.body)) ==> Allowed(e, limit, Need(s.body)))
  }

  /** What is known of the fused macros of a statement. */
  lemma FusedStatement(w: World, limit: nat, s: Statement, env: AEnv)
    requires WellFormed(s.body) && KnownDumps(s.body)
    ensures Linked(CompiledCode(s), FusedMacros(s))
    ensures var r := Exec(w, limit, FusedMacros(s), AState([], env));
            && Same(r, MeaningOf(w, s, env, limit))
            && (r.Err? ==> FailsAs(w, s, limit, env, r.error))
  {
    hide Linked, Fuse, Optimized, StatementMacros, Exec, MeaningOf, Split, ErrorsAgree, AllKnown, Allowed, WellTyped,
      Need, DumpsIn, Names, AssignsDump;
    var ms, a := StatementMacros(s), AState([], env);
    StatementLinked(s);
    LinkedNonempty(CodeOf(s), ms);
    OptimizedLinked(CodeOf(s), ms);
    LinkedKnown(CodeOf(s), ms);
    OptimizerFuses(ms, CodeOf(s).consts);
    SplitMeaning(w, limit, FusedMacros(s), a);
    SplitErrors(w, limit, FusedMacros(s), a);
    SplitOfSingles(ms);
    StatementMeans(w, limit, s, env);
    LinkedKnown(CompiledCode(s), FusedMacros(s));
    ExecErrors(w, limit, FusedMacros(s), a);
    MeaningErrors(w, s, env, limit);
    PanicKept(w, limit, FusedMacros(s), a);
    if Need(s.body) <= limit {
      StatementFits(w, limit, s, FusedMacros(s), env);
    }
    if WellTyped(s) {
      FusedTyped(w, limit, s, env);
    }
  }

  lemma FusedTyped(w: World, limit: nat, s: Statement, env: AEnv)
    requires WellTyped(s) && LoopsNonempty(FusedMacros(s)) && LoopsNonempty(StatementMacros(s))
    requires Split(FusedMacros(s)) == Split(StatementMacros(s))
    ensures var r := Exec(w, limit, FusedMacros(s), AState([], env));
            && (Need(s.body) <= limit ==> ErrorsAgree(w, limit, FusedMacros(s), AState([], env)))
            && (DumpsIn(env, Names(s.body)) && r.Err? ==> Allowed(r.error, limit, Need(s.body)))
  {
    hide Fuse, StatementMacros, Exec, Split, ErrorsAgree, Allowed, WellTyped, Need, Names, Check;
    var ms, a, t := FusedMacros(s), AState([], env), Types([], Names(s.body));
    StatementChecks(s);
    SplitCheck(StatementMacros(s), t, Need(s.body));
    SplitCheck(ms, t, Need(s.body));
    if Need(s.body) <= limit {
      CheckedErrorsAgree(w, limit, ms, a, t, Need(s.body));
    }
    if DumpsIn(env, Names(s.body)) {
      CheckedSafe(w, limit, ms, a, t, Need(s.body));
    }
  }

  /**
   * The whole pipeline: the optimized code of a printed statement, run from any
   * state with any gas, halts in the main chunk in exactly the state the
   * statement means, or is out of gas, or fails, and then its meaning is an
   * error. The two errors are the same exactly if ErrorsAgree holds, so
   * always for a well-typed statement with enough stack. No dump that existed
   * before has changed.
   */
  lemma StatementRuns(w: World, s: Statement, limit: nat, s0: State, gas: int)
    requires WellFormed(s.body) && KnownDumps(s.body) && EnvProper(s0)
    ensures var out := Run(Setup(w, CompiledCode(s), limit), Reset(s0), gas);
            var env := DerefEnv(s0.heap, s0.env);
            && HeapGrows(s0.heap, out.s.heap)
            && (|| (out.Failed? && out.e == OutOfGas)
                || (out.Halted? && MeaningOf(w, s, env, limit) == Ok(Abs(out.s)) && EnvProper(out.s) && InMain(out.s))
                || (out.Failed? && FailsAs(w, s, limit, env, out.e)))
  {
    hide Run, Linked, FusedMacros, MeaningOf, Exec, Abs, FailsAs, CompiledCode;
    var env, m := DerefEnv(s0.heap, s0.env), Setup(w, CompiledCode(s), limit);
    FusedStatement(w, limit, s, env);
    RunEnds(m, s0, FusedMacros(s), gas);
    DumpsImmutable(m, s0, FusedMacros(s), gas);
  }

  /** Every run ends by itself: for some number of turns, a larger gas is never used up. */
  lemma StatementTerminates(w: World, s: Statement, limit: nat, s0: State) returns (n: nat)
    requires WellFormed(s.body) && KnownDumps(s.body) && EnvProper(s0)
    ensures forall gas | gas > n :: var out := Run(Setup(w, CompiledCode(s), limit), Reset(s0), gas);
              out.Halted? || (out.Failed? && out.e != OutOfGas)
  {
    hide Run, Linked, FusedMacros, Exec, Steps, ExecCost, CompiledCode, FailsAs;
    var m := Setup(w, CompiledCode(s), limit);
    FusedStatement(w, limit, s, DerefEnv(s0.heap, s0.env));
    n := ProgramRun(m, s0, FusedMacros(s));
    LinkedKnown(m.code, FusedMacros(s));
    ExecErrors(w, limit, FusedMacros(s), Initial(s0));
    forall gas | gas > n ensures Run(m, Reset(s0), gas) == Steps(m, Reset(s0), n) {
      GasIsEnough(m, Reset(s0), n, gas);
    }
  }

  /**
   * Type safety of whole runs: whatever the gas, the optimized code of a
   * well-typed statement, run with dumps in the variables it loads, halts in
   * the main chunk, or is out of gas, or fails because of an unknown variable,
   * a bad regular expression, a file that cannot be loaded, or a stack limit
   * below what the statement needs.
   */
  lemma RunsSafe(w: World, s: Statement, limit: nat, s0: State, gas: int)
    requires WellTyped(s) && EnvProper(s0) && DumpsIn(DerefEnv(s0.heap, s0.env), Names(s.body))
    ensures var out := Run(Setup(w, CompiledCode(s), limit), Reset(s0), gas);
            || (out.Halted? && InMain(out.s))
            || (out.Failed? && (out.e == OutOfGas || Allowed(out.e, limit, Need(s.body))))
  {
    hide Run, CompiledCode, MeaningOf, ErrorsAgree, Allowed, Need, Names, Abs;
    TypedKnown(s.body);
    StatementRuns(w, s, limit, s0, gas);
  }

  // ----- panics -----

  /**
   * When a run panics, whatever the types of the statement and of the variables
   * it loads: if it finds the stack full, or if it assigns a plain dump to
   * several names; and it never finds the stack full when the limit is at least
   * what the statement needs.
   */
  lemma PanicsExactly(w: World, s: Statement, limit: nat, s0: State, gas: int)
    requires WellFormed(s.body) && KnownDumps(s.body) && EnvProper(s0)
    ensures var out := Run(Setup(w, CompiledCode(s), limit), Reset(s0), gas);
            var assigns := AssignsDump(w, s, DerefEnv(s0.heap, s0.env), limit);
            || (out.Failed? && out.e == OutOfGas)
            || (&& (out.Failed? && IsPanic(out.e) <==> assigns || (out.Failed? && out.e == StackOverflow))
                && (Need(s.body) <= limit ==> (out.Failed? && IsPanic(out.e) <==> assigns)))
  {
    hide Run, CompiledCode, MeaningOf, ErrorsAgree, Allowed, Need, Names, Abs, AssignsDump, KnownDumps, WellFormed;
    StatementRuns(w, s, limit, s0, gas);
    MeaningErrors(w, s, DerefEnv(s0.heap, s0.env), limit);
  }

  /** The body is a chain of where and delete, or graph on one, with comparisons between atoms only. */
  predicate ChainOrGraph(d: Dumps) {
    FlatChain(d) || (d.Filtered? && d.fn.FnGraph? && FlatChain(d.recv) && Flat(d.pred))
  }

  /**
   * A where/delete chain runs in 4 slots and graph on one in 5, whatever the
   * dump, the length of the chain and the types of what it compares: with that
   * limit the run of a statement never finds the stack full.
   */
  lemma ChainsFit(w: World, s: Statement, limit: nat, s0: State, gas: int)
    requires WellFormed(s.body) && KnownDumps(s.body) && EnvProper(s0)
    requires ChainOrGraph(s.body) && limit >= if FlatChain(s.body) then 4 else 5
    ensures var out := Run(Setup(w, CompiledCode(s), limit), Reset(s0), gas); !(out.Failed? && out.e == StackOverflow)
  {
    hide Run, CompiledCode, MeaningOf, ErrorsAgree, Allowed, Need, Names, Abs, AssignsDump, KnownDumps, WellFormed,
      Flat;
    if FlatChain(s.body) {
      FlatChainNeed(s.body);
    } else {
      FlatChainNeed(s.body.recv);
      assert s.body == Filtered(s.body.recv, s.body.asMethod, FnGraph, s.body.pred);
    }
    StatementRuns(w, s, limit, s0, gas);
  }

  // ----- a statement whose error changes -----

  // g | where(id == 1 or "a" matches "(") | where(id == "x")
  const TWO_FILTERS: Statement :=
    Statement([], Filtered(Filtered(Var("g"), false, FnWhere, ID_OR_PATTERN), false, FnWhere, ID_IS_TEXT))

  lemma TwoFiltersFused()
    ensures FusedMacros(TWO_FILTERS) == [Load("g"), Loop([Filter(1, true, ID_OR_PATTERN), Filter(2, true, ID_IS_TEXT)])]
  {
    var f1, f2 := Filter(1, true, ID_OR_PATTERN), Filter(2, true, ID_IS_TEXT);
    var rest := [Loop([f1]), Loop([f2])];
    assert MacrosOf(TWO_FILTERS.body.recv, 1) == [Load("g"), Loop([f1])];
    assert StatementMacros(TWO_FILTERS) == [Load("g")] + rest;
    assert ([Load("g")] + rest)[1..] == rest;
    assert rest[1..] == [Loop([f2])] && rest[1..][1..] == [];
    assert RunOf(rest[1..]) == 1 && RunOf(rest) == 2;
    assert rest[..2] == rest && FiltersOf(rest) == [f1, f2];
    assert rest[2..] == [] && Fuse(rest, 0) == [Loop([f1, f2])];
  }

  /**
   * On a dump of goroutines 1 and 2 the statement means a bad regular expression, and its run reports mismatched
   * types,
   * unless its gas is used up first.
   */
  lemma FusionChangesError(w: World, limit: nat, s0: State) returns (n: nat)
    requires !w.compiles("(") && limit >= 4 && EnvProper(s0)
    requires "g" in s0.env && DerefEnv(s0.heap, s0.env)["g"] == VDump([WithId(1), WithId(2)])
    ensures MeaningOf(w, TWO_FILTERS, DerefEnv(s0.heap, s0.env), limit) == Err(BadRegex)
    ensures forall gas | gas > n ::
              var out := Run(Setup(w, CompiledCode(TWO_FILTERS), limit), Reset(s0), gas);
              out.Failed? && out.e == MismatchedTypes
  {
    hide Run, CompiledCode, Survivors, InTurn, ScansAgree, Linked, FusedMacros, StatementMacros;
    var env, gs := DerefEnv(s0.heap, s0.env), [WithId(1), WithId(2)];
    var f1, f2 := Filter(1, true, ID_OR_PATTERN), Filter(2, true, ID_IS_TEXT);
    TwoFiltersFused();
    FusedErrorDiffers(w, 1, 2, limit - 1);
    LoadedThenLoop(w, limit, "g", gs, [f1, f2], env);
    assert FusedMacros(TWO_FILTERS) == [Load("g"), Loop([f1, f2])];
    FusedStatement(w, limit, TWO_FILTERS, env);
    var m := Setup(w, CompiledCode(TWO_FILTERS), limit);
    TwoFiltersMean(w, limit, env);
    n := StatementTerminates(w, TWO_FILTERS, limit, s0);
    forall gas | gas > n ensures Run(m, Reset(s0), gas).Failed? && Run(m, Reset(s0), gas).e == MismatchedTypes {
      RunEnds(m, s0, FusedMacros(TWO_FILTERS), gas);
    }
  }

  lemma LoadedThenLoop(w: World, limit: nat, name: string, gs: seq<Goroutine>, fs: seq<Filter>, env: AEnv)
    requires name in env && env[name] == VDump(gs) && limit > 0
    ensures Exec(w, limit, [Load(name), Loop(fs)], AState([], env)) ==
            TopReplaced(AState([VDump(gs)], env), Survivors(w, fs, gs, limit - 1))
  {
    hide Survivors;
    var a := AState([VDump(gs)], env);
    ExecCons(w, limit, Load(name), [Loop(fs)], AState([], env));
    assert [Load(name)] + [Loop(fs)] == [Load(name), Loop(fs)];
    assert AState([], env).stack + [VDump(gs)] == a.stack;
    ExecSingle(w, limit, Loop(fs), a);
    ExecLoop(w, limit, fs, a);
  }

  lemma TwoFiltersMean(w: World, limit: nat, env: AEnv)
    requires !w.compiles("(") && limit >= 4 && "g" in env && env["g"] == VDump([WithId(1), WithId(2)])
    ensures MeaningOf(w, TWO_FILTERS, env, limit) == Err(BadRegex)
    ensures WellFormed(TWO_FILTERS.body) && KnownDumps(TWO_FILTERS.body)
  {
    hide Accept;
    var gs := [WithId(1), WithId(2)];
    WitnessFilters(w, 1, 2, limit - 2);
    WitnessValues(w, limit - 2);
    assert gs[1..] == [WithId(2)];
    assert Select(w, ID_OR_PATTERN, true, gs[1..], limit - 1) == Err(BadRegex);
    assert Select(w, ID_OR_PATTERN, true, gs, limit - 1) == Err(BadRegex);
    assert Denote(w, TWO_FILTERS.body.recv, env, limit) == Err(BadRegex);
  }
}
