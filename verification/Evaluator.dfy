/**
 * Evaluation of a line of input (internal/evaluator.go): compile, run, and on
 * an error put the environment back. Dump objects stay in the heap and are
 * shared between variables; evaluation never changes one that existed before.
 */
module Evaluation {
  import opened Results
  import opened Goroutines
  import opened Graphs
  import opened Chunks
  import opened Predicates
  import opened Machine
  import opened LoopRuns
  import opened MacroRuns
  import opened Optimizer
  import opened Syntax
  import opened Parser
  import opened StatementParsing
  import opened Meaning
  import opened ErrorOrder
  import opened TypeSafety
  import opened EndToEnd
  import opened Compilers
  import opened VirtualMachine

  datatype Answer = Done | NotCompiled(parseError: ParseError) | NotRun(error: Error)

  /** The code compile returns for the tokens. */
  function Compiled(st: PState): Code {
    Code(st.chunks[st.cur := Optimized(st.chunks[st.cur], 0)], st.consts)
  }

  /** Eval as a function: the machine state and the answer. */
  function Evaluated(w: World, limit: nat, s: State, toks: seq<Token>, gas: int): (State, Answer) {
    var p := ParseProgram(toks);
    if p.err.Some? then (s, NotCompiled(p.err.value))
    else
      match Run(Setup(w, Compiled(p.st), limit), Reset(s), gas)
      case Halted(s1) => (s1, Done)
      case Failed(e, s1) => (s1.(env := s.env), NotRun(e))
      case At(s1) => (s1, Done)
  }

  class Evaluator {
    const vm: VM

    constructor (vm: VM)
      ensures this.vm == vm
    {
      this.vm := vm;
    }

    /** Compile, capture the environment, run, and roll the environment back on an error. */
    method Eval(toks: seq<Token>, gas: int) returns (answer: Answer)
      modifies vm
      ensures (vm.Now(), answer) == Evaluated(vm.world, vm.limit, old(vm.Now()), toks, gas)
    {
      hide Run, ParseProgram, Optimized;
      var compiler := new Compiler(toks);
      var parseError := compiler.Compile();
      if parseError.Some? {
        return NotCompiled(parseError.value);
      }
      var oldEnv := vm.env;
      vm.ResetWith(Code(compiler.chunks, compiler.consts));
      var err := vm.RunLoop(gas);
      if err.Some? {
        vm.env := oldEnv;
        return NotRun(err.value);
      }
      answer := Done;
    }
  }

  lemma CompiledStatement(s: Statement)
    requires WellFormed(s.body)
    ensures var p := ParseProgram(PrintStatement(s)); p.err.None? && Compiled(p.st) == CompiledCode(s)
  {
    hide ParseProgram, PrintStatement, Optimized, StatementBehind, CodeOf;
    StatementParsed(s);
    CodeOfBehind(s, |PrintStatement(s)|);
    var chunks := CodeOf(s).chunks;
    assert chunks[0 := Optimized(chunks[0], 0)] == [Optimized(chunks[0], 0)] + chunks[1..];
  }

  /** What evaluating one printed statement does to the environment and the heap. */
  ghost predicate Transaction(w: World, limit: nat, s0: State, s: Statement, s1: State, answer: Answer) {
    var env := DerefEnv(s0.heap, s0.env);
    var meaning := MeaningOf(w, s, env, limit);
    && HeapGrows(s0.heap, s1.heap)
    && EnvProper(s1)
    && match answer
       case Done => meaning.Ok? && DerefEnv(s1.heap, s1.env) == meaning.value.env
       case NotRun(e) =>
         && s1.env == s0.env && DerefEnv(s1.heap, s1.env) == env
         && (e == OutOfGas || FailsAs(w, s, limit, env, e))
       case NotCompiled(_) => false
  }

  /**
   * Evaluation is transactional: a printed statement compiles; if it succeeds,
   * the environment is the one the statement means; if it fails, the
   * environment map is the one before; and in either case every dump that
   * existed has kept its goroutines, although variables may share it. A failing
   * run has never added to an indexed dump, popped an empty stack or lost a
   * register or frame, and its error is the one of the meaning as FailsAs says.
   */
  lemma EvaluationIsTransactional(w: World, limit: nat, s0: State, s: Statement, gas: int)
    requires WellFormed(s.body) && KnownDumps(s.body) && EnvProper(s0)
    ensures var r := Evaluated(w, limit, s0, PrintStatement(s), gas);
            Transaction(w, limit, s0, s, r.0, r.1)
  {
    hide Run, ParseProgram, PrintStatement, CompiledCode, MeaningOf, Compiled, FailsAs;
    CompiledStatement(s);
    StatementRuns(w, s, limit, s0, gas);
    var out := Run(Setup(w, CompiledCode(s), limit), Reset(s0), gas);
    EnvGrows(s0.heap, out.s.heap, s0.env);
    assert out.Halted? ==> Abs(out.s).env == DerefEnv(out.s.heap, out.s.env);
  }

  // ----- sessions -----

  /** The states and answers of a session: printed statements evaluated one after the other. */
  function Session(w: World, limit: nat, s: State, lines: seq<Statement>, gas: int): (State, seq<Answer>)
    decreases |lines|
  {
    if lines == [] then (s, [])
    else
      var (s1, answer) := Evaluated(w, limit, s, PrintStatement(lines[0]), gas);
      var (s2, answers) := Session(w, limit, s1, lines[1..], gas);
      (s2, [answer] + answers)
  }

  /** The environment after the statements that were done, the others having had no effect. */
  function SessionEnv(w: World, limit: nat, env: AEnv, lines: seq<Statement>, answers: seq<Answer>): AEnv
    requires |lines| == |answers|
    decreases |lines|
  {
    if lines == [] then env
    else
      var m := MeaningOf(w, lines[0], env, limit);
      SessionEnv(w, limit, if answers[0] == Done && m.Ok? then m.value.env else env, lines[1..], answers[1..])
  }

  /**
   * Over any session, the variables seen through the heap are what the successful statements mean, and every
   * dump of the start is unchanged.
   */
  lemma {:induction false} SessionMeans(w: World, limit: nat, s: State, lines: seq<Statement>, gas: int)
    requires EnvProper(s) && forall l | l in lines :: WellFormed(l.body) && KnownDumps(l.body)
    ensures var r := Session(w, limit, s, lines, gas);
            && |r.1| == |lines|
            && HeapGrows(s.heap, r.0.heap) && EnvProper(r.0)
            && DerefEnv(r.0.heap, r.0.env) == SessionEnv(w, limit, DerefEnv(s.heap, s.env), lines, r.1)
    decreases |lines|
  {
    hide Evaluated, PrintStatement, MeaningOf, DerefEnv;
    if lines != [] {
      assert lines[0] in lines && forall l | l in lines[1..] :: l in lines;
      EvaluationIsTransactional(w, limit, s, lines[0], gas);
      var r := Evaluated(w, limit, s, PrintStatement(lines[0]), gas);
      SessionMeans(w, limit, r.0, lines[1..], gas);
      var rest := Session(w, limit, r.0, lines[1..], gas);
      assert ([r.1] + rest.1)[1..] == rest.1;
      HeapGrowsTrans(s.heap, r.0.heap, rest.0.heap);
    }
  }

  // ----- type safety of sessions -----

  /** Whether a dump expression has a diff as its value, if it has one. */
  predicate IsDiff(d: Dumps) {
    d.Combined? && d.fn.FnDiff?
  }

  /** The variables that may hold a diff after s has been answered, if those in diffs could before. */
  function DiffsAfter(diffs: set<string>, s: Statement, answer: Answer): set<string> {
    if answer != Done || |s.targets| != 1 then diffs
    else if IsDiff(s.body) then diffs + {s.targets[0]}
    else diffs - {s.targets[0]}
  }

  ghost predicate DumpsBut(env: AEnv, diffs: set<string>) {
    forall x | x in env && x !in diffs :: env[x].VDump?
  }

  /** Every well-typed line that loads no diff was done, was out of gas, or has an allowed error. */
  ghost predicate SafeAnswers(limit: nat, lines: seq<Statement>, answers: seq<Answer>, diffs: set<string>)
    requires |lines| == |answers|
    decreases |lines|
  {
    lines == [] ||
    (&& (WellTyped(lines[0]) && Names(lines[0].body) !! diffs ==> SafeAnswer(limit, lines[0], answers[0]))
     && SafeAnswers(limit, lines[1..], answers[1..], DiffsAfter(diffs, lines[0], answers[0])))
  }

  ghost predicate SafeAnswer(limit: nat, s: Statement, answer: Answer) {
    || answer.Done?
    || (answer.NotRun? && (answer.error.OutOfGas? || Allowed(answer.error, limit, Need(s.body))))
  }

  lemma {:induction false} DiffValue(w: World, d: Dumps, env: AEnv, room: int)
    requires WellFormed(d)
    ensures Denote(w, d, env, room).Ok? ==>
              if IsDiff(d) then Denote(w, d, env, room).value.VDiff? else Denote(w, d, env, room).value.VDump?
  {
    hide Select, InGraph, Shared, Unshared;
  }

  /** The variables that hold diffs are those that were assigned one last. */
  lemma DiffsKnown(w: World, limit: nat, s: Statement, env: AEnv, diffs: set<string>)
    requires WellFormed(s.body) && DumpsBut(env, diffs) && MeaningOf(w, s, env, limit).Ok?
    ensures DumpsBut(MeaningOf(w, s, env, limit).value.env, DiffsAfter(diffs, s, Done))
  {
    hide Denote, IsDiff;
    DiffValue(w, s.body, env, limit);
  }

  lemma LineSafe(w: World, limit: nat, s0: State, s: Statement, gas: int, diffs: set<string>)
    requires EnvProper(s0) && WellFormed(s.body) && KnownDumps(s.body)
    requires DumpsBut(DerefEnv(s0.heap, s0.env), diffs)
    ensures var r := Evaluated(w, limit, s0, PrintStatement(s), gas);
            && EnvProper(r.0) && DumpsBut(DerefEnv(r.0.heap, r.0.env), DiffsAfter(diffs, s, r.1))
            && (WellTyped(s) && Names(s.body) !! diffs ==> SafeAnswer(limit, s, r.1))
  {
    hide Evaluated, PrintStatement, MeaningOf, DerefEnv, WellTyped, Names, Need, ErrorsAgree, DiffsAfter;
    EvaluationIsTransactional(w, limit, s0, s, gas);
    var env, r := DerefEnv(s0.heap, s0.env), Evaluated(w, limit, s0, PrintStatement(s), gas);
    NotDoneKeepsDiffs(diffs, s, r.1);
    if r.1.Done? {
      DiffsKnown(w, limit, s, env, diffs);
    }
  }

  lemma NotDoneKeepsDiffs(diffs: set<string>, s: Statement, answer: Answer)
    ensures answer != Done ==> DiffsAfter(diffs, s, answer) == diffs
  {
  }

  /**
   * Type safety of sessions: whatever other lines do, a well-typed line that
   * loads no variable last assigned a diff never fails for a reason that is not
   * allowed.
   */
  lemma {:induction false} SessionSafe(w: World, limit: nat, s: State, lines: seq<Statement>, gas: int,
                                       diffs: set<string>)
    requires EnvProper(s) && forall l | l in lines :: WellFormed(l.body) && KnownDumps(l.body)
    requires DumpsBut(DerefEnv(s.heap, s.env), diffs)
    ensures var answers := Session(w, limit, s, lines, gas).1;
            |answers| == |lines| && SafeAnswers(limit, lines, answers, diffs)
    decreases |lines|
  {
    hide Evaluated, PrintStatement, DerefEnv, DumpsBut, DiffsAfter, SafeAnswer, WellTyped, Names;
    if lines != [] {
      assert lines[0] in lines && forall l | l in lines[1..] :: l in lines;
      LineSafe(w, limit, s, lines[0], gas, diffs);
      var r := Evaluated(w, limit, s, PrintStatement(lines[0]), gas);
      SessionSafe(w, limit, r.0, lines[1..], gas, DiffsAfter(diffs, lines[0], r.1));
      var rest := Session(w, limit, r.0, lines[1..], gas);
      assert ([r.1] + rest.1)[1..] == rest.1;
    }
  }
}
