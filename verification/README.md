# Verification of the query language of goroutine-explore

goroutine-explore reads goroutine dumps and answers queries about them, such as
`a = load("x.txt") | where(state == "running" and lines > 10) | graph(id == 7)`.
A query is compiled in one pass to bytecode, optimized in place, and run by a
stack machine. This project models that implementation, the operations on dumps
behind it, and the reader and writer of dump files, and proves them correct.

The path from text to result is covered end to end. `EndToEnd.StatementRuns` and
`Evaluation.EvaluationIsTransactional` put it together: the printed form of any
well-formed statement is parsed completely; the optimized code, run from any
state with any amount of gas, ends in exactly the environment the statement
means, or fails exactly when its meaning is an error, or runs out of gas; and no
dump that existed before has changed. The error of a failing run is the one the
statement means under an exactly stated condition, which every well-typed
statement meets that has enough stack.

`dafny verify dfyconfig.toml` checks the whole project.

## How it is organized

| module | what it holds |
|---|---|
| `Results`, `Goroutines`, `Chunks` | shared values; opcodes and their 64-bit encoding |
| `Predicates`, `Comparisons` | predicate syntax, short-circuit meaning, cost, stack depth and types; what the operators mean |
| `Syntax` | tokens, statements, and a printer with as few parentheses as possible |
| `Codegen` | the constant table, structural code of predicates and of the main chunk as a list of macros |
| `Machine` | the virtual machine as a step function; dumps are heap objects referred to by address |
| `Pipelines` | the meaning and the cost of the main chunk on dump contents |
| `PredicateRuns`, `LoopRuns`, `MacroRuns` | the machine running generated code does what it means |
| `Fusion`, `ErrorOrder`, `Optimizer`, `Chains` | loop fusion on macros, which error it reports, the instruction-level pass that carries it out, what it makes of a chain, and chains against connectives |
| `Programs` | whole runs, gas, immutability of dumps |
| `Parser`, `PredicateParsing`, `QueryParsing`, `StatementParsing`, `Precedence`, `FunctionStyle` | the one-pass parser, parsing what was printed, how operators group, and calls with the receiver as first argument |
| `Meaning`, `TypeSafety` | denotation of statements, a type checker for main chunks |
| `StackBound`, `Failures` | stack heights of programs, typed or not; the errors they can end with |
| `EndToEnd` | end-to-end results |
| `CodeSafety` | well-formed code |
| `Compilers`, `VirtualMachine`, `Evaluation` | the imperative classes, proved against the functions above |
| `Graphs`, `GraphClosure`, `GraphQueries`, `SetOps`, `SetQueries` | graph closure, union, intersect, diff |
| `Dumps`, `Dot` | de-duplication index and paging; node and edge bookkeeping of the dot export |
| `Loading`, `Reader`, `Sections`, `SavedQueries` | reading and writing dump text, what a text says section by section, saving the answers of queries |
| `FilterQueries` | what where and delete answer on a loaded dump, field by field |

Code of the source that updates state is a class or a method with loops
(`Compilers.Compiler`, `Compilers.ChunkBuffer`, `VirtualMachine.VM`,
`Evaluation.Evaluator`, `Dumps.GoroutineDump`, `Reader.GoroutineRecord`, the
work-list loops of `Graphs`). Each of its methods is proved equal to a function
on values, and the results below are about those functions.

Things outside the program are parameters of the model: which regular
expressions compile and what they match, the sort, the file behind a path, the
header and created-by patterns, and the trace hash.

## What the code does where one might expect otherwise

The model follows the code in these places.

- Assigning a plain dump to several names does not report an error but indexes
  past the stack and panics (internal/vm.go:806-816); it is the error
  `BadAddress` here. `EndToEnd.PanicsExactly` says that, with enough stack, no
  other run of a compiled statement with known fields panics, and that this one
  always does unless its gas is used up first. A second multi-assignment in one line panics while it is
  compiled (internal/compiler.go:772-780), the parse error `Panic` here.
- `union` keeps every goroutine of both sides, also equal ones
  (internal/vm.go:507-529); the user documentation says duplicates are removed.
  `SetOps.UnionUnique` says when the answer has none.
- `graph` shares its visited set between start goroutines, so a descendant of a
  selected goroutine can be missed. `GraphClosure.GraphExactly` says exactly what
  is in the answer, `MissedExactly` which goroutines are missed, `GraphFull` that
  the answer is the full closure if and only if there are none, and
  `OrderMatters` is a dump for which there is one.
- A call with a bare variable as its first argument, such as `union(g1, g2)`, does not compile: the
  comma is taken for a list of assignment targets (internal/compiler.go:206-212), although the user
  documentation writes it so and the comments promise the bytecode of `g1.union(g2)`.
  `FunctionStyle.FunctionStyleExactly` says that this is the only receiver, among variables, files, method
  calls on a variable and anything in parentheses, for which the two styles differ.
- `.lines` counts the header line too (internal/goroutines.go:271, `FilterQueries.FieldsRead`), and the
  accessor of the parent is `.createdBy`; the user documentation speaks of the lines of the trace and of
  `.createdby`, which is no field.
- An unknown field pushes nothing (internal/vm.go:604-634). Programs that use one
  are excluded (`Known`). Comparing two booleans is always false.
- Fusion can change which error a failing query reports, because it asks all
  filters about one goroutine before it turns to the next;
  `EndToEnd.FusionChangesError` is such a query. It never changes whether an error
  is reported. `Programs.FusionPreservesRuns` says that both codes report the same
  error if and only if the loop that fails meets the same error first both ways,
  and `TypeSafety.TypedErrorsKept` that a well-typed query with enough stack always
  does.
- Decoding keeps operands of up to 48 bits, encoding places the opcode at bit 55;
  `Chunks.EncodingSurvives` says for which values the two fit together.
- A full stack is a Go panic nobody recovers from (internal/vm.go:186-191). The
  model treats it as the error `StackOverflow`. `EndToEnd.PanicsExactly` rules it
  out for every statement whose syntactic need is within the limit, whatever the
  types of what it compares and loads, and `EndToEnd.ChainsFit` for where/delete
  chains and `graph` on them with 4 and 5 slots.

## Model

| member | source | states |
|---|---|---|
| Chunks.EncodingSurvives | internal/chunk.go:85-99 | decode gives back the opcode and operand that were encoded if and only if the opcode is below 2^9 and the operand below 2^48 |
| Chunks.WordBack | internal/chunk.go:89-99 | the machine word of an instruction with an operand below 2^48 decodes to the opcode and operand it was made from |
| Chunks.WordDetermines | internal/chunk.go:89-99 | a machine word says which instruction it is: two instructions with operands below 2^48 and the same word are the same, opcode and operand |
| Codegen.ExprCodeStable | internal/compiler.go:766-780 | code emitted early stays valid when later code adds constants: every operand still denotes its constant |
| Codegen.LayoutStable | internal/compiler.go:766-780 | the same for the main chunk |
| Codegen.ConstsNoDuplicates | internal/compiler.go:772-780 | compiling a predicate keeps the constant table free of duplicates |
| Predicates.WellTypedEval | internal/vm.go:299-405 | a well-typed predicate evaluates to a value of its type, or fails only with a bad regular expression, or for lack of the stack slots it is known to need |
| Predicates.IllTypedApply | internal/vm.go:299-405 | the types refuse exactly the comparisons that are errors, and those of two booleans or two maps, which are always false |
| Predicates.EnoughRoom | internal/vm.go:186-191 | with the syntactic depth of a predicate as free slots its evaluation never overflows, and the result does not depend on how many more are free |
| Predicates.FlatDepth | internal/compiler.go:271-298 | nesting and/or costs no stack: comparisons between atoms never need more than two slots |
| PredicateRuns.ExprRuns | internal/compiler.go:271-330 | running the code of any predicate pushes its short-circuit value above an otherwise unchanged stack, in an exactly known number of instructions, or fails with the error of the evaluation, whatever the cache of compiled expressions holds; what the values of leaves and comparisons are is in `FilterQueries` and `Comparisons` |
| Predicates.StringOrderTotal | internal/vm.go:332-352 | the order on strings that comparisons use is total and strict |
| Comparisons.StringLessAt | internal/vm.go:332-352 | a string is less than another if and only if it has the smaller character at the first position where they differ, or is a proper prefix of it |
| Comparisons.NumbersCompare | internal/vm.go:332-352 | comparing two operands with number values by each operator gives the arithmetic relation; the others fail |
| Comparisons.StringsCompare | internal/vm.go:332-352 | the same for strings, with the order given by the first position where they differ |
| Comparisons.StringsContain | internal/vm.go:354-430 | `a contains b` and `b in a` are true if and only if a is some text, b, and some text in a row; `a matches b` and `a =~ b` match the pattern b on the subject a, and `!~` negates that |
| Comparisons.LabelsContain | internal/vm.go:387-396 | labels contain a string if and only if there is a label of that name |
| Comparisons.KindsCompare | internal/vm.go:301-330 | ordering and equality succeed if and only if both values are of one kind |
| LoopRuns.FilterRuns | internal/vm.go:838-855 | calling a predicate chunk and branching on its result restores the caller's frame and stack, and goes on behind the branch or back to the loop head as the filter accepts or rejects |
| LoopRuns.TurnsRun | internal/vm.go:654-713 | from any iterator position, the loop appends to the temporary dump exactly the accepted goroutines that are left, in order, and ends because goroutines run out |
| LoopRuns.LoopRun | internal/compiler.go:566-598 | a filter loop replaces the dump on the stack by a new dump of the order-preserving subsequence of survivors, at an exact cost, wherever the dump's iterator was, and changes no existing dump |
| MacroRuns.SetMacroRuns | internal/vm.go:507-592 | union, intersect, diff and graph on the machine compute the set operation on contents, with the operands the right way round, or fail as the types say |
| MacroRuns.MacrosRun | internal/vm.go:84-164 | running the layout of any list of macros has exactly the effect, the error and the cost of their meaning |
| Fusion.SurvivorsCompose | internal/compiler.go:782-786 | filtering by the first predicate and then by the others is filtering by all in one loop, up to which error surfaces |
| Fusion.SinglesMean | internal/compiler.go:782-834 | a fused loop means what its filters mean as separate loops, and costs exactly 3(m+1) less at each interior boundary with m survivors |
| Fusion.SplitMeaning | internal/compiler.go:782-834 | however the filters of a program are grouped into loops, it succeeds in the same cases with the same stack and environment, and the difference in cost is exact |
| ErrorOrder.FailsByGoroutine | internal/compiler.go:782-786 | a fused loop reports the error it meets first goroutine by goroutine |
| ErrorOrder.FailsByFilter | internal/compiler.go:782-786 | separate loops report the error they meet first filter by filter, on the goroutines the filters before have left |
| ErrorOrder.LoopErrorsAgree | internal/compiler.go:800-832 | fusing one loop keeps its whole result, error included, if and only if it succeeds or the two scans meet the same error first |
| ErrorOrder.SplitErrors | internal/compiler.go:787-834 | regrouping the filters of a program keeps its whole result, error included, if and only if the loop it fails in, if any, meets the same error first both ways |
| Optimizer.RunOnLayout | internal/compiler.go:846-874 | in generated code the window of the pass recognizes exactly the single-filter loops |
| Optimizer.PatchedOnLayout | internal/compiler.go:876-899 | removing the window from generated code relocates every later jump correctly, and the ignored error never occurs |
| Optimizer.FusedOnLayout | internal/compiler.go:800-832 | one rewrite turns the layout of n adjacent loops into the layout of the one fused loop followed by the relocated rest |
| Optimizer.OptimizedOnLayout | internal/compiler.go:787-834 | the scan, started anywhere, rewrites a layout into the layout of the fused macros, including the groups it steps over after a rewrite has shortened the code |
| Optimizer.OptimizerFuses | internal/compiler.go:787-834 | the whole pass yields the layout of a program with the same filters in the same order |
| Chains.ChainFused | internal/compiler.go:787-834 | however long a where/delete chain on a variable or a file is, its optimized main chunk is the load, one loop with all filters in their order, and the assignment |
| Chains.WhereAnd | internal/compiler.go:566-598 | in any style, where(p and q) answers what where(p) and then where(q) do, and delete(p or q) what delete(p) and then delete(q) do, or both fail |
| Chains.SurvivorsBoth | internal/compiler.go:782-834 | one loop with both filters, as the optimizer makes it of the chain, gives even the same error as the one filter |
| Programs.ProgramRun | internal/vm.go:84-164 | every run of generated code ends without gas, halted in the main chunk in the state its macros mean, after exactly the instructions ExecCost says, or with their error |
| Programs.OptimizedLinked | internal/compiler.go:787-834 | optimized code is again the code of a program whose calls name the chunks of its predicates |
| Programs.FusionPreservesRuns | internal/compiler.go:787-834 | the optimized code halts exactly when the original does, with the same final stack and environment, and retires exactly Saving fewer instructions; when both fail they report the same error if and only if ErrorsAgree holds |
| Programs.FusionFitsGas | internal/vm.go:92-95 | a run that halts within its gas still halts with it after fusion, in the same final stack and environment |
| Programs.RunIsSteps | internal/vm.go:84-95 | running with gas is running gas - 1 turns without it |
| Programs.GasIsEnough | internal/vm.go:92-95 | once gas exceeds the turns a run takes, it makes no difference |
| Programs.RunEnds | internal/vm.go:84-164 | with gas a run ends as it would without, or is out of gas |
| Programs.StepsExtend | internal/goroutines.go:55-60 | no step of any program, well formed or not, removes a dump or changes the goroutines it already has |
| Programs.DumpsImmutable | internal/vm.go:715-731 | at every point of a run of a compiled program, with any gas, every dump that existed before has its goroutines unchanged |
| PredicateParsing.PrintedParses | internal/compiler.go:116-168 | printing any predicate with minimal parentheses and parsing it consumes exactly its tokens and emits exactly its structural code, jumps patched; how tokens without parentheses group is in `Precedence` |
| PredicateParsing.LogicEmitted | internal/compiler.go:271-298 | the two placeholder jumps of and/or are patched to the start and the end of the right operand |
| Precedence.RunsGroup | internal/compiler.go:35-49 | any number of comparisons with `and` and `or` between them and no parentheses is parsed as the left-nested `or` of the left-nested `and`s of its runs |
| Precedence.WhereGroup | internal/compiler.go:600-613 | the same for a whole query that pipes a variable into where, from its tokens to its code |
| Precedence.ComparisonsGroup | internal/compiler.go:83-96 | `x a y b z` groups to the right if a is ==, !=, =~ or !~ and b is an ordering, contains, in or matches, and to the left for all other operators |
| Precedence.RunsValue | internal/compiler.go:271-298 | when no comparison fails, such a predicate is true if and only if all comparisons of some run are |
| Precedence.WhereRuns | internal/compiler.go:566-598 | so where keeps exactly the goroutines for which all comparisons of some run hold, in order |
| Precedence.PipeInPredicate | internal/compiler.go:600-613 | a pipe ends a predicate, and what comes then is an error unless it is the closing parenthesis |
| Precedence.VariableOperandEnds | internal/compiler.go:451-544 | a pipe or an operator behind a bare variable that is the operand of union, intersect or diff is an error: an operand has to be in parentheses |
| Precedence.FileOperandEnds | internal/compiler.go:451-544 | the same behind a file, also for a method call |
| Precedence.StrayTokenEnds | internal/compiler.go:145-167 | a token that is no operator and no closing parenthesis is consumed and ends the expression, however tightly it binds |
| QueryParsing.PredicateParsed | internal/compiler.go:600-613 | a predicate goes to a new chunk of its own ending in Return, and the main chunk gets the call |
| QueryParsing.FilterParsed | internal/compiler.go:566-598 | parsing where, delete or graph up to the closing parenthesis emits the filter's macros, and its predicate as a new chunk |
| QueryParsing.DumpsParsed | internal/compiler.go:340-379 | parsing a printed dump expression, in either call style and arbitrarily nested, appends the layout of its macros and the chunks of its predicates |
| StatementParsing.StatementParsed | internal/compiler.go:102-114 | every printed well-formed statement compiles without error, consuming all tokens, to its structural code |
| StatementParsing.StatementLinked | internal/compiler.go:600-613 | in compiled code every filter calls the chunk that holds its predicate, every constant is in the table, and none is there twice |
| StatementParsing.MethodAndPipeAgree | internal/compiler.go:340-361 | writing every call of a statement in pipe style gives identical chunks and identical constants |
| FunctionStyle.FunctionStyleExactly | internal/compiler.go:351-379 | a call written with its receiver as the first argument, in parentheses or as a file or a method call on a variable, compiles to the chunks and constants of the method call if and only if the receiver is not a bare variable; if it is, it is an error |
| FunctionStyle.DocumentedUnion | internal/compiler.go:206-212 | for instance `union(g1, g2)` does not compile |
| Meaning.DumpsMean | internal/compiler.go:451-544 | the macros of a dump expression push its denotation, or fail with its error, from any stack |
| Meaning.StatementMeans | internal/vm.go:740-820 | the macros of a statement leave its value on the stack and its assignments in the environment |
| Meaning.FlatChainNeed | internal/compiler.go:566-598 | the syntactic stack need of a where/delete chain with comparisons between atoms is at most 4, and of graph on one at most 5, whatever the length of the chain |
| TypeSafety.CheckedSafe | internal/vm.go:175-234 | a main chunk the type checker accepts leaves values of the predicted kinds, or fails with an allowed error only |
| TypeSafety.SplitCheck | internal/compiler.go:787-834 | the type checker does not notice how filters are grouped into loops |
| TypeSafety.DumpsCheck | internal/compiler.go:340-379 | the code of a well-typed dump expression is accepted within the stack slots it needs, each right operand adding one |
| TypeSafety.TypedErrorsKept | internal/compiler.go:787-834 | with as much stack as the type checker asks for, regrouping the filters of a program it accepts changes nothing, not even the reported error |
| Failures.ExecErrors | internal/vm.go:175-234 | whatever its types, a list of macros with known fields never adds to an indexed dump and never finds a register, frame or constant missing; if it finds the stack empty, ErrorsAgree holds, so the separate loops find it empty too |
| Failures.PanicKept | internal/vm.go:777-820 | regrouping the filters of a program does not change whether it ends in the panic of a plain dump assigned to several names |
| Failures.MeaningErrors | internal/vm.go:777-820 | a statement means that panic if and only if it has several targets and its expression has a plain dump as its value |
| StackBound.HeightSafe | internal/vm.go:186-191 | a program whose stack heights stay within the limit never finds the stack full, whatever its types |
| StackBound.SplitHeight | internal/compiler.go:787-834 | the heights do not depend on how filters are grouped into loops |
| StackBound.DumpsHeight | internal/compiler.go:340-379 | the code of any dump expression pushes one value within the slots the expression needs, each right operand adding one |
| EndToEnd.StatementRuns | internal/vm.go:61-164 | the optimized code of a statement halts in the main chunk in exactly the state the statement means, or is out of gas, or fails and then its meaning is an error; that error is the reported one if and only if ErrorsAgree holds, so always if the statement is well typed and has enough stack; and no earlier dump changes |
| EndToEnd.StatementTerminates | internal/vm.go:654-713 | every statement ends by itself: for some number of turns, any larger gas is never used up |
| EndToEnd.RunsSafe | internal/vm.go:84-234 | whatever the gas, the optimized code of a well-typed statement that loads dumps halts in the main chunk, runs out of gas, or fails for an unknown variable, a bad regular expression, an unreadable file, or a stack limit below its syntactic need |
| EndToEnd.PanicsExactly | internal/vm.go:186-191 | unless it is out of gas, the run of any compiled statement panics if and only if it finds the stack full or assigns a plain dump to several names, and it never finds the stack full when the limit is at least what the statement needs, whatever the types |
| EndToEnd.ChainsFit | internal/compiler.go:566-598 | a statement that is a where/delete chain with comparisons between atoms never finds the stack full with 4 slots, and graph on one with 5, whatever the dump and the types |
| EndToEnd.FusionChangesError | internal/compiler.go:787-834 | a query on two goroutines that means a bad regular expression and whose optimized code, given enough gas, reports mismatched types |
| CodeSafety.PredicateChunkSafe | internal/compiler.go:600-613 | a predicate chunk ends in its only Return, no jump passes it, it calls nothing, and its operands denote constants of the right kind |
| CodeSafety.LinkedSafe | internal/compiler.go:549-613 | in generated code jumps end inside their chunk and calls name existing predicate chunks |
| CodeSafety.CompiledSafe | internal/compiler.go:102-114 | the code of every statement is well formed before and after the optimizer, with the same duplicate-free constants |
| CodeSafety.SafeDecodes | internal/chunk.go:85-99 | every instruction of well-formed code survives its 64-bit encoding when the tables fit 48-bit operands |
| Compilers.Compiler.CreateConst | internal/compiler.go:772-780 | the loop finds the first equal constant or appends a new one |
| Compilers.Compiler.Patch | internal/compiler.go:549-564 | patching rewrites exactly the operand at the address, and panics exactly if the address is not that of a jump |
| Compilers.Compiler.Expression | internal/compiler.go:116-168 | the Pratt loop does what the parser function does |
| Compilers.Compiler.BinaryLogic | internal/compiler.go:271-298 | and/or with its two patches |
| Compilers.Compiler.DumpAccessor | internal/compiler.go:170-226 | variables, single and multiple assignment |
| Compilers.Compiler.FilterLoop | internal/compiler.go:566-598 | the filter loop, its patched exit included |
| Compilers.Compiler.Predicate | internal/compiler.go:600-613 | switching to a new chunk and back to the main one |
| Compilers.Compiler.Compile | internal/compiler.go:102-114 | the object's chunks and constants after compiling and optimizing |
| Compilers.ChunkBuffer.PatchOut | internal/compiler.go:876-899 | the in-place shift and relocation loop, and when it gives up |
| Compilers.ChunkBuffer.CopyCalls | internal/compiler.go:800-821 | the copying loop over a run of adjacent filters reads only what it has not yet overwritten |
| Compilers.ChunkBuffer.OptimizePredicates | internal/compiler.go:787-834 | the in-place pass computes the function that Optimizer.OptimizerFuses is about |
| VirtualMachine.VM.ResetWith | internal/vm.go:61-73 | a run starts with an empty stack, one frame and an empty expression cache, and keeps the environment |
| VirtualMachine.VM.Compare | internal/vm.go:299-405 | ordering, equality, contains and in, with the operand order of the stack |
| VirtualMachine.VM.MatchRegexes | internal/vm.go:407-430 | matching with the cache of compiled expressions |
| VirtualMachine.VM.NextInDump | internal/vm.go:654-713 | starting, advancing and ending an iteration by the tags on the stack |
| VirtualMachine.VM.CombineDumps | internal/vm.go:507-592 | the set operations on the two dumps on the stack |
| VirtualMachine.VM.AssignTargets | internal/vm.go:777-820 | assigning the three parts of a diff |
| VirtualMachine.VM.Execute | internal/vm.go:109-124 | every handler does what the step function says |
| VirtualMachine.VM.NextOp | internal/vm.go:166-173 | fetching the next instruction, or the end of the chunk |
| VirtualMachine.VM.RunLoop | internal/vm.go:84-128 | the gas-limited loop is the run the theorems are about |
| Evaluation.Evaluator.Eval | internal/evaluator.go:69-110 | compile, capture the environment, run, and put it back on an error |
| Evaluation.EvaluationIsTransactional | internal/evaluator.go:88-107 | a successful statement changes the environment as it means, a failing one leaves the map as it was, and in both cases no existing dump changes although variables share it; a failing run has not added to an indexed dump, popped an empty stack, or lost a register, frame or constant, and its error relates to the meaning, to assigned dumps and to the stack need as in EndToEnd.StatementRuns and EndToEnd.PanicsExactly |
| Evaluation.SessionMeans | internal/evaluator.go:69-110 | over any session the variables are what the successful statements mean, one after the other |
| Evaluation.SessionSafe | internal/evaluator.go:69-110 | over any session, a well-typed line that loads no variable last assigned a diff is done, or out of gas, or fails for one of the reasons in EndToEnd.RunsSafe, whatever the other lines do |
| SetOps.IntersectLoop | internal/vm.go:531-550 | the loop keeps the goroutines of the first dump the second also has |
| SetOps.DiffLoop | internal/vm.go:552-592 | one half of diff: what the other dump lacks, and what it also has |
| SetOps.SharedMembers | internal/goroutines.go:111-118 | a goroutine is in the shared part if and only if the other dump has a goroutine with its ID and its trace hash, and in the unshared part otherwise |
| SetOps.PartsAre | internal/vm.go:531-592 | the parts are the goroutines whose pair of ID and hash is among those of the other dump, or is not, in the order of the dump |
| SetOps.PartKeys | internal/vm.go:531-592 | the pairs of ID and hash of the parts are the intersection and the differences of those of the dumps |
| SetQueries.SetAnswers | internal/vm.go:507-592 | what intersect, diff and union answer on any two dump expressions, by the pairs of ID and hash of their goroutines, in order |
| SetQueries.DiffAssigned | internal/vm.go:777-820 | `l, c, r = a.diff(b)` assigns the pairs of a only, of both and of b only, in this order, together all goroutines of a and b, and changes no other variable |
| SetOps.DiffConserves | internal/vm.go:552-592 | as multisets left, common and right together are both inputs; left and right have disjoint keys, and the common keys are exactly those of both |
| SetOps.IntersectKeysCommute | internal/vm.go:531-550 | intersect has the same keys in either argument order |
| SetOps.UnionIsSum | internal/vm.go:507-529 | union is the ID-sorted multiset sum |
| SetOps.UnionUnique | internal/vm.go:507-529 | the answer of union has no pair of ID and hash twice if and only if both dumps have none twice and none in common |
| SetOps.SomeSortSorts | internal/goroutines.go:64-68 | insertion sort returns an ID-sorted permutation, so the assumption on the sort can be met |
| Graphs.FindById | internal/goroutines.go:171-178 | the first goroutine with an ID |
| Graphs.HasGoroutine | internal/goroutines.go:111-118 | true if and only if the pair of ID and hash is among those of the dump |
| Graphs.GraphAncestors | internal/graph.go:44-56 | the loop up the created-by links computes Ascend and ends, also on cycles |
| Graphs.GraphDescendants | internal/graph.go:60-74 | the work-list loop computes Descend and ends |
| Graphs.InGraphOf | internal/graph.go:28-40 | the whole closure with its shared visited set |
| GraphClosure.AscendProperties | internal/graph.go:44-56 | walking up closes the result under parents and adds only ancestors |
| GraphClosure.DescendProperties | internal/graph.go:60-74 | walking down reaches exactly what is connected to the start by goroutines not visited before |
| GraphClosure.RoundKeeps | internal/graph.go:28-40 | one start goroutine preserves the invariant of the closure |
| GraphClosure.GraphExactly | internal/graph.go:28-74 | with unique IDs the answer is free of duplicates, contains the parent of each of its goroutines, and holds a goroutine if and only if it is at or above a selected one, or below one along a chain no goroutine of which was visited for a start no later |
| GraphClosure.MissedExactly | internal/graph.go:28-74 | a goroutine related to a selected one is left out exactly if it is above none of them and every created-by chain from it up to one is blocked by a goroutine at or above a start no later |
| GraphClosure.GraphFull | internal/graph.go:28-74 | the answer is exactly the selected goroutines with their ancestors and descendants if and only if no goroutine is missed |
| GraphClosure.AncestorsFirstIsEnough | internal/graph.go:28-74 | if no selected goroutine comes after one of its descendants, nothing is missed |
| GraphClosure.IdOrderIsEnough | internal/graph.go:12-24 | ID order with parents of smaller ID meets that condition |
| GraphClosure.OrderMatters | internal/graph.go:28-74 | a dump and a selection for which a descendant is missed |
| GraphQueries.SelectedExactly | internal/compiler.go:566-598 | a filter keeps exactly the goroutines for which its predicate has the wanted value, and keeps ID order |
| GraphQueries.GraphAnswers | internal/graph.go:12-40 | graph(p) on a dump with unique IDs answers with an ID-sorted, duplicate-free dump that contains the parents of its goroutines and is exactly the closure of those for which p is true |
| GraphQueries.GraphAnswersFully | internal/graph.go:12-40 | on a dump with unique IDs in any order, graph(p) answers with exactly the selected goroutines, their ancestors and their descendants if and only if none is missed |
| GraphQueries.GraphInIdOrder | internal/graph.go:12-40 | on an ID-sorted dump whose parents have smaller IDs nothing is missed |
| Dumps.GoroutineDump.Add | internal/goroutines.go:55-60 | appends, and panics exactly on an indexed dump |
| Dumps.GoroutineDump.Next | internal/goroutines.go:92-99 | the goroutine at the iterator, which advances, or nothing at the end |
| Dumps.GoroutineDump.Index | internal/goroutines.go:73-90 | builds the index once |
| Dumps.GoroutineDump.Show | internal/goroutines.go:145-169 | shows the goroutines of the dump, or of its index, from offset on, limit of them or as many as are left; the ID of an index item followed by its duplicates is all IDs of the dump with its hash, in order; without limit and offset all IDs shown are those of the dump, each as often as there; in plain mode there are no duplicates |
| Dumps.IndexPartitions | internal/goroutines.go:73-90 | representatives have distinct hashes, one for each hash; a representative's ID followed by its duplicates is all IDs with the hash in dump order; together they are all IDs of the dump, each as often as there; in an ID-sorted dump all these lists are sorted |
| Dumps.PagesTile | internal/goroutines.go:145-169 | pages of any size concatenate to what is shown without a limit, and an offset past the end shows nothing |
| Dot.Scan | internal/graph.go:97-132 | the one pass finds the parents outside the dump, whatever the order of its goroutines |
| Dot.Export | internal/graph.go:97-151 | the source and target of the edges are, in dump order, the parent ID and the ID of exactly the goroutines with a positive parent ID; an edge is drawn as known if and only if the dump has its source; records are all IDs, ovals the parents that are not among them |
| Dot.LinkFromParent | internal/graph.go:126-131 | every edge goes from a parent ID to a record of the dump |
| Dot.ParentLinked | internal/graph.go:126-131 | every goroutine with a parent has its edge |
| Dot.DeclaredOnce | internal/graph.go:97-151 | the source of every edge is declared, as a record exactly if it is in the dump and otherwise as an oval, and exactly once if IDs are unique |
| Loading.LoadFromText | internal/load.go:67-120 | every goroutine loaded is what its header line and a list of clean, non-blank, non-header trace lines make it; which lines those are, and what they make it, is in `Sections` |
| Sections.LoadedExactly | internal/load.go:67-120 | a text loads as one goroutine for each of its header lines, in order, with the header line and its fields, the lines up to the next header or blank line as its trace, their number plus one, the ID on the last created-by line among them or 0, and the hash of the locations on the indented lines that are no created-by lines; it is rejected if and only if a number on a header or on a created-by line of a section does not fit |
| Sections.ReadByPosition | internal/goroutines.go:335-368 | the same for any header and trace lines a goroutine is read from |
| Sections.LinesOneByOne | internal/load.go:73-75 | a newline ends a line, the last one needs none, and a carriage return at its end is no part of it |
| Sections.SanitizeOneByOne | internal/load.go:77-83 | exactly the control characters other than tabs are dropped from a line |
| FilterQueries.FieldsRead | internal/vm.go:594-625 | in a filter, every field of a loaded goroutine has the value its section says: lines is the number of its lines with the header, trace the joined lines, createdBy the ID on the last created-by line, the others those of the header |
| FilterQueries.LabelRead | internal/vm.go:627-633 | labels.k is the value of label k, or "<nil>" if there is none |
| FilterQueries.OtherRead | internal/vm.go:627-636 | any other accessor is no field, unless it starts with .labels, when it is a label name as a whole |
| FilterQueries.FiltersKeep | internal/compiler.go:566-598 | where keeps exactly the goroutines for which its predicate is true and delete exactly the others, in order |
| FilterQueries.WhereLines | internal/vm.go:611-612 | on a loaded dump, where(lines > n) keeps exactly the goroutines that are printed with more than n lines, and delete exactly the others |
| Loading.PrintedRead | internal/goroutines.go:371-393 | reading one printed goroutine ends the one before and adds exactly it |
| Loading.SavedLoads | internal/goroutines.go:203-215 | any goroutines that came from dump texts are the same after saving and loading, with equal headers, traces, line counts, parents, labels and hashes |
| Loading.SaveThenLoad | internal/goroutines.go:203-215 | in particular a dump exactly as it was loaded |
| SavedQueries.AnswersGood | internal/vm.go:507-592 | queries make no goroutines of their own: what holds of all goroutines in the variables and the files holds of all goroutines in an answer |
| SavedQueries.SavedAnswerLoads | internal/goroutines.go:203-215 | the answer of any query over loaded dumps is the same after saving and loading |
| Loading.ShiftedLines | internal/load.go:67-120 | goroutines already read do not influence how the rest is read |
| Loading.LoadConcat | internal/load.go:85-110 | two texts joined at a line end load as the concatenation of their loads if and only if one of them is rejected or the second cannot run on into the last goroutine of the first: that one was ended, or the second is empty or begins with a header or a blank line |
| Loading.LoadWithBlank | internal/load.go:100-105 | with a blank line between them that always holds |
| Reader.GoroutineRecord.AddLine | internal/goroutines.go:335-358 | counts the line, appends it with a newline, stores the ID of a created-by line as the parent and otherwise hashes the location of an indented line; does nothing once frozen, and fails if and only if the ID does not fit |
| Reader.GoroutineRecord.Freeze | internal/goroutines.go:361-368 | fixes trace and hash, once |
| Reader.ReadLine | internal/load.go:73-110 | one line: start, end or extend a goroutine, filling the objects already in the dump |
| Reader.LoadFrom | internal/load.go:67-120 | the loop yields frozen goroutine objects with the values Load says, or fails exactly when Load rejects |
| Reader.SaveTo | internal/goroutines.go:203-215 | the writing loop |

## Left out

- Lexical analysis: statements are sequences of tokens with a cursor; number tokens carry their value, so a literal too long for an int, which the compiler rejects, is not a token here. The keyword table of the tokenizer is not modelled.
- Boolean literals: the tokenizer has no token for them and the compiler reads one only inside `pragma`.
- Dump expressions inside predicates, and `and`/`or` between dumps in the main chunk: the parser functions follow the code there, but no result is stated. The optimizer relocates only jumps behind the removed window, and a nested predicate returns to chunk 0.
- Free-function calls whose receiver is a longer chain without parentheses, as in `union(a.where(p).where(q), b)`: the parser functions follow the code, but no result is stated.
- Output and commands: `show`, `save`, `json`, `dot` and `as` as query functions, `vars`, `help`, `cd`, `empty`, pragmas, summaries, colours and the JSON text. The machine answers `NotModelled` for their opcodes. Paging, saving and the dot bookkeeping are modelled as operations on dumps instead.
- Source positions of instructions; fusion shortens the code but not the positions.
- Cancellation of a run by its context.
- Nil goroutines: `Add` with none is not modelled.
- Regular expressions, the trace hash, the header and created-by patterns and the location on a trace line are parameters; label text is part of the header pattern. Only that an empty line is no header is assumed of them.
- Sorting: `sort.Slice` is a parameter; `SetOps.UnionIsSum` and the results of `GraphQueries` and `SavedQueries` assume that it returns an ID-sorted permutation.
- Files: a path denotes the goroutines a load from it yields, or a failure; path expansion, read errors and the scanner's limit on the length of a line are not modelled. Text is a sequence of characters, not of bytes.
- Go's 64-bit integers: IDs, counts and gas are unbounded here, and so are jump addresses except in `CodeSafety.SafeDecodes`.
- Instructions in chunks are kept decoded; `CodeSafety.SafeDecodes` says that their encoded form decodes to them.
- Objects: the machine's heap of dump objects is a sequence indexed by address, a field of `VirtualMachine.VM`, instead of a set of Dafny objects; sharing between variables is sharing of addresses. The index cache of a dump is on the machine only its flag.
- Dumps.GoroutineDump.Show: offsets are natural numbers, as the compiler can only produce those.
- Evaluation.EvaluationIsTransactional: for a panic, which ends the program, it describes an evaluation that fails.
- Dumps on the stack that hold an unfinished iteration when a run fails: the heap result says that dumps from before the run are unchanged, it says nothing about dumps the failed run made.
