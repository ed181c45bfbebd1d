/**
 * Whole statements: the printed statement parses completely, into the code its
 * structure calls for, well formed in every operand.
 */
module StatementParsing {
  import opened Chunks
  import opened Predicates
  import opened Codegen
  import opened Optimizer
  import opened Syntax
  import opened Parser
  import opened QueryParsing

  function NameConsts(names: seq<string>, consts: seq<Const>): (r: seq<Const>)
    ensures consts <= r && forall n | n in names :: CStr(n) in r
    decreases |names|
  {
    if names == [] then consts
    else
      var r := NameConsts(names[1..], Intern(consts, CStr(names[0])));
      assert forall n | n in names :: n == names[0] || n in names[1..];
      r
  }

  /** The macro that assigns to names. */
  function AssignMacros(names: seq<string>): seq<Macro> {
    if names == [] then [] else if |names| == 1 then [Assign(names[0])] else [AssignMany(names)]
  }

  function StatementMacros(s: Statement): seq<Macro> {
    MacrosOf(s.body, 1) + AssignMacros(s.targets)
  }

  function AssignConsts(names: seq<string>, consts: seq<Const>): (r: seq<Const>)
    requires forall n | n in names :: CStr(n) in consts
    ensures consts <= r
  {
    if |names| <= 1 then consts else Intern(consts, CMulti(Targets(names, consts)))
  }

  const START: PState := Unit(0, [[]], 0, [])

  ghost predicate NoMulti(consts: seq<Const>) {
    forall c | c in consts :: !c.CMulti?
  }

  lemma {:induction false} ExprNoMulti(e: Expr, consts: seq<Const>)
    requires NoMulti(consts)
    ensures NoMulti(ConstsOf(e, consts))
  {
    if !e.Leaf? {
      ExprNoMulti(e.left, consts);
      ExprNoMulti(e.right, ConstsOf(e.left, consts));
    }
  }

  lemma {:induction false} DumpsNoMulti(d: Dumps, consts: seq<Const>)
    requires NoMulti(consts)
    ensures NoMulti(DumpConsts(d, consts))
  {
    match d
    case Var(_) =>
    case File(_) =>
    case Filtered(r, _, _, p) => DumpsNoMulti(r, consts); ExprNoMulti(p, DumpConsts(r, consts));
    case Combined(r, _, _, a) => DumpsNoMulti(r, consts); DumpsNoMulti(a, DumpConsts(r, consts));
  }

  lemma AssignMacrosInterned(names: seq<string>, consts: seq<Const>)
    requires forall n | n in names :: CStr(n) in consts
    ensures MacrosInterned(AssignMacros(names), AssignConsts(names, consts))
  {
    if |names| > 1 {
      TargetsStable(names, consts, AssignConsts(names, consts));
    } else if |names| == 1 {
      assert names[0] in names;
    }
  }

  /** The parser's state at the end of an assignment of d to names, from a state with nothing emitted. */
  ghost function Assigned(st: PState, names: seq<string>, d: Dumps, end: nat): PState
    requires forall n | n in names :: CStr(n) in st.consts
  {
    var consts := DumpConsts(d, st.consts);
    DumpsInterned(d, |st.chunks|, st.consts);
    AssignMacrosInterned(names, consts);
    InternedTogether(MacrosOf(d, |st.chunks|), Preds(d), consts, AssignMacros(names), [], AssignConsts(names, consts));
    assert Preds(d) + [] == Preds(d);
    Extended(st, MacrosOf(d, |st.chunks|) + AssignMacros(names), Preds(d), AssignConsts(names, consts), end)
  }

  /** Emitting the assignment. */
  lemma AssignEmitted(st: PState, names: seq<string>, d: Dumps, end: nat)
    requires names != [] && st.cur == 0 && NoMulti(st.consts) && forall n | n in names :: CStr(n) in st.consts
    ensures var r := DumpsBehind(st, d, end);
            && (forall n | n in names :: CStr(n) in r.consts)
            && NoMulti(r.consts)
            && Assigned(st, names, d, end) ==
               EmitConst(r, Assignment, if |names| == 1 then CStr(names[0]) else CMulti(Targets(names, st.consts)))
  {
    hide Interned, MacrosOf, Layout, MacroInterned;
    var r := DumpsBehind(st, d, end);
    DumpsBehindParts(st, d, end);
    DumpsNoMulti(d, st.consts);
    DumpsInterned(d, |st.chunks|, st.consts);
    var c1 := DumpConsts(d, st.consts);
    var c2 := AssignConsts(names, c1);
    TargetsStable(names, st.consts, c1);
    TargetsStable(names, c1, c2);
    AssignMacrosInterned(names, c1);
    var m := AssignMacros(names)[0];
    AssignCode(r, names, c1);
    ExtendedTwice(st, MacrosOf(d, |st.chunks|), Preds(d), c1, end, [m], [], c2, end);
    assert Preds(d) + [] == Preds(d);
  }

  lemma AssignCode(r: PState, names: seq<string>, consts: seq<Const>)
    requires names != [] && r.cur == 0 && r.consts == consts && forall n | n in names :: CStr(n) in consts
    ensures var c2 := AssignConsts(names, consts);
            && AssignMacros(names) == [AssignMacros(names)[0]]
            && MacrosInterned(AssignMacros(names), c2) && AllInterned([], c2)
            && EmitConst(r, Assignment, if |names| == 1 then CStr(names[0]) else CMulti(Targets(names, consts)))
               == Extended(r, AssignMacros(names), [], c2, r.pos)
  {
    var c2 := AssignConsts(names, consts);
    var m := AssignMacros(names)[0];
    AssignMacrosInterned(names, consts);
    TargetsStable(names, consts, c2);
    assert m in AssignMacros(names);
    if |names| == 1 {
      assert names[0] in names;
    }
    EmittedOne(r, m, MacroCode(m, |r.chunks[0]|, c2), c2);
  }

  lemma TargetsConcat(names: seq<string>, name: string, consts: seq<Const>)
    requires (forall n | n in names :: CStr(n) in consts) && CStr(name) in consts
    ensures forall n | n in names + [name] :: CStr(n) in consts
    ensures Targets(names + [name], consts) == Targets(names, consts) + [IndexOf(consts, CStr(name))]
  {
  }

  lemma AssignUnfold(toks: seq<Token>, st: PState, indices: seq<nat>, name: string, r: PState)
    requires st.pos < |toks| && toks[st.pos] == TAssign
    requires ParseExpr(toks, Skip(st.(consts := Intern(st.consts, CStr(name)))), BIND_ASSIGNMENT) == Fine(r)
    requires NoMulti(r.consts)
    ensures var st1 := st.(consts := Intern(st.consts, CStr(name)));
            var indices1 := indices + [IndexOf(st1.consts, CStr(name))];
            ParseDump(toks, st, indices, name) ==
            Fine(EmitConst(r, Assignment, if |indices1| == 1 then CStr(name) else CMulti(indices1)))
  {
    hide ParseExpr, EmitConst, ParseMethod;
  }

  lemma InternKeepsNoMulti(consts: seq<Const>, name: string)
    requires NoMulti(consts)
    ensures NoMulti(Intern(consts, CStr(name)))
  {
  }

  /** The targets of names and one more, in the table with the new name. */
  lemma LastTarget(names: seq<string>, name: string, consts: seq<Const>)
    requires forall n | n in names :: CStr(n) in consts
    ensures var grown := Intern(consts, CStr(name));
            && (forall n | n in names + [name] :: CStr(n) in grown)
            && Targets(names + [name], grown) == Targets(names, consts) + [IndexOf(grown, CStr(name))]
  {
    hide Intern, IndexOf, Targets;
    var grown := Intern(consts, CStr(name));
    TargetsStable(names, consts, grown);
    TargetsConcat(names, name, grown);
  }

  /** An assignment to the names in more, the last of which is name; indices are the constants of the others. */
  lemma AssignParsed(toks: seq<Token>, st: PState, indices: seq<nat>, more: seq<string>, name: string, d: Dumps)
    requires st.cur == 0 && NoMulti(st.consts) && WellFormed(d)
    requires st.pos < |toks| && toks[st.pos] == TAssign && toks[st.pos + 1..] == PrintDumps(d)
    requires |more| == |indices| + 1 && (|more| == 1 ==> more[0] == name)
    requires var grown := Intern(st.consts, CStr(name));
             && (forall n | n in more :: CStr(n) in grown)
             && Targets(more, grown) == indices + [IndexOf(grown, CStr(name))]
    ensures ParseDump(toks, st, indices, name) ==
            Fine(Assigned(st.(consts := Intern(st.consts, CStr(name))), more, d, |toks|))
  {
    hide *;
    var st1 := st.(consts := Intern(st.consts, CStr(name)));
    InternKeepsNoMulti(st.consts, name);
    SkipParts(st1);
    AssignedParsed(toks, Skip(st1), d);
    AssignEmitted(Skip(st1), more, d, |toks|);
    AssignUnfold(toks, st, indices, name, DumpsBehind(Skip(st1), d, |toks|));
    AssignedSkip(st1, more, d, |toks|);
  }

  /** The last name, the assignment sign and the assigned expression. */
  lemma LastNameParsed(toks: seq<Token>, st: PState, names: seq<string>, name: string, d: Dumps)
    requires st.cur == 0 && NoMulti(st.consts) && WellFormed(d) && forall n | n in names :: CStr(n) in st.consts
    requires st.pos < |toks| && toks[st.pos] == TAssign && toks[st.pos + 1..] == PrintDumps(d)
    ensures var st1 := st.(consts := Intern(st.consts, CStr(name)));
            && (forall n | n in names + [name] :: CStr(n) in st1.consts)
            && ParseDump(toks, st, Targets(names, st.consts), name) == Fine(Assigned(st1, names + [name], d, |toks|))
  {
    hide *;
    LastTarget(names, name, st.consts);
    AssignParsed(toks, st, Targets(names, st.consts), names + [name], name, d);
  }

  lemma SkipParts(st: PState)
    ensures Skip(st).pos == st.pos + 1 && Skip(st).cur == st.cur && Skip(st).consts == st.consts
  {
  }

  lemma AssignedParsed(toks: seq<Token>, st: PState, d: Dumps)
    requires st.cur == 0 && WellFormed(d) && st.pos <= |toks| && toks[st.pos..] == PrintDumps(d)
    ensures ParseExpr(toks, st, BIND_ASSIGNMENT) == Fine(DumpsBehind(st, d, |toks|))
  {
    hide DumpsBehind, ParseLoop, ParseExpr;
    DumpsParsed(toks, st, d, BIND_ASSIGNMENT);
    DumpsBehindParts(st, d, |toks|);
    LoopAtEnd(toks, DumpsBehind(st, d, |toks|), BIND_ASSIGNMENT);
  }

  lemma AssignedSkip(st: PState, names: seq<string>, d: Dumps, end: nat)
    requires forall n | n in names :: CStr(n) in st.consts
    ensures Assigned(Skip(st), names, d, end) == Assigned(st, names, d, end)
  {
  }

  lemma LoopAtEnd(toks: seq<Token>, st: PState, power: nat)
    requires st.pos == |toks|
    ensures ParseLoop(toks, st, power) == Fine(st)
  {
  }

  // ----- statements -----

  /** The tokens behind the first of the names. */
  ghost predicate NamesAt(toks: seq<Token>, pos: nat, rest: seq<string>, d: Dumps)
    requires rest != []
  {
    pos <= |toks| && toks[pos..] == PrintNames(rest)[1..] + [TAssign] + PrintDumps(d)
  }

  lemma NameTokens(toks: seq<Token>, pos: nat, rest: seq<string>, d: Dumps)
    requires rest != [] && NamesAt(toks, pos, rest, d)
    ensures pos < |toks|
    ensures |rest| == 1 ==> toks[pos] == TAssign && toks[pos + 1..] == PrintDumps(d)
    ensures |rest| > 1 ==> pos + 1 < |toks| && toks[pos] == TComma && toks[pos + 1] == TIdent(rest[1])
                           && NamesAt(toks, pos + 2, rest[1..], d)
  {
    hide PrintDumps;
    var tail := toks[pos..];
    assert forall i | 0 <= i < |tail| :: tail[i] == toks[pos + i];
    if |rest| == 1 {
      assert tail == [TAssign] + PrintDumps(d);
      assert toks[pos + 1..] == tail[1..];
    } else {
      var more := PrintNames(rest[1..]) + [TAssign] + PrintDumps(d);
      assert tail == [TComma] + more;
      assert PrintNames(rest[1..])[0] == TIdent(rest[1]);
      assert toks[pos + 2..] == more[1..];
    }
  }

  /** The names of an assignment, from the cursor behind the first of rest. */
  lemma {:induction false} NamesParsed(toks: seq<Token>, st: PState, done: seq<string>, rest: seq<string>, d: Dumps)
    requires st.cur == 0 && NoMulti(st.consts) && WellFormed(d) && forall n | n in done :: CStr(n) in st.consts
    requires rest != [] && NamesAt(toks, st.pos, rest, d)
    ensures var st1 := st.(consts := NameConsts(rest, st.consts));
            && (forall n | n in done + rest :: CStr(n) in st1.consts)
            && ParseDump(toks, st, Targets(done, st.consts), rest[0]) == Fine(Assigned(st1, done + rest, d, |toks|))
    decreases |rest|
  {
    hide PrintDumps, Assigned, Targets, ParseDump, ParseExpr, NamesAt, Intern, IndexOf, NameConsts, NoMulti, WellFormed;
    NameTokens(toks, st.pos, rest, d);
    NameConstsUnfold(rest, st.consts);
    var st1 := st.(consts := Intern(st.consts, CStr(rest[0])));
    if |rest| == 1 {
      assert rest == [rest[0]];
      LastNameParsed(toks, st, done, rest[0], d);
    } else {
      var st2 := Skip(Skip(st1));
      TargetsStable(done, st.consts, st1.consts);
      TargetsConcat(done, rest[0], st1.consts);
      NamesParsed(toks, st2, done + [rest[0]], rest[1..], d);
      assert done + [rest[0]] + rest[1..] == done + rest;
      CommaUnfold(toks, st, Targets(done, st.consts), rest[0]);
      AssignedFrom(st2.(consts := NameConsts(rest[1..], st1.consts)), st1.(consts := NameConsts(rest[1..], st1.consts)),
        done + rest, d, |toks|);
    }
  }

  lemma NameConstsUnfold(names: seq<string>, consts: seq<Const>)
    requires names != []
    ensures NameConsts(names, consts) == NameConsts(names[1..], Intern(consts, CStr(names[0])))
    ensures |names| == 1 ==> NameConsts(names, consts) == Intern(consts, CStr(names[0]))
    ensures NoMulti(consts) ==> NoMulti(Intern(consts, CStr(names[0])))
  {
  }

  lemma CommaUnfold(toks: seq<Token>, st: PState, indices: seq<nat>, name: string)
    requires st.pos + 1 < |toks| && toks[st.pos] == TComma && toks[st.pos + 1].TIdent?
    ensures var st1 := st.(consts := Intern(st.consts, CStr(name)));
            ParseDump(toks, st, indices, name) ==
            ParseDump(toks, Skip(Skip(st1)), indices + [IndexOf(st1.consts, CStr(name))], toks[st.pos + 1].name)
  {
    hide ParseExpr, EmitConst, ParseMethod;
  }

  lemma AssignedFrom(st: PState, st': PState, names: seq<string>, d: Dumps, end: nat)
    requires st.chunks == st'.chunks && st.consts == st'.consts && forall n | n in names :: CStr(n) in st.consts
    ensures Assigned(st, names, d, end) == Assigned(st', names, d, end)
    ensures Assigned(st, names, d, end).pos == end
  {
  }

  /** The parser's state behind a statement. */
  ghost function StatementBehind(s: Statement, end: nat): PState {
    Assigned(START.(consts := NameConsts(s.targets, [])), s.targets, s.body, end)
  }

  /**
   * The main result on parsing: a printed statement, whatever mix of method
   * and pipe style it is written in, is consumed completely and emits the code
   * of its macros.
   */
  lemma StatementParsed(s: Statement)
    requires WellFormed(s.body)
    ensures ParseProgram(PrintStatement(s)) == Fine(StatementBehind(s, |PrintStatement(s)|))
  {
    hide PrintDumps, DumpsBehind, ParseLoop, ParseExpr, ParseDump, Assigned;
    var toks := PrintStatement(s);
    var names, d := s.targets, s.body;
    if names == [] {
      BareParsed(toks, d);
    } else {
      assert PrintNames(names)[0] == TIdent(names[0]);
      var st := Skip(START);
      assert toks[1..] == PrintNames(names)[1..] + [TAssign] + PrintDumps(d);
      assert NamesAt(toks, st.pos, names, d);
      NamesParsed(toks, st, [], names, d);
      assert [] + names == names;
      AssignedFrom(st.(consts := NameConsts(names, [])), START.(consts := NameConsts(names, [])), names, d, |toks|);
      NoTargets(st.consts);
      StatementUnfold(toks, StatementBehind(s, |toks|));
    }
  }

  lemma NoTargets(consts: seq<Const>)
    ensures Targets([], consts) == []
  {
  }

  lemma StatementUnfold(toks: seq<Token>, r: PState)
    requires toks != [] && toks[0].TIdent? && ParseDump(toks, Skip(START), [], toks[0].name) == Fine(r)
    ensures r.pos == |toks| ==> ParseExpr(toks, START, BIND_NONE) == Fine(r)
  {
    hide ParseDump;
  }

  lemma BareParsed(toks: seq<Token>, d: Dumps)
    requires WellFormed(d) && toks == PrintDumps(d)
    ensures ParseExpr(toks, START, BIND_NONE) == Fine(Assigned(START.(consts := NameConsts([], [])), [], d, |toks|))
  {
    hide DumpsBehind, ParseLoop, ParseExpr;
    assert toks[START.pos..START.pos + |toks|] == toks;
    DumpsParsed(toks, START, d, BIND_NONE);
    DumpsBehindParts(START, d, |toks|);
    LoopAtEnd(toks, DumpsBehind(START, d, |toks|), BIND_NONE);
    NothingAssigned(d, |toks|);
  }

  lemma NothingAssigned(d: Dumps, end: nat)
    ensures Assigned(START.(consts := NameConsts([], [])), [], d, end) == DumpsBehind(START, d, end)
  {
    assert MacrosOf(d, 1) + [] == MacrosOf(d, 1);
  }

  // ----- what the generated code is -----

  /** Every accessor of the statement's predicates names a field. */
  predicate KnownDumps(d: Dumps) {
    match d
    case Filtered(r, _, _, p) => KnownDumps(r) && Known(p)
    case Combined(r, _, _, a) => KnownDumps(r) && KnownDumps(a)
    case _ => true
  }

  lemma {:induction false} PredsKnown(d: Dumps)
    requires KnownDumps(d)
    ensures forall p | p in Preds(d) :: Known(p)
  {
    match d
    case Filtered(r, _, _, p) => PredsKnown(r);
    case Combined(r, _, _, a) => PredsKnown(r); PredsKnown(a);
    case _ =>
  }

  /** The loops of ms have one filter each, and it calls the chunk of its predicate, numbered from k on. */
  ghost predicate LoopsCall(ms: seq<Macro>, ps: seq<Expr>, k: nat) {
    forall m | m in ms && m.Loop? ::
      IsSingle(m) && k <= m.filters[0].chunk < k + |ps| && m.filters[0].pred == ps[m.filters[0].chunk - k]
  }

  lemma LoopsCallConcat(ms: seq<Macro>, ps: seq<Expr>, ns: seq<Macro>, qs: seq<Expr>, k: nat)
    requires LoopsCall(ms, ps, k) && LoopsCall(ns, qs, k + |ps|)
    ensures LoopsCall(ms + ns, ps + qs, k)
  {
  }

  lemma {:induction false} DumpsLoopsCall(d: Dumps, k: nat)
    ensures LoopsCall(MacrosOf(d, k), Preds(d), k)
  {
    hide LoopsCall, FilterMacros, SetMacro;
    match d
    case Filtered(r, _, fn, p) =>
      DumpsLoopsCall(r, k);
      FilterLoopsCall(fn, k + |Preds(r)|, p);
      LoopsCallConcat(MacrosOf(r, k), Preds(r), FilterMacros(fn, k + |Preds(r)|, p), [p], k);
    case Combined(r, _, fn, a) =>
      var ms, ns := MacrosOf(r, k), MacrosOf(a, k + |Preds(r)|);
      DumpsLoopsCall(r, k);
      DumpsLoopsCall(a, k + |Preds(r)|);
      LoopsCallConcat(ms, Preds(r), ns, Preds(a), k);
      SetLoopsCall(fn, k + |Preds(r) + Preds(a)|);
      LoopsCallConcat(ms + ns, Preds(r) + Preds(a), [SetMacro(fn)], [], k);
      assert Preds(r) + Preds(a) + [] == Preds(r) + Preds(a);
    case _ => LoadLoopsCall(d, k);
  }

  lemma LoadLoopsCall(d: Dumps, k: nat)
    requires d.Var? || d.File?
    ensures LoopsCall(MacrosOf(d, k), Preds(d), k)
  {
  }

  lemma FilterLoopsCall(fn: FnName, k: nat, p: Expr)
    ensures LoopsCall(FilterMacros(fn, k, p), [p], k)
  {
  }

  lemma SetLoopsCall(fn: FnName, k: nat)
    ensures LoopsCall([SetMacro(fn)], [], k)
  {
  }

  lemma {:induction false} DumpConstsNoDuplicates(d: Dumps, consts: seq<Const>)
    requires NoDuplicates(consts)
    ensures NoDuplicates(DumpConsts(d, consts))
  {
    match d
    case Filtered(r, _, _, p) =>
      DumpConstsNoDuplicates(r, consts);
      ConstsNoDuplicates(p, DumpConsts(r, consts));
    case Combined(r, _, _, a) =>
      DumpConstsNoDuplicates(r, consts);
      DumpConstsNoDuplicates(a, DumpConsts(r, consts));
    case _ =>
  }

  lemma {:induction false} NameConstsNoDuplicates(names: seq<string>, consts: seq<Const>)
    requires NoDuplicates(consts)
    ensures NoDuplicates(NameConsts(names, consts))
    decreases |names|
  {
    if names != [] {
      NameConstsNoDuplicates(names[1..], Intern(consts, CStr(names[0])));
    }
  }

  /** The code of a statement before the optimizer runs. */
  ghost function CodeOf(s: Statement): Code {
    var r := StatementBehind(s, 0);
    Code(r.chunks, r.consts)
  }

  /** Where the cursor ends does not matter for the code. */
  lemma CodeOfBehind(s: Statement, end: nat)
    ensures var r := StatementBehind(s, end);
            r.cur == 0 && r.chunks == CodeOf(s).chunks && r.consts == CodeOf(s).consts
  {
    hide Layout, MacrosOf, Preds, DumpConsts, PredicateChunks;
  }

  lemma AssignedChunks(st: PState, names: seq<string>, d: Dumps, end: nat)
    requires |st.chunks| == 1 && forall n | n in names :: CStr(n) in st.consts
    ensures var r := Assigned(st, names, d, end);
            var ms := MacrosOf(d, 1) + AssignMacros(names);
            && MacrosInterned(ms, r.consts) && AllInterned(Preds(d), r.consts)
            && r.chunks[0] == st.chunks[0] + Layout(ms, |st.chunks[0]|, r.consts)
            && r.chunks[1..] == PredicateChunks(Preds(d), r.consts)
            && r.consts == AssignConsts(names, DumpConsts(d, st.consts))
  {
    hide Layout, MacroInterned, Interned, PredicateChunks;
    var consts := DumpConsts(d, st.consts);
    DumpsInterned(d, 1, st.consts);
    AssignMacrosInterned(names, consts);
    NoPredicates(AssignConsts(names, consts));
    InternedTogether(MacrosOf(d, 1), Preds(d), consts, AssignMacros(names), [], AssignConsts(names, consts));
    assert Preds(d) + [] == Preds(d);
    assert st.chunks[1..] == [];
  }

  /** The chunks of the code of a statement. */
  lemma CodeChunks(s: Statement)
    ensures var code := CodeOf(s);
            && |code.chunks| > 0
            && MacrosInterned(StatementMacros(s), code.consts) && AllInterned(Preds(s.body), code.consts)
            && code.chunks[0] == Layout(StatementMacros(s), 0, code.consts)
            && code.chunks[1..] == PredicateChunks(Preds(s.body), code.consts)
            && code.consts == AssignConsts(s.targets, DumpConsts(s.body, NameConsts(s.targets, [])))
  {
    hide Interned, Layout, PredicateChunks, MacroInterned;
    var st := START.(consts := NameConsts(s.targets, []));
    AssignedChunks(st, s.targets, s.body, 0);
    assert [] + Layout(StatementMacros(s), 0, CodeOf(s).consts) == CodeOf(s).chunks[0];
  }

  /** Every loop of a statement has one filter, which calls the chunk of its predicate. */
  lemma LoopLinked(s: Statement, m: Macro)
    requires KnownDumps(s.body) && m in StatementMacros(s) && m.Loop?
    ensures IsSingle(m) && FiltersLinked(CodeOf(s), m.filters)
  {
    hide Interned, Layout, PredicateChunk, MacrosInterned, CodeOf, MacrosOf, Preds;
    var code, ps := CodeOf(s), Preds(s.body);
    CodeChunks(s);
    DumpsLoopsCall(s.body, 1);
    PredsKnown(s.body);
    assert m in MacrosOf(s.body, 1);
    var f := m.filters[0];
    assert ps[f.chunk - 1] in ps;
    assert code.chunks[f.chunk] == code.chunks[1..][f.chunk - 1];
    assert FilterLinked(code, f);
  }

  /**
   * The generated code is well formed: chunk 0 is the layout of the statement's macros, each filter calls the
   * chunk of its predicate, and no constant occurs twice.
   */
  lemma StatementLinked(s: Statement)
    requires KnownDumps(s.body)
    ensures Linked(CodeOf(s), StatementMacros(s))
    ensures forall m | m in StatementMacros(s) && m.Loop? :: IsSingle(m)
    ensures NoDuplicates(CodeOf(s).consts)
  {
    hide MacrosInterned, Layout, StatementMacros, CodeOf, FiltersLinked, PredicateChunks, AllInterned;
    CodeChunks(s);
    forall m | m in StatementMacros(s) && m.Loop? ensures IsSingle(m) && FiltersLinked(CodeOf(s), m.filters) {
      LoopLinked(s, m);
    }
    NameConstsNoDuplicates(s.targets, []);
    DumpConstsNoDuplicates(s.body, NameConsts(s.targets, []));
  }

  // ----- method and pipe style -----

  lemma {:induction false} PipesCompileSame(d: Dumps, k: nat, consts: seq<Const>)
    ensures MacrosOf(AsPipes(d), k) == MacrosOf(d, k) && Preds(AsPipes(d)) == Preds(d)
    ensures DumpConsts(AsPipes(d), consts) == DumpConsts(d, consts)
  {
    hide FilterMacros, SetMacro, ConstsOf, Intern;
    match d
    case Filtered(r, _, _, p) => PipesCompileSame(r, k, consts);
    case Combined(r, _, _, a) =>
      PipesCompileSame(r, k, consts);
      PipesCompileSame(a, k + |Preds(r)|, DumpConsts(r, consts));
    case _ =>
  }

  lemma {:induction false} PipesWellFormed(d: Dumps)
    ensures WellFormed(AsPipes(d)) == WellFormed(d)
  {
    match d
    case Filtered(r, _, _, p) => PipesWellFormed(r);
    case Combined(r, _, _, a) => PipesWellFormed(r); PipesWellFormed(a);
    case _ =>
  }

  /**
   * Rewriting r.f(a) as r | f(a) anywhere, also on the right of an assignment, gives the same chunks and the
   * same constants.
   */
  lemma MethodAndPipeAgree(s: Statement)
    requires WellFormed(s.body)
    ensures var a, b := ParseProgram(PrintStatement(s)), ParseProgram(PrintStatement(s.(body := AsPipes(s.body))));
            && a.err.None? && b.err.None?
            && a.st.chunks == b.st.chunks && a.st.consts == b.st.consts
  {
    hide ParseProgram, Layout, PrintStatement, MacrosOf, Preds, DumpConsts;
    var consts := NameConsts(s.targets, []);
    PipesCompileSame(s.body, 1, consts);
    PipesWellFormed(s.body);
    StatementParsed(s);
    StatementParsed(s.(body := AsPipes(s.body)));
  }
}
