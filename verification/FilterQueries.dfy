/** What where and delete answer on a dump that was loaded, field by field. */
module FilterQueries {
  import opened Results
  import opened Goroutines
  import opened Predicates
  import opened Machine
  import opened Syntax
  import opened Meaning
  import opened Loading
  import opened Sections

  // ----- the fields of a goroutine -----

  /** Every field is what its section says; labels.k is the value of label k. */
  lemma FieldsRead(w: World, p: Patterns, s: Section, g: Goroutine, room: int)
    requires Describes(p, s, g) && room > 0
    ensures var fields := p.header(s.header).value.value;
            && Eval(w, Leaf(Field(".id")), g, room) == Ok(SNum(fields.id))
            && Eval(w, Leaf(Field(".state")), g, room) == Ok(SStr(fields.state))
            && Eval(w, Leaf(Field(".duration")), g, room) == Ok(SNum(fields.duration))
            && Eval(w, Leaf(Field(".labels")), g, room) == Ok(SMap(fields.labels))
    ensures Eval(w, Leaf(Field(".header")), g, room) == Ok(SStr(s.header))
    ensures Eval(w, Leaf(Field(".trace")), g, room) == Ok(SStr(Joined(s.lines)))
    ensures Eval(w, Leaf(Field(".lines")), g, room) == Ok(SNum(|s.lines| + 1))
    ensures Eval(w, Leaf(Field(".dups")), g, room) == Ok(SNum(0))
    ensures exists id :: ParentIs(p, s.lines, id) && Eval(w, Leaf(Field(".createdBy")), g, room) == Ok(SNum(id))
  {
    hide ParentIs, Joined, HasPrefix, CutPrefix;
    assert ParentIs(p, s.lines, g.createdBy);
    FieldNames(g);
  }

  lemma FieldNames(g: Goroutine)
    ensures FieldValue(g, ".id") == Some(SNum(g.id)) && FieldValue(g, ".state") == Some(SStr(g.state))
    ensures FieldValue(g, ".duration") == Some(SNum(g.duration)) && FieldValue(g, ".header") == Some(SStr(g.header))
    ensures FieldValue(g, ".trace") == Some(SStr(g.trace)) && FieldValue(g, ".lines") == Some(SNum(g.lineCount))
    ensures FieldValue(g, ".createdBy") == Some(SNum(g.createdBy)) && FieldValue(g, ".dups") == Some(SNum(g.dups))
    ensures FieldValue(g, ".labels") == Some(SMap(g.labels))
  {
  }

  /** labels.key is the value of the label, or "<nil>". */
  lemma LabelRead(w: World, p: Patterns, s: Section, g: Goroutine, key: string, room: int)
    requires Describes(p, s, g) && room > 0
    ensures var labels := p.header(s.header).value.value.labels;
            Eval(w, Leaf(Label("." + key)), g, room) == Ok(SStr(if key in labels then labels[key] else "<nil>"))
  {
    hide ParentIs, Joined;
    var name := LabelName("." + key);
    assert name == ".labels." + key;
    assert ".labels." <= name && name[|".labels."|..] == key;
    assert LABELS <= name;
    LongerNames(name);
  }

  lemma LongerNames(name: string)
    requires ".labels." <= name
    ensures |name| >= 8 && name[1] == 'l' && name[2] == 'a' && name != ".labels"
  {
    assert name[..8] == ".labels.";
  }

  /** Any other accessor that starts with .labels looks up a label of that very name; there are no other fields. */
  lemma OtherRead(w: World, g: Goroutine, name: string, room: int)
    requires name !in {".id", ".state", ".duration", ".labels", ".header", ".trace", ".lines", ".dups", ".createdBy"}
    requires !(".labels." <= name) && room > 0
    ensures Eval(w, Leaf(Field(name)), g, room) ==
            if ".labels" <= name then Ok(SStr(if name in g.labels then g.labels[name] else "<nil>"))
            else Err(NotModelled)
  {
  }

  // ----- filters -----

  lemma {:induction false} SelectKeeps(w: World, p: Expr, wanted: bool, gs: seq<Goroutine>, room: int,
                                       pred: Goroutine -> bool)
    requires room > 0
    requires forall g | g in gs :: Eval(w, p, g, room - 1) == Ok(SBool(pred(g)))
    ensures Select(w, p, wanted, gs, room) == Ok(Kept(gs, pred, wanted))
    decreases |gs|
  {
    hide Eval;
    if gs != [] {
      assert gs[0] in gs && forall g | g in gs[1..] :: g in gs;
      SelectKeeps(w, p, wanted, gs[1..], room, pred);
    }
  }

  /** If p is true exactly on the goroutines pred says, where keeps exactly those and delete exactly the others. */
  lemma FiltersKeep(w: World, d: Dumps, asMethod: bool, p: Expr, env: AEnv, room: int,
                    gs: seq<Goroutine>, pred: Goroutine -> bool)
    requires Denote(w, d, env, room) == Ok(VDump(gs)) && room >= 2
    requires forall g | g in gs :: Eval(w, p, g, room - 2) == Ok(SBool(pred(g)))
    ensures Denote(w, Filtered(d, asMethod, FnWhere, p), env, room) == Ok(VDump(Kept(gs, pred, true)))
    ensures Denote(w, Filtered(d, asMethod, FnDelete, p), env, room) == Ok(VDump(Kept(gs, pred, false)))
  {
    hide Eval, Select, Kept;
    SelectKeeps(w, p, true, gs, room - 1, pred);
    SelectKeeps(w, p, false, gs, room - 1, pred);
  }

  /** The lines a goroutine is printed with, up to the blank line behind it. */
  function PrintedLines(g: Goroutine): int {
    |Lines(Loading.Print(g))| - 1
  }

  lemma LineCount(p: Patterns, g: Goroutine)
    requires FromText(p, g)
    ensures g.lineCount == PrintedLines(g)
  {
    hide Loading.Print, Lines, WithLines, ParentIs, Locations, Joined, Frozen;
    var part, lines :| ReadAs(p, part, lines) && g == Frozen(p, part);
    PrintSplits(p, part, lines, "");
    ReadByPosition(p, part, lines);
    assert Loading.Print(g) + "" == Loading.Print(g);
    assert Lines("") == [] by { NoLinesLeft(); }
  }

  lemma NoLinesLeft()
    ensures Lines("") == []
  {
  }

  lemma LinesCompared(w: World, g: Goroutine, n: int, room: int)
    requires room >= 2
    ensures Eval(w, Compare(CmpGt, Leaf(Field(".lines")), Leaf(Num(n))), g, room) == Ok(SBool(g.lineCount > n))
  {
    FieldNames(g);
  }

  /** On a loaded dump, where(lines > n) keeps exactly the goroutines that are printed with more than n lines. */
  lemma WhereLines(w: World, p: Patterns, text: string, d: Dumps, asMethod: bool, env: AEnv, n: int, room: int)
    requires Load(p, text).Loaded? && Denote(w, d, env, room) == Ok(VDump(Load(p, text).goroutines)) && room >= 4
    ensures var gs := Load(p, text).goroutines;
            var long := Compare(CmpGt, Leaf(Field(".lines")), Leaf(Num(n)));
            && Denote(w, Filtered(d, asMethod, FnWhere, long), env, room) ==
               Ok(VDump(Kept(gs, g => PrintedLines(g) > n, true)))
            && Denote(w, Filtered(d, asMethod, FnDelete, long), env, room) ==
               Ok(VDump(Kept(gs, g => PrintedLines(g) > n, false)))
  {
    hide Load, Denote, Kept, PrintedLines, FromText;
    var gs := Load(p, text).goroutines;
    var long := Compare(CmpGt, Leaf(Field(".lines")), Leaf(Num(n)));
    LoadFromText(p, text);
    forall g | g in gs ensures Eval(w, long, g, room - 2) == Ok(SBool(PrintedLines(g) > n)) {
      LineCount(p, g);
      LinesCompared(w, g, n, room - 2);
    }
    FiltersKeep(w, d, asMethod, long, env, room, gs, g => PrintedLines(g) > n);
  }
}
