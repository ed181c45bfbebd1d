/**
 * Reading and writing dumps as text (internal/load.go, and Save, Print, AddLine
 * and Freeze of internal/goroutines.go): a state machine over lines, and a
 * printer that it undoes.
 */
module Loading {
  import opened Results
  import opened Goroutines

  /** What a header line says about its goroutine. */
  datatype Fields = Fields(id: int, state: string, duration: int, labels: map<string, string>)

  /** The patterns and the hash reading depends on. A match whose number does not fit is Some(None). */
  datatype Patterns = Patterns(
    header: string -> Option<Option<Fields>>,
    createdBy: string -> Option<Option<int>>,
    location: string -> string, // the location on a trace line, without what follows it
    hash: string -> nat)

  datatype Loaded = Loaded(goroutines: seq<Goroutine>) | Rejected

  // ----- lines -----

  /** A line loses one carriage return at its end. */
  function DropCR(line: string): string {
    if line != "" && line[|line| - 1] == '\r' then line[..|line| - 1] else line
  }

  /** The lines of a text; the last one needs no newline. */
  function Lines(text: string): seq<string> {
    LinesFrom("", text)
  }

  function LinesFrom(current: string, text: string): seq<string>
    decreases |text|
  {
    if text == "" then (if current == "" then [] else [DropCR(current)])
    else if text[0] == '\n' then [DropCR(current)] + LinesFrom("", text[1..])
    else LinesFrom(current + [text[0]], text[1..])
  }

  /** The Unicode control characters. */
  predicate IsControl(c: char) {
    c as int < 0x20 || 0x7f <= c as int < 0xa0
  }

  /** Control characters other than tabs are dropped. */
  function Sanitize(line: string): string {
    if line == "" then ""
    else (if IsControl(line[0]) && line[0] != '\t' then "" else [line[0]]) + Sanitize(line[1..])
  }

  predicate Clean(line: string) {
    forall c | c in line :: IsControl(c) ==> c == '\t'
  }

  // ----- a goroutine being read -----

  /** hashed is what has been written to the hasher. */
  datatype Partial = Partial(
    header: string, fields: Fields, buf: string, lineCount: nat, createdBy: int, hashed: string)

  function Started(header: string, fields: Fields): Partial {
    Partial(header, fields, "", 1, 0, "")
  }

  predicate IsIndented(line: string) {
    line != "" && (line[0] == '\t' || line[0] == ' ')
  }

  /** None if the ID on a created-by line does not fit. */
  function WithLine(p: Patterns, g: Partial, line: string): Option<Partial> {
    var g1 := g.(lineCount := g.lineCount + 1, buf := g.buf + line + "\n");
    match p.createdBy(line)
    case Some(None) => None
    case Some(Some(id)) => Some(g1.(createdBy := id))
    case None => Some(if IsIndented(line) then g1.(hashed := g1.hashed + p.location(line)) else g1)
  }

  function WithLines(p: Patterns, g: Partial, lines: seq<string>): Option<Partial>
    decreases |lines|
  {
    if lines == [] then Some(g)
    else
      match WithLines(p, g, lines[..|lines| - 1])
      case None => None
      case Some(g1) => WithLine(p, g1, lines[|lines| - 1])
  }

  function Frozen(p: Patterns, g: Partial): Goroutine {
    Goroutine(
      g.fields.id, g.header, g.fields.state, g.fields.duration, g.createdBy, g.buf, g.lineCount, g.fields.labels, 0,
      p.hash(g.hashed))
  }

  // ----- the state machine -----

  /** The goroutines read completely, and the one being read. */
  datatype LoadState = LoadState(done: seq<Goroutine>, current: Option<Partial>)

  function Close(p: Patterns, st: LoadState): LoadState {
    if st.current.None? then st else LoadState(st.done + [Frozen(p, st.current.value)], None)
  }

  /** A header starts a goroutine, a blank line ends one, any other line belongs to the current one, if any. */
  function LineRead(p: Patterns, st: LoadState, raw: string): Option<LoadState> {
    var line := Sanitize(raw);
    match p.header(line)
    case Some(None) => None
    case Some(Some(fields)) => Some(LoadState(Close(p, st).done, Some(Started(line, fields))))
    case None =>
      if line == "" then Some(Close(p, st))
      else if st.current.None? then Some(st)
      else
        match WithLine(p, st.current.value, line)
        case None => None
        case Some(g) => Some(st.(current := Some(g)))
  }

  function LinesRead(p: Patterns, st: LoadState, lines: seq<string>): Option<LoadState>
    decreases |lines|
  {
    if lines == [] then Some(st)
    else
      match LineRead(p, st, lines[0])
      case None => None
      case Some(st1) => LinesRead(p, st1, lines[1..])
  }

  function Ended(p: Patterns, st: Option<LoadState>): Loaded {
    match st
    case None => Rejected
    case Some(st) => Loaded(Close(p, st).done)
  }

  const NOTHING := LoadState([], None)

  function LoadLines(p: Patterns, lines: seq<string>): Loaded {
    Ended(p, LinesRead(p, NOTHING, lines))
  }

  function Load(p: Patterns, text: string): Loaded {
    LoadLines(p, Lines(text))
  }

  // ----- the printer -----

  function Print(g: Goroutine): string {
    g.header + "\n" + g.trace + "\n"
  }

  function Save(gs: seq<Goroutine>): string {
    if gs == [] then "" else Print(gs[0]) + Save(gs[1..])
  }

  // ----- what loading yields -----

  predicate IsTraceLine(p: Patterns, line: string) {
    line != "" && Clean(line) && p.header(line).None?
  }

  /** g is what reading a header and then these trace lines yields. */
  predicate ReadAs(p: Patterns, g: Partial, lines: seq<string>) {
    && Clean(g.header) && p.header(g.header) == Some(Some(g.fields))
    && (forall l | l in lines :: IsTraceLine(p, l))
    && WithLines(p, Started(g.header, g.fields), lines) == Some(g)
  }

  /** g came from a dump text. */
  ghost predicate FromText(p: Patterns, g: Goroutine) {
    exists part, lines :: ReadAs(p, part, lines) && g == Frozen(p, part)
  }

  ghost predicate AllFromText(p: Patterns, st: LoadState) {
    && (forall g | g in st.done :: FromText(p, g))
    && (st.current.Some? ==> exists lines :: ReadAs(p, st.current.value, lines))
  }

  lemma {:induction false} SanitizeCleans(line: string)
    ensures Clean(Sanitize(line))
  {
    if line != "" {
      SanitizeCleans(line[1..]);
    }
  }

  lemma {:induction false} SanitizeKeeps(line: string)
    requires Clean(line)
    ensures Sanitize(line) == line
  {
    if line != "" {
      assert line[0] in line;
      SanitizeKeeps(line[1..]);
    }
  }

  lemma CloseFromText(p: Patterns, st: LoadState)
    requires AllFromText(p, st)
    ensures AllFromText(p, Close(p, st))
  {
    if st.current.Some? {
      var lines :| ReadAs(p, st.current.value, lines);
      assert FromText(p, Frozen(p, st.current.value));
    }
  }

  lemma WithLineKeepsHeader(p: Patterns, g: Partial, line: string)
    ensures WithLine(p, g, line).Some? ==>
              && WithLine(p, g, line).value.header == g.header && WithLine(p, g, line).value.fields == g.fields
              && WithLine(p, g, line).value.buf == g.buf + line + "\n"
              && WithLine(p, g, line).value.lineCount == g.lineCount + 1
  {
  }

  lemma LineFromText(p: Patterns, st: LoadState, raw: string)
    requires AllFromText(p, st) && LineRead(p, st, raw).Some?
    ensures AllFromText(p, LineRead(p, st, raw).value)
  {
    var line := Sanitize(raw);
    SanitizeCleans(raw);
    CloseFromText(p, st);
    match p.header(line)
    case Some(Some(fields)) =>
      assert WithLines(p, Started(line, fields), []) == Some(Started(line, fields));
      assert ReadAs(p, Started(line, fields), []);
    case None =>
      if line != "" && st.current.Some? {
        var lines :| ReadAs(p, st.current.value, lines);
        var more := lines + [line];
        assert more[..|more| - 1] == lines;
        WithLineKeepsHeader(p, st.current.value, line);
        assert ReadAs(p, WithLine(p, st.current.value, line).value, more);
      }
  }

  lemma {:induction false} LinesFromText(p: Patterns, st: LoadState, lines: seq<string>)
    requires AllFromText(p, st) && LinesRead(p, st, lines).Some?
    ensures AllFromText(p, LinesRead(p, st, lines).value)
    decreases |lines|
  {
    if lines != [] {
      LineFromText(p, st, lines[0]);
      LinesFromText(p, LineRead(p, st, lines[0]).value, lines[1..]);
    }
  }

  lemma LoadFromText(p: Patterns, text: string)
    requires Load(p, text).Loaded?
    ensures forall g | g in Load(p, text).goroutines :: FromText(p, g)
  {
    LinesFromText(p, NOTHING, Lines(text));
    CloseFromText(p, LinesRead(p, NOTHING, Lines(text)).value);
  }

  // ----- reading what was printed -----

  function Joined(lines: seq<string>): string
    decreases |lines|
  {
    if lines == [] then "" else Joined(lines[..|lines| - 1]) + lines[|lines| - 1] + "\n"
  }

  lemma {:induction false} BufIsJoined(p: Patterns, g: Partial, lines: seq<string>)
    requires WithLines(p, g, lines).Some?
    ensures WithLines(p, g, lines).value.buf == g.buf + Joined(lines)
    decreases |lines|
  {
    if lines != [] {
      var front, last := lines[..|lines| - 1], lines[|lines| - 1];
      BufIsJoined(p, g, front);
      WithLineKeepsHeader(p, WithLines(p, g, front).value, last);
      assert g.buf + Joined(front) + last + "\n" == g.buf + (Joined(front) + last + "\n");
    }
  }

  lemma {:induction false} LineSplits(current: string, line: string, rest: string)
    requires Clean(line) && Clean(current)
    ensures LinesFrom(current, line + "\n" + rest) == [current + line] + Lines(rest)
    decreases |line|
  {
    var text := line + "\n" + rest;
    if line == "" {
      assert text == ['\n'] + rest;
      assert text[0] == '\n' && text[1..] == rest;
      assert current != "" ==> current[|current| - 1] in current;
      assert current + line == current;
    } else {
      assert line[0] in line;
      assert text[0] == line[0] && text[1..] == line[1..] + "\n" + rest;
      LineSplits(current + [line[0]], line[1..], rest);
      assert current + [line[0]] + line[1..] == current + line;
    }
  }

  lemma {:induction false} JoinedSplits(lines: seq<string>, rest: string)
    requires forall l | l in lines :: Clean(l)
    ensures Lines(Joined(lines) + rest) == lines + Lines(rest)
    decreases |lines|
  {
    if lines == [] {
      assert Joined(lines) + rest == rest;
    } else {
      var front, last := lines[..|lines| - 1], lines[|lines| - 1];
      assert Joined(lines) + rest == Joined(front) + (last + "\n" + rest);
      JoinedSplits(front, last + "\n" + rest);
      LineSplits("", last, rest);
      assert "" + last == last;
      assert front + ([last] + Lines(rest)) == lines + Lines(rest);
    }
  }

  lemma PrintSplits(p: Patterns, part: Partial, lines: seq<string>, rest: string)
    requires ReadAs(p, part, lines)
    ensures Lines(Print(Frozen(p, part)) + rest) == [part.header] + (lines + ([""] + Lines(rest)))
  {
    hide LinesFrom, Lines;
    BufIsJoined(p, Started(part.header, part.fields), lines);
    assert part.buf == Joined(lines);
    assert Print(Frozen(p, part)) + rest == part.header + "\n" + (Joined(lines) + ("" + "\n" + rest));
    LinesIsFrom(part.header + "\n" + (Joined(lines) + ("" + "\n" + rest)));
    LineSplits("", part.header, Joined(lines) + ("" + "\n" + rest));
    JoinedSplits(lines, "" + "\n" + rest);
    LinesIsFrom("" + "\n" + rest);
    LineSplits("", "", rest);
    assert "" + part.header == part.header && "" + "" == "";
  }

  lemma LinesIsFrom(text: string)
    ensures Lines(text) == LinesFrom("", text)
  {
  }

  lemma {:induction false} LinesReadConcat(p: Patterns, st: LoadState, a: seq<string>, b: seq<string>)
    ensures LinesRead(p, st, a + b) ==
            (if LinesRead(p, st, a).None? then None else LinesRead(p, LinesRead(p, st, a).value, b))
    decreases |a|
  {
    if a == [] {
      assert a + b == b;
    } else {
      assert (a + b)[0] == a[0] && (a + b)[1..] == a[1..] + b;
      if LineRead(p, st, a[0]).Some? {
        LinesReadConcat(p, LineRead(p, st, a[0]).value, a[1..], b);
      }
    }
  }

  lemma {:induction false} TraceRead(p: Patterns, done: seq<Goroutine>, g: Partial, lines: seq<string>)
    requires forall l | l in lines :: IsTraceLine(p, l)
    requires WithLines(p, g, lines).Some?
    ensures LinesRead(p, LoadState(done, Some(g)), lines) == Some(LoadState(done, WithLines(p, g, lines)))
    decreases |lines|
  {
    if lines != [] {
      var front, last := lines[..|lines| - 1], lines[|lines| - 1];
      assert lines == front + [last];
      assert last in lines;
      TraceRead(p, done, g, front);
      LinesReadConcat(p, LoadState(done, Some(g)), front, [last]);
      SanitizeKeeps(last);
      OneLine(p, LoadState(done, WithLines(p, g, front)), last);
    }
  }

  lemma OneLine(p: Patterns, st: LoadState, line: string)
    ensures LinesRead(p, st, [line]) == LineRead(p, st, line)
  {
    if LineRead(p, st, line).Some? {
      assert [line][1..] == [];
    }
  }

  /** Reading one printed goroutine, whatever was read before it. */
  lemma PrintedRead(p: Patterns, st: LoadState, part: Partial, lines: seq<string>, more: seq<string>)
    requires p.header("").None? && ReadAs(p, part, lines)
    ensures LinesRead(p, st, [part.header] + (lines + ([""] + more))) ==
            LinesRead(p, LoadState(Close(p, st).done + [Frozen(p, part)], None), more)
  {
    hide LinesRead;
    var start := Started(part.header, part.fields);
    SanitizeKeeps(part.header);
    OneLine(p, st, part.header);
    LinesReadConcat(p, st, [part.header], lines + ([""] + more));
    var st1 := LoadState(Close(p, st).done, Some(start));
    LinesReadConcat(p, st1, lines, [""] + more);
    TraceRead(p, Close(p, st).done, start, lines);
    var st2 := LoadState(Close(p, st).done, Some(part));
    OneLine(p, st2, "");
    LinesReadConcat(p, st2, [""], more);
  }

  lemma {:induction false} SavedRead(p: Patterns, done: seq<Goroutine>, gs: seq<Goroutine>)
    requires p.header("").None?
    requires forall g | g in gs :: FromText(p, g)
    ensures LinesRead(p, LoadState(done, None), Lines(Save(gs))) == Some(LoadState(done + gs, None))
    decreases |gs|
  {
    if gs == [] {
      assert done + gs == done;
    } else {
      assert gs[0] in gs;
      var part, lines :| ReadAs(p, part, lines) && gs[0] == Frozen(p, part);
      PrintSplits(p, part, lines, Save(gs[1..]));
      PrintedRead(p, LoadState(done, None), part, lines, Lines(Save(gs[1..])));
      SavedRead(p, done + [gs[0]], gs[1..]);
      assert done + [gs[0]] + gs[1..] == done + gs;
    }
  }

  /**
   * Main result: any goroutines that came from dump texts, such as the answer of
   * a query, are the same after saving and loading, with equal headers, traces,
   * line counts, parents and hashes.
   */
  lemma SavedLoads(p: Patterns, gs: seq<Goroutine>)
    requires p.header("").None? && forall g | g in gs :: FromText(p, g)
    ensures Load(p, Save(gs)) == Loaded(gs)
  {
    SavedRead(p, [], gs);
    assert [] + gs == gs;
  }

  /** In particular a dump that was loaded. */
  lemma SaveThenLoad(p: Patterns, text: string)
    requires p.header("").None?
    requires Load(p, text).Loaded?
    ensures Load(p, Save(Load(p, text).goroutines)) == Load(p, text)
  {
    LoadFromText(p, text);
    SavedLoads(p, Load(p, text).goroutines);
  }

  // ----- concatenated dumps -----

  predicate EndsLine(text: string) {
    text == "" || text[|text| - 1] == '\n'
  }

  lemma {:induction false} LinesConcat(current: string, a: string, b: string)
    requires EndsLine(a) && (a == "" ==> current == "")
    ensures LinesFrom(current, a + b) == LinesFrom(current, a) + Lines(b)
    decreases |a|
  {
    if a == "" {
      assert a + b == b;
    } else {
      var text := a + b;
      assert text[0] == a[0] && text[1..] == a[1..] + b;
      if a[0] == '\n' {
        LinesConcat("", a[1..], b);
        assert LinesFrom(current, a) == [DropCR(current)] + LinesFrom("", a[1..]);
      } else {
        LinesConcat(current + [a[0]], a[1..], b);
      }
    }
  }

  function Shifted(done: seq<Goroutine>, st: Option<LoadState>): Option<LoadState> {
    if st.None? then None else Some(LoadState(done + st.value.done, st.value.current))
  }

  lemma ShiftedLine(p: Patterns, done: seq<Goroutine>, st: LoadState, line: string)
    ensures LineRead(p, LoadState(done + st.done, st.current), line) == Shifted(done, LineRead(p, st, line))
  {
    if st.current.Some? {
      var g := Frozen(p, st.current.value);
      assert done + (st.done + [g]) == done + st.done + [g];
    }
  }

  /** What was read before does not influence what is read. */
  lemma {:induction false} ShiftedLines(p: Patterns, done: seq<Goroutine>, st: LoadState, lines: seq<string>)
    ensures LinesRead(p, LoadState(done + st.done, st.current), lines) == Shifted(done, LinesRead(p, st, lines))
    decreases |lines|
  {
    if lines != [] {
      ShiftedLine(p, done, st, lines[0]);
      if LineRead(p, st, lines[0]).Some? {
        ShiftedLines(p, done, LineRead(p, st, lines[0]).value, lines[1..]);
      }
    }
  }

  /** Nothing in lines can be taken as a part of what came before it. */
  predicate Separated(p: Patterns, st: LoadState, lines: seq<string>) {
    || st.current.None?
    || lines == []
    || Sanitize(lines[0]) == ""
    || p.header(Sanitize(lines[0])).Some?
  }

  function Both(a: Loaded, b: Loaded): Loaded {
    if a.Rejected? || b.Rejected? then Rejected else Loaded(a.goroutines + b.goroutines)
  }

  lemma CloseShifted(p: Patterns, done: seq<Goroutine>, st: Option<LoadState>)
    ensures Ended(p, Shifted(done, st)) == Both(Loaded(done), Ended(p, st))
  {
    if st.Some? && st.value.current.Some? {
      var g := Frozen(p, st.value.current.value);
      assert done + (st.value.done + [g]) == done + st.value.done + [g];
    }
  }

  lemma ClosedRead(p: Patterns, done: seq<Goroutine>, lines: seq<string>)
    ensures Ended(p, LinesRead(p, LoadState(done, None), lines)) == Both(Loaded(done), LoadLines(p, lines))
  {
    assert done + [] == done;
    ShiftedLines(p, done, NOTHING, lines);
    CloseShifted(p, done, LinesRead(p, NOTHING, lines));
  }

  lemma SeparatedRead(p: Patterns, st: LoadState, lines: seq<string>)
    requires Separated(p, st, lines)
    ensures Ended(p, LinesRead(p, st, lines)) == Both(Loaded(Close(p, st).done), LoadLines(p, lines))
  {
    ClosedRead(p, Close(p, st).done, lines);
    if lines == [] {
      assert Close(p, st).done + [] == Close(p, st).done;
    } else if st.current.Some? {
      assert LineRead(p, st, lines[0]) == LineRead(p, Close(p, st), lines[0]);
    }
  }

  /** The goroutine being read ends up at its place in the dump, with at least the lines it had. */
  lemma {:induction false} CurrentGrows(p: Patterns, st: LoadState, lines: seq<string>)
    requires st.current.Some? && LinesRead(p, st, lines).Some?
    ensures
      var gs := Close(p, LinesRead(p, st, lines).value).done;
      st.done <= gs && |gs| > |st.done| && gs[|st.done|].lineCount >= st.current.value.lineCount
    decreases |lines|
  {
    if lines != [] {
      var st1 := LineRead(p, st, lines[0]).value;
      if st1.current.Some? && st1.done == st.done {
        CurrentGrows(p, st1, lines[1..]);
      } else {
        var closed := Close(p, st).done;
        assert st1.done == closed;
        assert closed + [] == closed;
        ShiftedLines(p, closed, LoadState([], st1.current), lines[1..]);
      }
    }
  }

  /** A dump rejected on its own is rejected after anything. */
  lemma {:induction false} StillRejected(p: Patterns, st: LoadState, lines: seq<string>)
    requires LinesRead(p, NOTHING, lines).None?
    ensures LinesRead(p, st, lines).None?
    decreases |lines|
  {
    if Separated(p, st, lines) {
      SeparatedRead(p, st, lines);
    } else if LineRead(p, st, lines[0]).Some? {
      StillRejected(p, LineRead(p, st, lines[0]).value, lines[1..]);
    }
  }

  lemma NotSeparatedDiffers(p: Patterns, st: LoadState, lines: seq<string>)
    requires !Separated(p, st, lines) && LinesRead(p, st, lines).Some?
    ensures !(Close(p, st).done <= Close(p, LinesRead(p, st, lines).value).done)
  {
    var st1 := LineRead(p, st, lines[0]).value;
    CurrentGrows(p, st1, lines[1..]);
    var gs := Close(p, LinesRead(p, st, lines).value).done;
    assert gs[|st.done|].lineCount > Close(p, st).done[|st.done|].lineCount;
  }

  /**
   * Main result: a concatenation of dumps loads as the concatenation of the
   * loads exactly if a part is rejected or nothing runs over the boundary.
   */
  lemma LoadConcat(p: Patterns, a: string, b: string)
    requires EndsLine(a)
    ensures
      Load(p, a + b) == Both(Load(p, a), Load(p, b)) <==>
      Load(p, a).Rejected? || Load(p, b).Rejected? || Separated(p, LinesRead(p, NOTHING, Lines(a)).value, Lines(b))
  {
    LinesConcat("", a, b);
    LinesReadConcat(p, NOTHING, Lines(a), Lines(b));
    if Load(p, a).Loaded? {
      var st := LinesRead(p, NOTHING, Lines(a)).value;
      if Load(p, b).Rejected? {
        StillRejected(p, st, Lines(b));
      } else if Separated(p, st, Lines(b)) {
        SeparatedRead(p, st, Lines(b));
      } else if LinesRead(p, st, Lines(b)).Some? {
        NotSeparatedDiffers(p, st, Lines(b));
        assert Close(p, st).done <= Both(Load(p, a), Load(p, b)).goroutines;
      }
    }
  }

  /** With a blank line between them, two dumps always load as both. */
  lemma LoadWithBlank(p: Patterns, a: string, b: string)
    requires EndsLine(a) && p.header("").None?
    ensures Load(p, a + "\n" + b) == Both(Load(p, a), Load(p, b))
  {
    assert a + "\n" + b == a + ("\n" + b);
    var tail := "\n" + b;
    assert tail[0] == '\n' && tail[1..] == b;
    assert Lines(tail) == [""] + Lines(b);
    assert Lines(tail)[1..] == Lines(b);
    assert Sanitize("") == "";
    LoadConcat(p, a, tail);
    assert Load(p, tail) == Load(p, b);
  }
}
