/**
 * What a dump text says: its sections, each a header and the lines up to the
 * next header or blank line, and what the goroutine of a section is, by the
 * positions of its lines.
 */
module Sections {
  import opened Results
  import opened Goroutines
  import opened Loading

  datatype Section = Section(header: string, lines: seq<string>)

  function Sanitized(lines: seq<string>): seq<string> {
    seq(|lines|, i requires 0 <= i < |lines| => Sanitize(lines[i]))
  }

  /** The lines before the first header or blank line. */
  function Body(p: Patterns, lines: seq<string>): seq<string> {
    if lines == [] || lines[0] == "" || p.header(lines[0]).Some? then []
    else [lines[0]] + Body(p, lines[1..])
  }

  /** Every header with its body; lines that follow a blank line belong to no section. */
  function SectionsOf(p: Patterns, lines: seq<string>): seq<Section> {
    if lines == [] then []
    else
      (if p.header(lines[0]).Some? then [Section(lines[0], Body(p, lines[1..]))] else []) + SectionsOf(p, lines[1..])
  }

  function TextSections(p: Patterns, text: string): seq<Section> {
    SectionsOf(p, Sanitized(Lines(text)))
  }

  // ----- lines -----

  /** Line by line: a newline ends a line, and a carriage return before it or before the end is no part of the line. */
  lemma LinesOneByOne(line: string, rest: string)
    requires '\n' !in line
    ensures Lines(line + "\r\n" + rest) == [line] + Lines(rest)
    ensures Lines(line + "\r") == [line]
    ensures line == "" || line[|line| - 1] != '\r' ==>
              Lines(line + "\n" + rest) == [line] + Lines(rest) && Lines(line) == if line == "" then [] else [line]
  {
    hide LinesFrom;
    LineEnds("", line, rest);
    assert "" + line == line;
    var more := line + "\r";
    LineEnds("", more, rest);
    assert "" + more == more && more[..|more| - 1] == line;
    assert more + "\n" + rest == line + "\r\n" + rest;
  }

  lemma {:induction false} LineEnds(current: string, line: string, rest: string)
    requires '\n' !in line
    ensures LinesFrom(current, line + "\n" + rest) == [DropCR(current + line)] + Lines(rest)
    ensures LinesFrom(current, line) == if current + line == "" then [] else [DropCR(current + line)]
    decreases |line|
  {
    var text := line + "\n" + rest;
    if line == "" {
      assert text == ['\n'] + rest;
      assert text[0] == '\n' && text[1..] == rest;
      assert current + line == current;
    } else {
      assert line[0] in line && line == [line[0]] + line[1..];
      assert text[0] == line[0] && text[1..] == line[1..] + "\n" + rest;
      assert current + [line[0]] + line[1..] == current + line;
      LineEnds(current + [line[0]], line[1..], rest);
    }
  }

  /** Character by character: C0 and C1 control characters and DEL are dropped, but not tabs. */
  lemma {:induction false} SanitizeOneByOne(a: string, b: string, c: char)
    ensures Sanitize(a + b) == Sanitize(a) + Sanitize(b)
    ensures Sanitize([c]) == if (c as int < 0x20 || 0x7f <= c as int < 0xa0) && c != '\t' then "" else [c]
  {
    assert [c][1..] == [] && Sanitize([]) == "";
    if a == "" {
      assert a + b == b;
    } else {
      assert (a + b)[0] == a[0] && (a + b)[1..] == a[1..] + b;
      SanitizeOneByOne(a[1..], b, c);
    }
  }

  // ----- one section -----

  /** The ID on the last created-by line, 0 if there is none. */
  ghost predicate ParentIs(p: Patterns, lines: seq<string>, id: int) {
    || (id == 0 && forall k | 0 <= k < |lines| :: p.createdBy(lines[k]).None?)
    || exists k | 0 <= k < |lines| ::
         && p.createdBy(lines[k]) == Some(Some(id))
         && forall j | k < j < |lines| :: p.createdBy(lines[j]).None?
  }

  /** The locations on the lines that start with a tab or a blank and are no created-by lines, in order. */
  function Locations(p: Patterns, lines: seq<string>): string {
    if lines == [] then ""
    else
      var line := lines[0];
      (if p.createdBy(line).None? && line != "" && (line[0] == '\t' || line[0] == ' ') then p.location(line) else "") +
      Locations(p, lines[1..])
  }

  lemma {:induction false} LocationsConcat(p: Patterns, a: seq<string>, b: seq<string>)
    ensures Locations(p, a + b) == Locations(p, a) + Locations(p, b)
  {
    if a == [] {
      assert a + b == b;
    } else {
      assert (a + b)[0] == a[0] && (a + b)[1..] == a[1..] + b;
      LocationsConcat(p, a[1..], b);
    }
  }

  lemma LocationsLast(p: Patterns, lines: seq<string>, line: string)
    ensures Locations(p, lines + [line]) ==
            Locations(p, lines) + (if p.createdBy(line).None? && IsIndented(line) then p.location(line) else "")
  {
    LocationsConcat(p, lines, [line]);
    assert [line][1..] == [] && Locations(p, [line][1..]) == "";
  }

  lemma ParentLast(p: Patterns, lines: seq<string>, line: string, id: int)
    requires ParentIs(p, lines, id)
    ensures p.createdBy(line).None? ==> ParentIs(p, lines + [line], id)
    ensures p.createdBy(line).Some? && p.createdBy(line).value.Some? ==>
              ParentIs(p, lines + [line], p.createdBy(line).value.value)
  {
    var all := lines + [line];
    assert all[|lines|] == line && forall k | 0 <= k < |lines| :: all[k] == lines[k];
    if p.createdBy(line).None? && !(id == 0 && forall k | 0 <= k < |lines| :: p.createdBy(lines[k]).None?) {
      var k :| 0 <= k < |lines| && p.createdBy(lines[k]) == Some(Some(id)) &&
               forall j | k < j < |lines| :: p.createdBy(lines[j]).None?;
      assert p.createdBy(all[k]) == Some(Some(id));
    }
  }

  /**
   * What adding lines to a new goroutine yields: the lines with newlines as its
   * trace, one more line than they are, the last parent, the indented locations.
   */
  lemma {:induction false} LinesAdded(p: Patterns, header: string, fields: Fields, lines: seq<string>)
    ensures WithLines(p, Started(header, fields), lines).None? <==>
              exists k | 0 <= k < |lines| :: p.createdBy(lines[k]) == Some(None)
    ensures match WithLines(p, Started(header, fields), lines)
            case None => true
            case Some(g) =>
              && g.header == header && g.fields == fields
              && g.lineCount == |lines| + 1 && g.buf == Joined(lines)
              && ParentIs(p, lines, g.createdBy) && g.hashed == Locations(p, lines)
    decreases |lines|
  {
    hide ParentIs, Locations;
    if lines == [] {
      NoLines(p);
    } else {
      var front, last := lines[..|lines| - 1], lines[|lines| - 1];
      assert lines == front + [last];
      LinesAdded(p, header, fields, front);
      LocationsLast(p, front, last);
      if WithLines(p, Started(header, fields), front).Some? {
        ParentLast(p, front, last, WithLines(p, Started(header, fields), front).value.createdBy);
      }
    }
  }

  lemma NoLines(p: Patterns)
    ensures ParentIs(p, [], 0) && Locations(p, []) == ""
  {
  }

  // ----- a text -----

  /** g is the goroutine of the section, field by field. */
  ghost predicate Describes(p: Patterns, s: Section, g: Goroutine) {
    match p.header(s.header)
    case Some(Some(fields)) =>
      && g.header == s.header && g.id == fields.id && g.state == fields.state && g.duration == fields.duration
      && g.labels == fields.labels && g.dups == 0
      && g.trace == Joined(s.lines) && g.lineCount == |s.lines| + 1
      && ParentIs(p, s.lines, g.createdBy) && g.hash == p.hash(Locations(p, s.lines))
    case _ => false
  }

  /** Every goroutine read from a text is the one of its header and lines. */
  lemma ReadByPosition(p: Patterns, part: Partial, lines: seq<string>)
    requires ReadAs(p, part, lines)
    ensures ParentIs(p, lines, part.createdBy) && part.hashed == Locations(p, lines)
    ensures Describes(p, Section(part.header, lines), Frozen(p, part))
  {
    hide ParentIs, Locations, WithLines;
    LinesAdded(p, part.header, part.fields, lines);
  }

  /** A number on a header or created-by line of a section does not fit. */
  ghost predicate Unreadable(p: Patterns, s: Section) {
    p.header(s.header) == Some(None) || exists k | 0 <= k < |s.lines| :: p.createdBy(s.lines[k]) == Some(None)
  }

  /** r is the dump of the goroutines of the sections, or one of them is unreadable. */
  ghost predicate Yields(p: Patterns, ss: seq<Section>, r: Loaded) {
    match r
    case Rejected => exists s | s in ss :: Unreadable(p, s)
    case Loaded(gs) =>
      && (forall s | s in ss :: !Unreadable(p, s))
      && |gs| == |ss| && forall i | 0 <= i < |gs| :: Describes(p, ss[i], gs[i])
  }

  lemma YieldsCons(p: Patterns, s: Section, g: Goroutine, ss: seq<Section>, r: Loaded)
    requires Describes(p, s, g) && !Unreadable(p, s) && Yields(p, ss, r)
    ensures Yields(p, [s] + ss, Both(Loaded([g]), r))
  {
    hide Describes, Unreadable;
    var all := [s] + ss;
    if r.Rejected? {
      var bad :| bad in ss && Unreadable(p, bad);
      assert bad in all;
    } else {
      var gs := [g] + r.goroutines;
      forall i | 0 <= i < |gs| ensures Describes(p, all[i], gs[i]) {
        if i > 0 {
          assert all[i] == ss[i - 1] && gs[i] == r.goroutines[i - 1];
        }
      }
      assert forall x | x in all :: x == s || x in ss;
    }
  }

  lemma YieldsNothing(p: Patterns, s: Section, ss: seq<Section>)
    requires s in ss && Unreadable(p, s)
    ensures Yields(p, ss, Rejected)
  {
  }

  /** The goroutine being read, of the section read so far. */
  ghost predicate Reads(p: Patterns, s: Section, g: Partial) {
    && p.header(s.header) == Some(Some(g.fields))
    && WithLines(p, Started(s.header, g.fields), s.lines) == Some(g)
  }

  lemma ReadDescribed(p: Patterns, s: Section, g: Partial)
    requires Reads(p, s, g)
    ensures Describes(p, s, Frozen(p, g)) && !Unreadable(p, s)
  {
    hide ParentIs, Locations, WithLines;
    LinesAdded(p, s.header, g.fields, s.lines);
  }

  lemma LineAdded(p: Patterns, s: Section, g: Partial, line: string)
    requires Reads(p, s, g)
    ensures match WithLine(p, g, line)
            case Some(g1) => Reads(p, Section(s.header, s.lines + [line]), g1)
            case None => p.createdBy(line) == Some(None)
  {
    var more := s.lines + [line];
    assert more[..|more| - 1] == s.lines;
    WithLineKeepsHeader(p, g, line);
  }

  lemma SanitizedSplits(raw: seq<string>)
    requires raw != []
    ensures Sanitized(raw) == [Sanitize(raw[0])] + Sanitized(raw[1..])
    ensures Sanitized(raw)[0] == Sanitize(raw[0]) && Sanitized(raw)[1..] == Sanitized(raw[1..])
  {
  }

  /** A goroutine that is closed, and what is read after it. */
  lemma FirstClosed(p: Patterns, g: Partial, current: Option<Partial>, raw: seq<string>)
    ensures Ended(p, LinesRead(p, LoadState([Frozen(p, g)], current), raw)) ==
            Both(Loaded([Frozen(p, g)]), Ended(p, LinesRead(p, LoadState([], current), raw)))
  {
    assert [Frozen(p, g)] + [] == [Frozen(p, g)];
    ShiftedLines(p, [Frozen(p, g)], LoadState([], current), raw);
    CloseShifted(p, [Frozen(p, g)], LinesRead(p, LoadState([], current), raw));
  }

  lemma HeaderStep(p: Patterns, g: Partial, raw: seq<string>)
    requires raw != [] && p.header(Sanitize(raw[0])).Some? && p.header(Sanitize(raw[0])).value.Some?
    ensures var start := Started(Sanitize(raw[0]), p.header(Sanitize(raw[0])).value.value);
            LinesRead(p, LoadState([], Some(g)), raw) ==
            LinesRead(p, LoadState([Frozen(p, g)], Some(start)), raw[1..])
  {
    hide Frozen, Sanitize;
    assert [] + [Frozen(p, g)] == [Frozen(p, g)];
  }

  lemma BlankStep(p: Patterns, g: Partial, raw: seq<string>)
    requires raw != [] && p.header(Sanitize(raw[0])).None? && Sanitize(raw[0]) == ""
    ensures LinesRead(p, LoadState([], Some(g)), raw) == LinesRead(p, LoadState([Frozen(p, g)], None), raw[1..])
  {
    hide Frozen, Sanitize;
    assert [] + [Frozen(p, g)] == [Frozen(p, g)];
  }

  /** Reading on with an open section. */
  lemma {:induction false} OpenRead(p: Patterns, s: Section, g: Partial, raw: seq<string>)
    requires Reads(p, s, g)
    ensures var lines := Sanitized(raw);
            Yields(p, [Section(s.header, s.lines + Body(p, lines))] + SectionsOf(p, lines),
              Ended(p, LinesRead(p, LoadState([], Some(g)), raw)))
    decreases |raw|
  {
    hide Describes, Unreadable, Yields, Reads, WithLine, Frozen, Ended, Both, Sanitize;
    ReadDescribed(p, s, g);
    var lines := Sanitized(raw);
    var whole := Section(s.header, s.lines + Body(p, lines));
    var st := LoadState([], Some(g));
    if raw == [] {
      NothingLeft(p, s, g);
      assert lines == [] && s.lines + [] == s.lines && [s] + [] == [s];
    } else {
      SanitizedSplits(raw);
      var line, rest := Sanitize(raw[0]), raw[1..];
      if p.header(line) == Some(None) {
        HeaderUnreadable(p, whole, Section(line, Body(p, Sanitized(rest))), SectionsOf(p, Sanitized(rest)));
      } else if p.header(line).Some? {
        HeaderStep(p, g, raw);
        SectionStarts(p, line);
        var start := Started(line, p.header(line).value.value);
        OpenRead(p, Section(line, []), start, rest);
        StartsClosed(p, s, g, line, rest, start);
      } else if line == "" {
        BlankStep(p, g, raw);
        ClosedYields(p, rest);
        BlankCloses(p, s, g, rest);
      } else {
        LineAdded(p, s, g, line);
        if WithLine(p, g, line).Some? {
          var s1 := Section(s.header, s.lines + [line]);
          OpenRead(p, s1, WithLine(p, g, line).value, rest);
          assert s1.lines + Body(p, Sanitized(rest)) == s.lines + Body(p, lines);
          assert SectionsOf(p, lines) == SectionsOf(p, Sanitized(rest));
        } else {
          LineUnreadable(p, s, line, Body(p, Sanitized(rest)), SectionsOf(p, lines));
        }
      }
    }
  }

  /** Reading on between sections. */
  lemma {:induction false} ClosedYields(p: Patterns, raw: seq<string>)
    ensures Yields(p, SectionsOf(p, Sanitized(raw)), LoadLines(p, raw))
    decreases |raw|
  {
    hide Describes, Unreadable, Reads, WithLine, Frozen, Both, Sanitize;
    if raw != [] {
      SanitizedSplits(raw);
      var line, rest := Sanitize(raw[0]), raw[1..];
      if p.header(line) == Some(None) {
        var bad := Section(line, Body(p, Sanitized(rest)));
        BadHeader(p, bad);
      } else if p.header(line).Some? {
        SectionStarts(p, line);
        OpenRead(p, Section(line, []), Started(line, p.header(line).value.value), rest);
        assert [] + Body(p, Sanitized(rest)) == Body(p, Sanitized(rest));
      } else {
        ClosedYields(p, rest);
      }
    }
  }

  /** A header closes the open section. */
  lemma StartsClosed(p: Patterns, s: Section, g: Partial, line: string, rest: seq<string>, start: Partial)
    requires Describes(p, s, Frozen(p, g)) && !Unreadable(p, s)
    requires var lines := Sanitized(rest);
             Yields(p, [Section(line, [] + Body(p, lines))] + SectionsOf(p, lines),
               Ended(p, LinesRead(p, LoadState([], Some(start)), rest)))
    ensures var lines := Sanitized(rest);
            Yields(p, [Section(s.header, s.lines + [])] + ([Section(line, Body(p, lines))] + SectionsOf(p, lines)),
              Ended(p, LinesRead(p, LoadState([Frozen(p, g)], Some(start)), rest)))
  {
    hide *;
    var lines := Sanitized(rest);
    assert s.lines + [] == s.lines && [] + Body(p, lines) == Body(p, lines);
    FirstClosed(p, g, Some(start), rest);
    YieldsCons(p, s, Frozen(p, g), [Section(line, Body(p, lines))] + SectionsOf(p, lines),
      Ended(p, LinesRead(p, LoadState([], Some(start)), rest)));
  }

  /** A blank line closes the open section. */
  lemma BlankCloses(p: Patterns, s: Section, g: Partial, rest: seq<string>)
    requires Describes(p, s, Frozen(p, g)) && !Unreadable(p, s)
    requires Yields(p, SectionsOf(p, Sanitized(rest)), LoadLines(p, rest))
    ensures Yields(p, [Section(s.header, s.lines + [])] + ([] + SectionsOf(p, Sanitized(rest))),
              Ended(p, LinesRead(p, LoadState([Frozen(p, g)], None), rest)))
  {
    hide Yields, Describes, Unreadable, SectionsOf, LinesRead, Ended, Frozen, Both, Sanitized;
    var ss := SectionsOf(p, Sanitized(rest));
    assert s.lines + [] == s.lines && [] + ss == ss;
    FirstClosed(p, g, None, rest);
    YieldsCons(p, s, Frozen(p, g), ss, LoadLines(p, rest));
  }

  lemma BadHeader(p: Patterns, s: Section)
    requires p.header(s.header) == Some(None)
    ensures Unreadable(p, s)
  {
  }

  lemma NothingLeft(p: Patterns, s: Section, g: Partial)
    requires Describes(p, s, Frozen(p, g)) && !Unreadable(p, s)
    ensures Yields(p, [s], Ended(p, Some(LoadState([], Some(g)))))
  {
    hide Describes, Unreadable, Frozen;
  }

  lemma HeaderUnreadable(p: Patterns, whole: Section, bad: Section, ss: seq<Section>)
    requires p.header(bad.header) == Some(None)
    ensures Yields(p, [whole] + ([bad] + ss), Ended(p, None))
  {
    YieldsNothing(p, bad, [whole] + ([bad] + ss));
  }

  lemma LineUnreadable(p: Patterns, s: Section, line: string, rest: seq<string>, ss: seq<Section>)
    requires p.createdBy(line) == Some(None)
    ensures Yields(p, [Section(s.header, s.lines + ([line] + rest))] + ss, Ended(p, None))
  {
    var bad := Section(s.header, s.lines + ([line] + rest));
    assert bad.lines[|s.lines|] == line;
    YieldsNothing(p, bad, [bad] + ss);
  }

  lemma SectionStarts(p: Patterns, line: string)
    requires p.header(line).Some? && p.header(line).value.Some?
    ensures Reads(p, Section(line, []), Started(line, p.header(line).value.value))
  {
  }

  /**
   * Main result: a text loads as the goroutines its sections describe, in order,
   * and is rejected exactly if a number in a section does not fit.
   */
  lemma LoadedExactly(p: Patterns, text: string)
    ensures Yields(p, TextSections(p, text), Load(p, text))
  {
    ClosedYields(p, Lines(text));
  }
}
