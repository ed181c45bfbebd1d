/**
 * The goroutine object that is filled line by line, and the loop that reads a dump (internal/load.go,
 * internal/goroutines.go).
 */
module Reader {
  import opened Results
  import opened Goroutines
  import opened Loading

  class GoroutineRecord {
    const header: string
    const fields: Fields
    var createdBy: int
    var trace: string
    var lineCount: nat
    var buf: string
    var frozen: bool
    var hash: nat
    var hashed: string

    constructor (header: string, fields: Fields)
      ensures !frozen && AsPartial() == Started(header, fields)
    {
      this.header, this.fields := header, fields;
      createdBy, trace, lineCount, buf, frozen, hash, hashed := 0, "", 1, "", false, 0, "";
    }

    ghost function AsPartial(): Partial
      reads this
    {
      Partial(header, fields, buf, lineCount, createdBy, hashed)
    }

    function Value(): Goroutine
      reads this
    {
      Goroutine(fields.id, header, fields.state, fields.duration, createdBy, trace, lineCount, fields.labels, 0, hash)
    }

    /** A frozen goroutine takes no more lines; an ID that does not fit is an error. */
    method AddLine(p: Patterns, line: string) returns (ok: bool)
      modifies this
      ensures frozen == old(frozen) && trace == old(trace) && hash == old(hash)
      ensures old(frozen) ==> ok && AsPartial() == old(AsPartial())
      ensures !old(frozen) ==> ok == WithLine(p, old(AsPartial()), line).Some?
      ensures !old(frozen) && ok ==> AsPartial() == WithLine(p, old(AsPartial()), line).value
      ensures !old(frozen) ==> ok == (p.createdBy(line) != Some(None))
      ensures !old(frozen) ==> lineCount == old(lineCount) + 1 && buf == old(buf) + line + "\n"
      ensures !old(frozen) && ok ==>
                && createdBy == (if p.createdBy(line).Some? then p.createdBy(line).value.value else old(createdBy))
                && hashed == old(hashed) +
                     if p.createdBy(line).None? && line != "" && (line[0] == '\t' || line[0] == ' ')
                     then p.location(line) else ""
    {
      ok := true;
      if !frozen {
        lineCount := lineCount + 1;
        buf := buf + line;
        buf := buf + "\n";
        var match1 := p.createdBy(line);
        if match1.Some? {
          if match1.value.None? {
            return false;
          }
          createdBy := match1.value.value;
        } else if IsIndented(line) {
          hashed := hashed + p.location(line);
        }
      }
    }

    method Freeze(p: Patterns)
      modifies this
      ensures frozen
      ensures !old(frozen) ==> Value() == Frozen(p, old(AsPartial()))
      ensures old(frozen) ==> Value() == old(Value())
    {
      if !frozen {
        frozen := true;
        trace := buf;
        buf := "";
        hash := p.hash(hashed);
      }
    }
  }

  /** The dump being built is the completed goroutines, and last the current one. */
  ghost predicate Builds(dump: seq<GoroutineRecord>, current: GoroutineRecord?, st: LoadState)
    reads dump
  {
    && (current == null <==> st.current.None?)
    && |dump| == |st.done| + (if current == null then 0 else 1)
    && (forall i, j | 0 <= i < j < |dump| :: dump[i] != dump[j])
    && (forall i | 0 <= i < |st.done| :: dump[i].frozen && dump[i].Value() == st.done[i])
    && (current != null ==>
          current == dump[|dump| - 1] && !current.frozen && current.AsPartial() == st.current.value)
  }

  /** Freeze the current goroutine, if there is one. */
  method Finish(p: Patterns, dump: seq<GoroutineRecord>, current: GoroutineRecord?, ghost st: LoadState)
    requires Builds(dump, current, st)
    modifies current
    ensures Builds(dump, null, Close(p, st))
  {
    if current != null {
      current.Freeze(p);
    }
  }

  /** One line; current and dump are reassigned, the goroutine objects are filled in place. */
  method ReadLine(p: Patterns, dump: seq<GoroutineRecord>, current: GoroutineRecord?, raw: string, ghost st: LoadState)
    returns (ok: bool, dump1: seq<GoroutineRecord>, current1: GoroutineRecord?)
    requires Builds(dump, current, st)
    modifies current
    ensures ok == LineRead(p, st, raw).Some?
    ensures ok ==> Builds(dump1, current1, LineRead(p, st, raw).value)
    ensures forall g | g in dump1 :: g in dump || fresh(g)
  {
    ok, dump1, current1 := true, dump, current;
    var line := Sanitize(raw);
    var match1 := p.header(line);
    if match1.Some? {
      Finish(p, dump, current, st);
      if match1.value.None? {
        return false, dump, null;
      }
      current1 := new GoroutineRecord(line, match1.value.value);
      dump1 := dump + [current1];
    } else if line == "" {
      Finish(p, dump, current, st);
      current1 := null;
    } else if current != null {
      ok := current.AddLine(p, line);
    }
  }

  method LoadFrom(p: Patterns, text: string) returns (ok: bool, dump: seq<GoroutineRecord>)
    ensures ok == Load(p, text).Loaded?
    ensures ok ==> fresh(set g | g in dump)
    ensures ok ==> |dump| == |Load(p, text).goroutines|
    ensures ok ==> forall i | 0 <= i < |dump| :: dump[i].frozen && dump[i].Value() == Load(p, text).goroutines[i]
  {
    var lines := Lines(text);
    var current: GoroutineRecord? := null;
    dump := [];
    ghost var st := NOTHING;
    for i := 0 to |lines|
      invariant Builds(dump, current, st)
      invariant forall g | g in dump :: fresh(g)
      invariant LinesRead(p, NOTHING, lines) == LinesRead(p, st, lines[i..])
    {
      ghost var st0 := st;
      assert current != null ==> current in dump;
      assert lines[i..][0] == lines[i] && lines[i..][1..] == lines[i + 1..];
      ok, dump, current := ReadLine(p, dump, current, lines[i], st0);
      if !ok {
        return false, [];
      }
      st := LineRead(p, st0, lines[i]).value;
    }
    assert current != null ==> current in dump;
    Finish(p, dump, current, st);
    ok := true;
  }

  /** Write the goroutines one after the other. */
  method SaveTo(gs: seq<Goroutine>) returns (text: string)
    ensures text == Save(gs)
  {
    text := "";
    for i := 0 to |gs|
      invariant text + Save(gs[i..]) == Save(gs)
    {
      assert gs[i..][0] == gs[i] && gs[i..][1..] == gs[i + 1..];
      assert text + (Print(gs[i]) + Save(gs[i + 1..])) == text + Print(gs[i]) + Save(gs[i + 1..]);
      text := text + Print(gs[i]);
    }
  }
}
