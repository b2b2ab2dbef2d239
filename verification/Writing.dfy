/** Text that grows at its end, and text in lines. */
module Writing {
  const CRLF := "\r\n"

  function Lines(lines: seq<string>): string { if lines == [] then "" else lines[0] + CRLF + Lines(lines[1..]) }

  lemma {:induction false} LinesConcat(a: seq<string>, b: seq<string>)
    ensures Lines(a + b) == Lines(a) + Lines(b)
  {
    if a == [] {
      assert a + b == b;
    } else {
      assert (a + b)[1..] == a[1..] + b;
      LinesConcat(a[1..], b);
    }
  }

  class Writer {
    var out: string

    constructor ()
      ensures out == ""
    {
      out := "";
    }

    method Write(s: string)
      modifies this
      ensures out == old(out) + s
    {
      out := out + s;
    }

    method WriteLine(line: string)
      modifies this
      ensures out == old(out) + Lines([line])
    {
      Write(line);
      Write(CRLF);
    }

    method WriteLines(lines: seq<string>)
      modifies this
      ensures out == old(out) + Lines(lines)
    {
      for i := 0 to |lines|
        invariant old(out) + Lines(lines) == out + Lines(lines[i..])
      {
        assert lines[i..][1..] == lines[i + 1..];
        WriteLine(lines[i]);
      }
    }
  }

  /** A writer that writes nothing but lines. */
  class LineWriter {
    var out: string
    ghost var lines: seq<string>

    ghost predicate Valid()
      reads this
    {
      out == Lines(lines)
    }

    constructor ()
      ensures Valid() && lines == []
    {
      out, lines := "", [];
    }

    method WriteLine(line: string)
      requires Valid()
      modifies this
      ensures Valid() && lines == old(lines) + [line]
    {
      LinesConcat(lines, [line]);
      out, lines := out + line + CRLF, lines + [line];
    }
  }
}
