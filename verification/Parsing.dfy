/** What a parser that reads from the front of a text returns, and the small readers every parser is made of. */
module Parsing {
  import opened Wrappers
  import opened Text
  import opened Writing

  /** Why a parse stops. */
  datatype Kind =
    | Eof | UnexpectedByte | InvalidNumber | NonNewLine | InvalidUtf8
    | HostKind | SchemeKind | UriKind | ParamKind | TransportKind | PortKind | VersionKind
    | StatusCodeKind
    | AddrTypeKind | MediaTypeKind | ProtoKind | SyntaxKind | NoTimeKind

  /** A value, or a reason; and in both cases the text that has not been read. */
  datatype Parse<+T> = Ok(value: T, rest: string) | Err(kind: Kind, rest: string) {
    predicate IsFailure() { Err? }

    function PropagateFailure<U>(): Parse<U>
      requires Err?
    {
      Err(kind, rest)
    }

    function Extract(): (T, string)
      requires Ok?
    {
      (value, rest)
    }

    function Map(): Result<T, Kind> { if Ok? then Success(value) else Failure(kind) }

    /** The same failure under another name, at the same place. */
    function As(other: Kind): Parse<T> { if Err? then Err(other, rest) else this }
  }

  function Starts(s: string, c: char): (b: bool)
    ensures b ==> s != ""
  {
    s != "" && s[0] == c
  }

  function SkipWs(s: string): (r: string)
    ensures |r| <= |s|
  {
    s[Span(IsSpace, s)..]
  }

  function MustRead(c: char, s: string): (r: Parse<()>)
    ensures r.Ok? ==> |r.rest| < |s|
    ensures |r.rest| <= |s|
  {
    if s == "" then Err(Eof, s) else if s[0] == c then Ok((), s[1..]) else Err(UnexpectedByte, s)
  }

  /** The expected characters one by one: a text that ends early is accepted. */
  function MustScan(expected: string, s: string): (r: Parse<()>)
    ensures |r.rest| <= |s|
    decreases |expected|
  {
    if expected == "" || s == "" then Ok((), s)
    else if s[0] == expected[0] then MustScan(expected[1..], s[1..])
    else Err(UnexpectedByte, s)
  }

  function NextByte(s: string): (r: Parse<char>)
    ensures |r.rest| <= |s|
  {
    if s == "" then Err(Eof, s) else Ok(s[0], s[1..])
  }

  /** The characters in `p` at the front; they must be valid UTF-8. */
  function TextWhile(p: char -> bool, s: string): (r: Parse<string>)
    ensures |r.rest| <= |s|
  {
    var n := Span(p, s);
    if ValidUtf8(s[..n]) then Ok(s[..n], s[n..]) else Err(InvalidUtf8, s[n..])
  }

  predicate InLine(c: char) { !IsNewline(c) }

  function ReadLine(s: string): (r: Parse<string>)
    ensures |r.rest| <= |s|
  {
    TextWhile(InLine, s)
  }

  function SkipNewlines(s: string): (r: string)
    ensures |r| <= |s|
  {
    s[Span(IsNewline, s)..]
  }

  /** One line break: a carriage return, a line feed, or both. */
  function ScanNewline(s: string): (r: Parse<()>)
    ensures |r.rest| <= |s|
  {
    var t := if Starts(s, '\r') then s[1..] else s;
    if Starts(t, '\n') then Ok((), t[1..]) else if Starts(s, '\r') then Ok((), t) else Err(NonNewLine, s)
  }

  predicate AtLineEnd(s: string) { s == "" || IsNewline(s[0]) }

  /** The number that the digits at the front stand for. */
  function ScanNumber(max: nat, s: string): (r: Parse<nat>)
    ensures |r.rest| <= |s|
  {
    var n := Span(IsDigit, s);
    if n > 0 && Value(s[..n]) <= max then Ok(Value(s[..n]), s[n..]) else Err(InvalidNumber, s[n..])
  }

  lemma SkipNoWs(s: string)
    requires s == "" || !IsSpace(s[0])
    ensures SkipWs(s) == s
  {
    SpanIs(IsSpace, "", s);
    assert "" + s == s;
  }

  lemma ScanDecimal(n: nat, max: nat, rest: string)
    requires n <= max && (rest == "" || !IsDigit(rest[0]))
    ensures ScanNumber(max, Decimal(n) + rest) == Ok(n, rest)
  {
    DecimalValue(n);
    SpanIs(IsDigit, Decimal(n), rest);
  }

  /** Text without line breaks. */
  predicate CleanText(s: string) { '\r' !in s && '\n' !in s && ValidUtf8(s) }

  predicate Begins(rest: string) { rest == "" || !IsNewline(rest[0]) }

  lemma ReadLineReads(text: string, more: string)
    requires CleanText(text) && AtLineEnd(more)
    ensures ReadLine(text + more) == Ok(text, more)
  {
    assert All(InLine, text) && ValidUtf8(text);
    hide CleanText, ValidUtf8;
    SpanIs(InLine, text, more);
  }

  lemma NewlineSkipped(rest: string)
    requires Begins(rest)
    ensures SkipNewlines(CRLF + rest) == rest
  {
    SpanIs(IsNewline, CRLF, rest);
  }

  lemma NewlineScanned(rest: string)
    ensures ScanNewline(CRLF + rest) == Ok((), rest)
  {
    assert (CRLF + rest)[1..] == "\n" + rest && ("\n" + rest)[1..] == rest;
  }

  lemma {:induction false} MustScanAll(word: string, more: string)
    ensures MustScan(word, word + more) == Ok((), more)
    decreases |word|
  {
    if word == "" {
      assert word + more == more;
    } else {
      assert (word + more)[1..] == word[1..] + more;
      MustScanAll(word[1..], more);
    }
  }

  lemma SkipOneBlank(tail: string)
    requires tail == "" || !IsSpace(tail[0])
    ensures SkipWs(" " + tail) == tail
  {
    SpanIs(IsSpace, " ", tail);
  }
}
