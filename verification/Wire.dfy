/**
 * From the transaction of the server to the transaction of the client over a stream: writing, cutting into chunks, framing,
 * parsing and matching, put together.
 */
module Wire {
  import opened Wrappers
  import opened Text
  import opened Writing
  import opened Parsing
  import opened Messages
  import opened SipValues
  import opened SipGrammar
  import opened Headers
  import opened MessageGrammar
  import opened MessageRoundTrip
  import opened Framing
  import opened Chunking
  import U = UriRoundTrip
  import R = RequestRoundTrip

  /** The message as the transport encodes it, with its headers as lines. */
  function Outgoing(m: SipMessage): Chunking.Outgoing {
    match m.line
    case StatusLine(code, reason) => OutgoingResponse(code, reason, HeaderLines(m.headers), m.body)
    case RequestLine(verb, uri) => OutgoingRequest(verb, uri, HeaderLines(m.headers), m.body)
  }

  function Bytes(m: SipMessage): string { Encoded(Outgoing(m)) }

  function BodyText(m: SipMessage): string { if m.body.Some? then m.body.value else "" }

  /** The length of the body is written behind the other headers. */
  function AllHeaders(m: SipMessage): seq<Header> { m.headers + [ContentLength(|BodyText(m)|)] }

  ghost predicate ValidLine(line: FirstLine) { if line.StatusLine? then ValidText(line.reason) else U.ValidUri(line.uri) }

  /** Every part of the message is written in the characters of its place. */
  ghost predicate ValidMessage(readers: Readers, m: SipMessage) {
    ValidLine(m.line) && AllValid(readers, m.headers) && |BodyText(m)| <= U32_MAX
  }

  predicate PlainLine(line: FirstLine) { line.StatusLine? || R.PlainInLine(line.uri) }

  /** A body is only read behind a Content-Type header, and never with line breaks at its start. */
  predicate PlainBody(m: SipMessage) {
    if HasContentType(m.headers) then m.body.Some? && Begins(m.body.value) else m.body.None?
  }

  /** The caller's check that a valid message comes back. */
  predicate PlainMessage(m: SipMessage) { PlainLine(m.line) && AllPlain(m.headers) && PlainBody(m) }

  /** What comes back: the message with the length of its body among the headers. */
  function WithLength(m: SipMessage): SipMessage { m.(headers := AllHeaders(m)) }

  lemma CodeRange(code: StatusCode)
    ensures 100 <= code < 1000
  {
    assert IsStatusCode(code);
  }

  lemma ThreeLong(n: nat)
    requires 100 <= n < 1000
    ensures |Decimal(n)| == 3
  {
    assert Decimal(n) == Decimal(n / 10) + [Digit(n % 10)];
    assert Decimal(n / 10) == Decimal(n / 10 / 10) + [Digit(n / 10 % 10)];
    assert 1 <= n / 10 / 10 < 10;
  }

  lemma ThreeDigits(code: StatusCode)
    ensures |Decimal(code)| == 3 && CodeFrom(Decimal(code)) == Some(code)
  {
    CodeRange(code);
    ThreeLong(code);
    DecimalValue(code);
    SpanIs(IsDigit, Decimal(code), "");
    hide Decimal, IsStatusCode;
    assert Decimal(code) + "" == Decimal(code);
  }

  lemma CodeReads(code: StatusCode, more: string)
    requires more == "" || !IsSpace(more[0])
    ensures ParseStatusCode(" " + (Decimal(code) + (" " + more))) == Ok(code, more)
  {
    var s := Decimal(code) + (" " + more);
    ThreeDigits(code);
    DecimalValue(code);
    assert s[0] == Decimal(code)[0];
    SkipOneBlank(s);
    SkipOneBlank(more);
    SpanIs(IsDigit, Decimal(code), " " + more);
    hide SkipWs, Span, CodeFrom, Decimal, IsDigit, All;
  }

  lemma StatusLineIs(m: SipMessage, more: string)
    requires m.line.StatusLine?
    ensures StartLine(Outgoing(m)) + more == "SIP/2.0" + (" " + (Decimal(m.line.code) + (" " + (m.line.reason + more))))
  {
    hide Decimal;
  }

  lemma StatusLineReads(m: SipMessage, rest: string)
    requires m.line.StatusLine? && ValidText(m.line.reason) && Begins(rest)
    ensures var s := StartLine(Outgoing(m)) + (CRLF + rest);
            "SIP/2.0" <= s && ParseStatusLine(s) == Ok(m.line, rest)
  {
    hide StartLine, Decimal, ParseStatusCode, MustScan, ReadLine, CleanText, SkipNewlines;
    var tail := m.line.reason + (CRLF + rest);
    StatusLineIs(m, CRLF + rest);
    MustScanAll("SIP/2.0", " " + (Decimal(m.line.code) + (" " + tail)));
    assert tail != "" && !IsSpace(tail[0]);
    CodeReads(m.line.code, tail);
    LineStops(rest);
    ReadLineReads(m.line.reason, CRLF + rest);
    NewlineSkipped(rest);
  }

  /** When a first line comes back: always if it is a status line. */
  lemma FirstLineRoundTrips(m: SipMessage, rest: string)
    requires ValidLine(m.line) && Begins(rest)
    ensures var r := ParseFirstLine(StartLine(Outgoing(m)) + (CRLF + rest));
            if PlainLine(m.line) then r == Ok(m.line, rest) else r.Ok? ==> r.value != m.line
  {
    hide ParseStatusLine, ParseRequestLine, U.ValidUri, R.PlainInLine, UriText, MethodText, Decimal;
    if m.line.StatusLine? {
      hide StartLine;
      StatusLineReads(m, rest);
    } else {
      R.RequestLineRoundTrips(m.line.verb, m.line.uri, rest);
      R.LineReadsAs(m.line.verb, m.line.uri, rest);
    }
  }

  lemma LengthHeaderIs(n: nat)
    ensures HeaderLine(ContentLength(n)) == LengthLine(n)
  {
    hide Decimal;
  }

  lemma LinesOfAll(m: SipMessage)
    ensures Lines(HeaderLines(AllHeaders(m))) == Lines(HeaderLines(m.headers)) + LengthLine(|BodyText(m)|) + CRLF
  {
    hide HeaderLine, LengthLine, BodyText, Lines;
    var n := |BodyText(m)|;
    LengthHeaderIs(n);
    assert HeaderLines(AllHeaders(m)) == HeaderLines(m.headers) + [LengthLine(n)];
    LinesConcat(HeaderLines(m.headers), [LengthLine(n)]);
    OneLine(LengthLine(n));
    Regroup(Lines(HeaderLines(m.headers)), LengthLine(n), CRLF);
  }

  lemma OneLine(line: string)
    ensures Lines([line]) == line + CRLF
  {
    assert [line][1..] == [];
    assert Lines([]) == "";
  }

  lemma OutgoingIs(m: SipMessage)
    ensures Outgoing(m).headers == HeaderLines(m.headers) && Body(Outgoing(m)) == BodyText(m)
  {
    hide HeaderLines;
  }

  /** A written message is its first line, its header section, an empty line and its body. */
  lemma BytesAre(m: SipMessage)
    ensures Bytes(m) == StartLine(Outgoing(m)) + (CRLF + (Lines(HeaderLines(AllHeaders(m))) + (CRLF + BodyText(m))))
  {
    OutgoingIs(m);
    hide StartLine, LengthLine, Body, BodyText, Lines, HeaderLines, Outgoing;
    var ls := HeaderLines(m.headers);
    LinesOfAll(m);
    LinesConcat([StartLine(Outgoing(m))], ls);
    OneLine(StartLine(Outgoing(m)));
    PartsJoined(StartLine(Outgoing(m)), Lines(ls), LengthLine(|BodyText(m)|), BodyText(m));
  }

  lemma PartsJoined(start: string, lines: string, length: string, body: string)
    ensures start + CRLF + lines + length + END + body == start + (CRLF + (lines + length + CRLF + (CRLF + body)))
  {
    assert CRLF + CRLF == END;
    assert lines + length + CRLF + (CRLF + body) == lines + length + (END + body);
    Regroup(lines + length, END, body);
    Regroup(start + CRLF, lines, length);
    Regroup(start + CRLF, lines + length, END);
    Regroup(start + CRLF, lines + length + END, body);
    Regroup(start, CRLF, lines + length + END + body);
  }

  lemma LengthIsPlain(readers: Readers, m: SipMessage)
    requires ValidMessage(readers, m)
    ensures AllValid(readers, AllHeaders(m)) && (AllPlain(AllHeaders(m)) <==> AllPlain(m.headers))
    ensures HasContentType(AllHeaders(m)) <==> HasContentType(m.headers)
  {
    var hs, n := AllHeaders(m), ContentLength(|BodyText(m)|);
    assert ValidHeader(readers, n) && PlainHeader(n) && !IsContentType(n);
    hide ValidHeader, PlainHeader, IsContentType, BodyText, ValidLine;
    assert forall i :: 0 <= i < |m.headers| ==> hs[i] == m.headers[i];
    if HasContentType(m.headers) {
      var i :| 0 <= i < |m.headers| && IsContentType(m.headers[i]);
      assert IsContentType(hs[i]);
    }
  }

  lemma ParseMessageIs(readers: Readers, s: string, line: FirstLine, t: string)
    requires AllForward(readers) && ParseFirstLine(s) == Ok(line, t)
    ensures var p := HeaderLoop(readers, [], t);
            && (p.Err? ==> ParseMessage(readers, s).Err?)
            && (p.Ok? ==> ParseMessage(readers, s).Ok?
                          && ParseMessage(readers, s).value
                             == SipMessage(line, p.value, if HasContentType(p.value) then Some(SkipNewlines(p.rest)) else None))
  {
    hide ParseFirstLine, HeaderLoop, HasContentType, SkipNewlines;
  }

  lemma LineIsFirst(readers: Readers, s: string)
    requires AllForward(readers)
    ensures var r := ParseMessage(readers, s); r.Ok? ==> ParseFirstLine(s).Ok? && r.value.line == ParseFirstLine(s).value
  {
    hide ParseFirstLine, HeaderLoop, HasContentType, SkipNewlines;
  }

  lemma BodySkips(body: string)
    ensures SkipNewlines(CRLF + body) == body <==> Begins(body)
  {
    if Begins(body) {
      NewlineSkipped(body);
    } else {
      var t := SkipNewlines(CRLF + body);
      assert t == "" || !IsNewline(t[0]);
    }
  }

  /**
   * When a written message comes back, request or response, with any headers, in its line, its headers and its body: exactly
   * if line and headers are plain, and there is a body exactly if there is a Content-Type header, not starting with a line
   * break.
   */
  lemma MessageRoundTrips(readers: Readers, m: SipMessage)
    requires AllForward(readers) && ValidMessage(readers, m)
    ensures var r := ParseMessage(readers, Bytes(m)); r.Ok? && r.value == WithLength(m) <==> PlainMessage(m)
  {
    hide StartLine, BodyText, Lines, HeaderLines, ParseFirstLine, ParseMessage, HeaderLoop, ValidLine, PlainLine, AllValid, AllPlain,
      Bytes, AllForward, HasContentType, SkipNewlines, Begins, AllHeaders, Outgoing;
    var hs, rest := AllHeaders(m), CRLF + BodyText(m);
    var t := Lines(HeaderLines(hs)) + rest;
    BytesAre(m);
    LengthIsPlain(readers, m);
    SectionBegins(readers, m);
    FirstLineRoundTrips(m, t);
    LineIsFirst(readers, Bytes(m));
    if PlainLine(m.line) {
      HeadersRoundTrip(readers, [], hs, rest);
      assert [] + hs == hs;
      ParseMessageIs(readers, Bytes(m), m.line, t);
      BodySkips(BodyText(m));
      BodyIsText(m);
    }
  }

  lemma BodyIsText(m: SipMessage)
    ensures m.body.Some? ==> BodyText(m) == m.body.value
  {
  }

  lemma SectionBegins(readers: Readers, m: SipMessage)
    requires ValidMessage(readers, m) && AllValid(readers, AllHeaders(m))
    ensures AllHeaders(m) != [] && AtLineEnd(CRLF + BodyText(m)) && Begins(Lines(HeaderLines(AllHeaders(m))) + (CRLF + BodyText(m)))
  {
    assert AllHeaders(m) != [];
    assert ValidHeader(readers, AllHeaders(m)[0]);
    hide AllHeaders, ValidHeader, ValidLine, Lines, HeaderLines, BodyText;
    LineBegins(readers, AllHeaders(m), CRLF + BodyText(m));
  }

  /**
   * For any messages, with keep-alive line breaks among them, and any way of cutting the stream into chunks: the frames at
   * the other end are those messages in order, and each is read there as it was sent exactly if it is plain.
   */
  lemma MessagesCrossTheStream(readers: Readers, messages: seq<SipMessage>, items: seq<Item>, chunks: seq<string>)
    requires AllForward(readers) && AllSendable(items) && Concat(chunks) == Stream(items)
    requires |Sent(items)| == |messages|
    requires forall i :: 0 <= i < |messages| ==> ValidMessage(readers, messages[i]) && Sent(items)[i] == Bytes(messages[i])
    ensures var got := Received(Feed("", chunks).frames);
            |got| == |messages|
            && forall i :: 0 <= i < |messages| ==>
                 var r := ParseMessage(readers, got[i]);
                 r.Ok? && r.value == WithLength(messages[i]) <==> PlainMessage(messages[i])
  {
    AnyChunksGiveTheMessages(items, chunks);
    hide AllSendable, Stream, Sent, Received, Feed, ParseMessage, Bytes, ValidMessage, PlainMessage, WithLength, AllForward;
    forall i | 0 <= i < |messages|
      ensures var r := ParseMessage(readers, Bytes(messages[i]));
              r.Ok? && r.value == WithLength(messages[i]) <==> PlainMessage(messages[i])
    {
      MessageRoundTrips(readers, messages[i]);
    }
  }

  lemma LengthIsNotMandatory(hs: seq<Header>, n: nat)
    ensures Extract(hs + [ContentLength(n)]) == Extract(hs)
  {
    var all := hs + [ContentLength(n)];
    assert all[..|all| - 1] == hs;
    LastSkips(all, ContentLength(n));
    ViasConcat(hs, [ContentLength(n)]);
    assert Vias([ContentLength(n)]) == [];
    assert Vias(hs) + [] == Vias(hs);
    hide Last, Vias;
  }
}
