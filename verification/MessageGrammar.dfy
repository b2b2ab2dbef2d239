/**
 * What the parser reads of a message, as functions on the text in front of it. How the kinds of header that are not in
 * `Headers` read their values is a parameter: everything holds for all readers that only move forward.
 */
module MessageGrammar {
  import opened Wrappers
  import opened Text
  import opened Parsing
  import opened Messages
  import opened SipValues
  import opened SipGrammar
  import opened Headers

  const U32_MAX := 0xFFFF_FFFF

  predicate IsAlphabetic(c: char) { 'a' <= c <= 'z' || 'A' <= c <= 'Z' }

  function PutTag(p: Party, x: Param): Result<Party, Kind> {
    Success(if x.name == "tag" then p.(tag := x.value) else p.(params := p.params + [x]))
  }

  /** The parameters of the URI itself are read only if it is in angle brackets. */
  function ParseParty(s: string): (r: Parse<Party>)
    ensures |r.rest| <= |s|
  {
    var (uri, t) :- ParseSipUri(false, s);
    ParamLoop(IsToken, PutTag, Party(uri, None, []), SkipWs(t))
  }

  function PutParam(ps: seq<Param>, x: Param): Result<seq<Param>, Kind> { Success(ps + [x]) }

  function ParseRoute(s: string): (r: Parse<Header>)
    ensures |r.rest| <= |s|
  {
    var (addr, t) :- ParseNameAddr(s);
    var (ps, t) :- ParamLoop(IsToken, PutParam, [], SkipWs(t));
    Ok(RecordRoute(addr, ps), t)
  }

  function ParseCSeq(s: string): (r: Parse<CSeq>)
    ensures |r.rest| <= |s|
  {
    var (n, t) :- ScanNumber(U32_MAX, s);
    var u := SkipWs(t);
    var k := Span(IsAlphabetic, u);
    Ok(CSeq(n, MethodFrom(u[..k])), u[k..])
  }

  /** `t` is what is left of `s`. */
  predicate IsTail(t: string, s: string) { |t| <= |s| && t == s[|s| - |t|..] }

  /** A reader that only moves forward, whatever it makes of the text. */
  ghost predicate Forward<T>(read: string -> Parse<T>) { forall s :: IsTail(read(s).rest, s) }

  ghost predicate Shrinks<T>(read: string -> Parse<T>) { forall s :: |read(s).rest| <= |s| }

  /** The loop over elements that are joined by commas. */
  function Joined<T>(read: string -> Parse<T>, done: seq<T>, s: string): (r: Parse<seq<T>>)
    requires Shrinks(read)
    ensures |r.rest| <= |s|
    decreases |s|
  {
    var (v, t) :- read(s);
    if Starts(t, ',') then Joined(read, done + [v], t[1..]) else Ok(done + [v], t)
  }

  /** An element may have blanks in front. */
  function AfterBlanks<T>(read: string -> Parse<T>): (r: string -> Parse<T>)
    ensures Shrinks(read) ==> Shrinks(r)
  {
    assert Shrinks(read) ==> forall s :: |read(SkipWs(s)).rest| <= |SkipWs(s)| <= |s|;
    s => read(SkipWs(s))
  }

  function ReadVia(s: string): (r: Parse<Header>)
    ensures |r.rest| <= |s|
  {
    var (v, t) :- ParseVia(s);
    Ok(ViaHeader(v), t)
  }

  /** How each other kind of header reads its value, or one element of it. */
  type Readers = string -> (string -> Parse<string>)

  ghost predicate AllForward(readers: Readers) { forall name :: Forward(readers(name)) }

  /** The other names that the header loop knows: those of which a line can give several headers. */
  const REPEATED := ["Route", "Contact", "m"]

  /** Those whose value is a list. */
  const LISTED := ["Error-Info", "In-Reply-To", "Proxy-Require", "Content-Encoding", "e", "Require", "Accept-Encoding", "Accept",
    "Accept-Language", "Allow", "Supported", "k", "Unsupported"]

  /** All the rest. */
  const SINGLE := ["Max-Forwards", "Authorization", "Expires", "MIME-Version", "Min-Expires", "User-Agent", "Date", "Server",
    "Subject", "s", "Priority", "Proxy-Authenticate", "Proxy-Authorization", "Reply-To", "Content-Type", "c",
    "Content-Disposition", "Retry-After", "Organization", "Alert-Info", "Authentication-Info", "Timestamp", "WWW-Authenticate",
    "Warning"]

  predicate IsRepeated(name: string) { name in REPEATED }

  predicate IsListed(name: string) { name in LISTED }

  predicate IsSingle(name: string) { name in SINGLE }

  function ReadOther(name: string, read: string -> Parse<string>): (r: string -> Parse<Header>)
    ensures Shrinks(read) ==> Shrinks(r)
  {
    s => var (v, t) :- read(s); Ok(OtherHeader(name, [v]), t)
  }

  /** The headers that one line stands for. */
  function ParseHeader(readers: Readers, name: string, s: string): (r: Parse<seq<Header>>)
    requires AllForward(readers)
    ensures |r.rest| <= |s|
  {
    if name == "Via" || name == "v" then Joined(ReadVia, [], s)
    else if name == "Record-Route" then Joined(ParseRoute, [], s)
    else if name == "From" || name == "f" then var (p, t) :- ParseParty(s); Ok([FromHeader(p)], t)
    else if name == "To" || name == "t" then var (p, t) :- ParseParty(s); Ok([ToHeader(p)], t)
    else if name == "Call-ID" || name == "i" then var (id, t) :- ReadLine(s); Ok([CallIdHeader(id)], t)
    else if name == "CSeq" then var (c, t) :- ParseCSeq(s); Ok([CSeqHeader(c)], t)
    else if name == "Content-Length" || name == "l" then var (n, t) :- ScanNumber(U32_MAX, s); Ok([ContentLength(n)], t)
    else ParseOther(readers(name), name, s)
  }

  /** A line of another kind, or of no kind that the parser knows. */
  function ParseOther(read: string -> Parse<string>, name: string, s: string): (r: Parse<seq<Header>>)
    requires Forward(read)
    ensures |r.rest| <= |s|
  {
    if IsRepeated(name) then Joined(ReadOther(name, read), [], s)
    else if IsListed(name) then var (vs, t) :- Joined(AfterBlanks(read), [], s); Ok([OtherHeader(name, vs)], t)
    else if IsSingle(name) then var (v, t) :- read(s); Ok([OtherHeader(name, [v])], t)
    else var (data, t) :- ReadLine(s); Ok([RawHeader(name, data)], t)
  }

  /** The header loop: it ends at an empty line or at the end of the text. */
  function HeaderLoop(readers: Readers, hs: seq<Header>, s: string): (r: Parse<seq<Header>>)
    requires AllForward(readers)
    ensures |r.rest| <= |s|
    decreases |s|
  {
    var (name, t) :- ParseHeaderName(s);
    var (more, t) :- ParseHeader(readers, name, t);
    var (_, t) :- ScanNewline(t);
    if AtLineEnd(t) then Ok(hs + more, t) else HeaderLoop(readers, hs + more, t)
  }

  /** A status code is written with three digits. */
  function CodeFrom(s: string): Option<StatusCode> {
    if |s| == 3 && Span(IsDigit, s) == 3 then
      assert s[..3] == s;
      if IsStatusCode(Value(s)) then Some(Value(s)) else None
    else None
  }

  function ParseStatusCode(s: string): (r: Parse<StatusCode>)
    ensures |r.rest| <= |s|
  {
    var t := SkipWs(s);
    var n := Span(IsDigit, t);
    if CodeFrom(t[..n]).Some? then Ok(CodeFrom(t[..n]).value, SkipWs(t[n..])) else Err(StatusCodeKind, SkipWs(t[n..]))
  }

  function ParseStatusLine(s: string): (r: Parse<FirstLine>)
    ensures |r.rest| <= |s|
  {
    var (_, t) :- ParseSipVersion(s);
    var (code, t) :- ParseStatusCode(t);
    var (reason, t) :- ReadLine(t);
    Ok(StatusLine(code, reason), SkipNewlines(t))
  }

  function ParseRequestLine(s: string): (r: Parse<FirstLine>)
    ensures |r.rest| <= |s|
  {
    var n := Span(IsToken, s);
    var (uri, t) :- ParseUri(true, SkipWs(s[n..]));
    var (_, t) :- ParseSipVersion(SkipWs(t));
    Ok(RequestLine(MethodFrom(s[..n]), uri), SkipNewlines(t))
  }

  /** A text that starts with the version is a response. */
  function ParseFirstLine(s: string): (r: Parse<FirstLine>)
    ensures |r.rest| <= |s|
  {
    if "SIP/2.0" <= s then ParseStatusLine(s) else ParseRequestLine(s)
  }

  predicate IsContentType(h: Header) { h.OtherHeader? && (h.name == "Content-Type" || h.name == "c") }

  predicate HasContentType(hs: seq<Header>) { exists i :: 0 <= i < |hs| && IsContentType(hs[i]) }

  /** There is a body only behind a Content-Type header; the line breaks in front of it are skipped, however many there are. */
  function ParseMessage(readers: Readers, s: string): (r: Parse<SipMessage>)
    requires AllForward(readers)
    ensures |r.rest| <= |s|
  {
    var (line, t) :- ParseFirstLine(s);
    var (headers, t) :- HeaderLoop(readers, [], t);
    if HasContentType(headers) then Ok(SipMessage(line, headers, Some(SkipNewlines(t))), SkipNewlines(t))
    else Ok(SipMessage(line, headers, None), t)
  }
}
