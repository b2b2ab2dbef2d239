/**
 * A request, the response to it and the ACK to that response, each made from what was read of the one before and written to
 * the wire: when the other side can read them, and that they then reach the transactions they are meant for.
 */
module Exchange {
  import opened Wrappers
  import opened Text
  import opened Writing
  import opened Parsing
  import opened Messages
  import opened SipValues
  import opened SipGrammar
  import opened SipReading
  import opened Headers
  import opened MessageGrammar
  import opened MessageRoundTrip
  import opened Wire
  import U = UriRoundTrip
  import V = ViaRoundTrip
  import R = RequestRoundTrip

  /** A header that comes back from the wire. */
  ghost predicate Good(readers: Readers, h: Header) { ValidHeader(readers, h) && PlainHeader(h) }

  ghost predicate AllGood(readers: Readers, hs: seq<Header>) { forall h :: h in hs ==> Good(readers, h) }

  lemma GoodIs(readers: Readers, hs: seq<Header>)
    ensures AllGood(readers, hs) <==> AllValid(readers, hs) && AllPlain(hs)
  {
    hide ValidHeader, PlainHeader;
    if AllGood(readers, hs) {
      assert forall i :: 0 <= i < |hs| ==> hs[i] in hs;
    }
  }

  lemma {:induction false} ViasAreIn(hs: seq<Header>)
    ensures forall v :: v in Vias(hs) ==> ViaHeader(v) in hs
  {
    if hs != [] { ViasAreIn(hs[1..]); }
  }

  lemma {:induction false} RoutesAreIn(hs: seq<Header>)
    ensures forall h :: h in Routes(hs) ==> h in hs
  {
    if hs != [] { RoutesAreIn(hs[1..]); }
  }

  lemma {:induction false} LastIsIn<T>(pick: Header -> Option<T>, hs: seq<Header>) returns (h: Option<Header>)
    ensures Last(pick, hs).Some? ==> h.Some? && h.value in hs && pick(h.value) == Last(pick, hs)
  {
    h := None;
    if hs != [] {
      if pick(hs[|hs| - 1]).Some? {
        h := Some(hs[|hs| - 1]);
      } else {
        h := LastIsIn(pick, hs[..|hs| - 1]);
      }
    }
  }

  /** The mandatory headers of a request are among its headers. */
  lemma MandatoryAreIn(hs: seq<Header>)
    requires Extract(hs).Success?
    ensures var m := Extract(hs).value;
            ViaHeader(m.via) in hs && FromHeader(m.from) in hs && ToHeader(m.to) in hs && CallIdHeader(m.callId) in hs
            && CSeqHeader(m.cseq) in hs
  {
    hide Last, Vias;
    ViasAreIn(hs);
    var m := Extract(hs).value;
    assert m.via in Vias(hs);
    var from := LastIsIn(AsFrom, hs);
    var to := LastIsIn(AsTo, hs);
    var id := LastIsIn(AsCallId, hs);
    var cseq := LastIsIn(AsCSeq, hs);
  }

  predicate IsTokenText(s: string) { Span(IsToken, s) == |s| }

  lemma TokenTextIs(s: string)
    ensures IsTokenText(s) <==> All(IsToken, s)
  {
    var n := Span(IsToken, s);
    assert s[..|s|] == s;
  }

  /**
   * The caller's check on the request: a branch that becomes the tag of the To, where fewer characters are read, must be made
   * of these.
   */
  predicate TagReads(to: Party, branch: Option<string>, code: StatusCode) {
    to.tag.Some? || code == 100 || branch.None? || IsTokenText(branch.value)
  }

  lemma CodesFrom100(code: StatusCode)
    ensures code <= 100 <==> code == 100
  {
    assert IsStatusCode(code);
  }

  lemma StampedIsGood(readers: Readers, v: Via, source: Ip)
    requires Good(readers, ViaHeader(v)) && ValidIp(source)
    ensures Good(readers, ViaHeader(v.(received := Some(source))))
  {
    hide ValidIp, ValidHost, All, Written, V.Reserved;
  }

  lemma TaggedIsGood(readers: Readers, to: Party, branch: Option<string>, code: StatusCode)
    requires Good(readers, ToHeader(to)) && TagReads(to, branch, code)
    ensures Good(readers, ToHeader(Tagged(to, code, branch)))
  {
    hide ValidParams, U.ValidSipUri, All, IsTokenText, UriParamList, U.PlainHeaders;
    CodesFrom100(code);
    if branch.Some? { TokenTextIs(branch.value); }
  }

  /** What stands in front of the To of a response. */
  function Front(request: seq<Header>, m: Mandatory): seq<Header> {
    ViaHeaders([m.via] + Rest(Vias(request))) + Routes(request) + [CallIdHeader(m.callId), FromHeader(m.from)]
  }

  lemma ResponseIs(request: seq<Header>, m: Mandatory, code: StatusCode)
    ensures ResponseHeaders(request, m, code)
         == Front(request, m) + [ToHeader(Tagged(m.to, code, m.via.branch)), CSeqHeader(m.cseq)]
  {
    hide Vias, Routes, Rest, ViaHeaders, Tagged;
  }

  lemma FrontIsGood(readers: Readers, request: seq<Header>, seen: Ip)
    requires AllGood(readers, request) && Extract(request).Success? && ValidIp(seen)
    ensures AllGood(readers, Front(request, Arrived(request, seen).value))
    ensures var m := Arrived(request, seen).value; Good(readers, ToHeader(m.to)) && Good(readers, CSeqHeader(m.cseq))
  {
    MandatoryAreIn(request);
    ViasAreIn(request);
    RoutesAreIn(request);
    hide Good, Vias, Routes, Last, ValidIp, Extract;
    var m := Arrived(request, seen).value;
    StampedIsGood(readers, Extract(request).value.via, seen);
    var vias := [m.via] + Rest(Vias(request));
    assert forall v :: v in Rest(Vias(request)) ==> v in Vias(request);
    assert forall v :: v in vias ==> Good(readers, ViaHeader(v));
    assert forall h :: h in ViaHeaders(vias) ==> Good(readers, h);
  }

  /** The loop takes a section of headers that come back, and goes on with what is behind it. */
  lemma {:induction false} LoopTakes(readers: Readers, done: seq<Header>, hs: seq<Header>, rest: string)
    requires AllForward(readers) && AllValid(readers, hs) && AllPlain(hs) && !AtLineEnd(rest)
    ensures HeaderLoop(readers, done, Lines(HeaderLines(hs)) + rest) == HeaderLoop(readers, done + hs, rest)
    decreases |hs|
  {
    hide HeaderLoop, ValidHeader, PlainHeader, HeaderLine, Lines, AtLineEnd, AllForward, HeaderLines;
    if hs == [] {
      NoHeaderLines(rest);
      assert done + hs == done;
    } else {
      var more := Lines(HeaderLines(hs[1..])) + rest;
      HeadAndTail(done, hs, rest);
      LoopStep(readers, done, hs[0], more);
      if |hs| == 1 { NoHeaderLines(rest); assert hs[1..] == []; } else { LineBegins(readers, hs[1..], rest); }
      LoopTakes(readers, done + [hs[0]], hs[1..], rest);
    }
  }

  lemma NoHeaderLines(rest: string)
    ensures Lines(HeaderLines([])) + rest == rest
  {
    assert HeaderLines([]) == [];
    NoLines(rest);
  }

  lemma TagText(tag: string, n: nat, tail: string)
    requires n <= |tag|
    ensures ParamText(Param("tag", Some(tag))) + tail == ";" + (Bare(Param("tag", Some(tag[..n]))) + (tag[n..] + tail))
  {
    assert tag == tag[..n] + tag[n..];
    assert ParamText(Param("tag", Some(tag))) == ";tag=" + tag;
    assert Bare(Param("tag", Some(tag[..n]))) == "tag=" + tag[..n];
    Regroup(";tag=", tag, tail);
    Regroup(tag[..n], tag[n..], tail);
    assert ";tag=" + (tag[..n] + (tag[n..] + tail)) == ";" + (("tag=" + tag[..n]) + (tag[n..] + tail));
  }

  /** Where the reading of a tag stops that has other characters than those of a token. */
  lemma TagStops(tag: string, tail: string)
    requires All(IsViaParam, tag) && !IsTokenText(tag)
    ensures var n := Span(IsToken, tag);
            var s := tag[n..] + tail;
            All(IsToken, tag[..n]) && Ends(IsToken, s) && SkipWs(s) == s && !Starts(s, ';') && ScanNewline(s).Err?
  {
    var n := Span(IsToken, tag);
    var s := tag[n..] + tail;
    assert s[0] == tag[n] && IsViaParam(tag[n]) && !IsToken(tag[n]);
    SkipNoWs(s);
  }

  lemma TagInner(tag: string)
    requires All(IsViaParam, tag)
    ensures All(U.IsInner, ParamText(Param("tag", Some(tag))))
  {
  }

  lemma ParamsUnfold(p: Param, ps: seq<Param>)
    ensures ParamsText([p] + ps) == ParamText(p) + ParamsText(ps)
  {
    assert ([p] + ps)[1..] == ps;
  }

  /** The loop over parameters ends inside such a tag. */
  lemma TagLoopStops(p: Party, tag: string, tail: string)
    requires All(IsViaParam, tag) && !IsTokenText(tag)
    ensures var r := ParamLoop(IsToken, PutTag, p, SkipWs(ParamText(Param("tag", Some(tag))) + tail));
            r.Ok? && ScanNewline(r.rest).Err?
  {
    hide ParamLoop, ParseParam, SkipWs, Bare, ParamText, Ends, Separates, All, IsViaParam, IsTokenText, ScanNewline, IsToken;
    var n := Span(IsToken, tag);
    var x, s := Param("tag", Some(tag[..n])), tag[n..] + tail;
    TagText(tag, n, tail);
    TagStops(tag, tail);
    TokenSeparates();
    SkipNoWs(";" + (Bare(x) + s));
    TagIsWritten(tag[..n]);
    ParamReads(IsToken, x, s);
    ParamLoopUnfolds(IsToken, PutTag, p, Bare(x) + s);
    ParamLoopUnfolds(IsToken, PutTag, PutTag(p, x).value, s);
  }

  lemma TagIsWritten(value: string)
    requires All(IsToken, value)
    ensures Written(IsToken, Param("tag", Some(value)))
  {
    assert All(IsToken, "tag");
  }

  /** A To whose tag has such characters is never the end of its line. */
  lemma BadTagStops(to: Party, tag: string, rest: string)
    requires ValidParty(to) && PlainParty(to) && All(IsViaParam, tag) && !IsTokenText(tag)
    ensures var r := ParseParty(PartyText(to.(tag := Some(tag))) + (CRLF + rest)); r.Ok? ==> ScanNewline(r.rest).Err?
  {
    hide ParamsText, ParamText, SipUriText, ParseSipUri, ParamLoop, PutTag, SkipWs, Written, ParseParty, All, IsViaParam, IsTokenText,
      U.IsInner, U.ValidSipUri, ScanNewline, PlainParty;
    var p, x := to.(tag := Some(tag)), Param("tag", Some(tag));
    var ps := [x] + to.params;
    assert Optional("tag", p.tag) + p.params == ps;
    ParamsUnfold(x, to.params);
    TagInner(tag);
    TokenParamsInner(to.params);
    AllConcat(U.IsInner, ParamText(x), ParamsText(to.params));
    SamePlain(to, p);
    PartyUriReads(p, ps, rest);
    Regroup(SipUriText(p.uri), ParamsText(ps), CRLF + rest);
    ParsePartyIs(PartyText(p) + (CRLF + rest));
    Regroup(ParamText(x), ParamsText(to.params), CRLF + rest);
    TagLoopStops(Party(p.uri, None, []), tag, ParamsText(to.params) + (CRLF + rest));
  }

  lemma SamePlain(p: Party, q: Party)
    requires q == p.(tag := q.tag)
    ensures PlainParty(q) <==> PlainParty(p)
  {
  }

  lemma ToLineIs(to: Party, rest: string)
    ensures var s := HeaderLine(ToHeader(to)) + (CRLF + rest);
            ParseHeaderName(s) == Ok("To", PartyText(to) + (CRLF + rest)) && !AtLineEnd(s)
  {
    hide PartyText, ParseHeaderName;
    PartyStarts(to, rest);
    V.NameLineReads("To", PartyText(to) + (CRLF + rest));
    assert HeaderLine(ToHeader(to)) + (CRLF + rest) == "To" + (": " + (PartyText(to) + (CRLF + rest)));
  }

  /** The header loop fails at such a To. */
  lemma BadTagFails(readers: Readers, done: seq<Header>, to: Party, tag: string, rest: string)
    requires AllForward(readers) && ValidParty(to) && PlainParty(to) && All(IsViaParam, tag) && !IsTokenText(tag)
    ensures HeaderLoop(readers, done, HeaderLine(ToHeader(to.(tag := Some(tag)))) + (CRLF + rest)).Err?
  {
    hide ValidParty, PlainParty, All, IsTokenText, PartyText, ParseParty, HeaderLoop, ScanNewline, Joined, ParseCSeq, ReadLine,
      ScanNumber, ParseOther, HeaderLine, ParseHeaderName;
    var p := to.(tag := Some(tag));
    ToLineIs(p, rest);
    BadTagStops(to, tag, rest);
    LoopIs(readers, done, HeaderLine(ToHeader(p)) + (CRLF + rest), "To", PartyText(p) + (CRLF + rest));
  }

  function Response(request: seq<Header>, seen: Ip, code: StatusCode, reason: string): SipMessage
    requires Extract(request).Success?
  {
    SipMessage(StatusLine(code, reason), ResponseHeaders(request, Arrived(request, seen).value, code), None)
  }

  lemma NoBodyInResponse(request: seq<Header>, m: Mandatory, code: StatusCode)
    ensures !HasContentType(ResponseHeaders(request, m, code))
  {
    OnlyRoutes(request);
    hide Vias, Routes, Rest, Tagged;
    var hs := ResponseHeaders(request, m, code);
    var routes := Routes(request);
    assert forall h :: h in routes ==> h.RecordRoute?;
    assert forall h :: h in hs ==> !h.OtherHeader?;
    assert forall i :: 0 <= i < |hs| ==> hs[i] in hs;
  }

  lemma ResponseIsGood(readers: Readers, request: seq<Header>, seen: Ip, code: StatusCode, reason: string)
    requires AllGood(readers, request) && Extract(request).Success? && ValidIp(seen) && ValidText(reason)
    requires TagReads(Extract(request).value.to, Extract(request).value.via.branch, code)
    ensures var m := Response(request, seen, code, reason); ValidMessage(readers, m) && PlainMessage(m)
  {
    hide Good, ResponseHeaders, Extract, ValidIp, ValidText, TagReads, Front, HasContentType, AllValid, AllPlain;
    var server := Arrived(request, seen).value;
    var hs := ResponseHeaders(request, server, code);
    FrontIsGood(readers, request, seen);
    TaggedIsGood(readers, server.to, server.via.branch, code);
    ResponseIs(request, server, code);
    assert AllGood(readers, hs);
    GoodIs(readers, hs);
    NoBodyInResponse(request, server, code);
  }

  /** With such a branch for a tag no response can be read. */
  lemma ResponseFails(readers: Readers, request: seq<Header>, seen: Ip, code: StatusCode, reason: string)
    requires AllForward(readers) && AllGood(readers, request) && Extract(request).Success? && ValidIp(seen) && ValidText(reason)
    requires !TagReads(Extract(request).value.to, Extract(request).value.via.branch, code)
    ensures ParseMessage(readers, Bytes(Response(request, seen, code, reason))).Err?
  {
    hide Good, AllGood, ResponseHeaders, Extract, ValidIp, ValidText, Front, HasContentType, AllValid, AllPlain, HeaderLines, Lines,
      HeaderLoop, HeaderLine, ParseMessage, ParseFirstLine, Bytes, IsTokenText, AllForward, PartyText, Outgoing, Chunking.StartLine;
    var server := Arrived(request, seen).value;
    var m, front := Response(request, seen, code, reason), Front(request, server);
    var to := ToHeader(Tagged(server.to, code, server.via.branch));
    CodesFrom100(code);
    ResponseIs(request, server, code);
    FrontIsGood(readers, request, seen);
    GoodIs(readers, front);
    GoodParts(readers, request, seen);
    var rest := LinesSplit(m, front, to);
    ToLineIs(to.to, rest);
    var t := Lines(HeaderLines(AllHeaders(m))) + (CRLF + BodyText(m));
    BytesAre(m);
    LoopTakes(readers, [], front, HeaderLine(to) + (CRLF + rest));
    BadTagFails(readers, [] + front, server.to, server.via.branch.value, rest);
    SectionStarts(readers, front, HeaderLine(to) + (CRLF + rest));
    FirstLineRoundTrips(m, t);
    ParseMessageIs(readers, Bytes(m), m.line, t);
  }

  lemma SectionStarts(readers: Readers, hs: seq<Header>, rest: string)
    requires AllValid(readers, hs) && !AtLineEnd(rest)
    ensures Begins(Lines(HeaderLines(hs)) + rest)
  {
    hide ValidHeader, HeaderLines, Lines;
    if hs == [] { NoHeaderLines(rest); } else { LineBegins(readers, hs, rest); }
  }

  lemma GoodParts(readers: Readers, request: seq<Header>, seen: Ip)
    requires AllGood(readers, request) && Extract(request).Success?
    ensures var m := Arrived(request, seen).value;
            && ValidParty(m.to) && PlainParty(m.to)
            && (m.via.branch.Some? ==> All(IsViaParam, m.via.branch.value))
  {
    MandatoryAreIn(request);
    hide Vias, Last, Extract, All, ValidParty, PlainParty;
    var m := Extract(request).value;
    assert Good(readers, ToHeader(m.to)) && Good(readers, ViaHeader(m.via));
  }

  /** The header section of a message up to one of its headers, and behind it. */
  lemma LinesSplit(m: SipMessage, front: seq<Header>, h: Header) returns (rest: string)
    requires |front| < |m.headers| && m.headers[..|front|] == front && m.headers[|front|] == h
    ensures Lines(HeaderLines(AllHeaders(m))) + (CRLF + BodyText(m))
         == Lines(HeaderLines(front)) + (HeaderLine(h) + (CRLF + rest))
  {
    hide HeaderLine, Lines, BodyText;
    var hs, n := AllHeaders(m), |front|;
    assert hs[..n] == front && hs[n] == h;
    var lines := HeaderLines(hs);
    assert lines == HeaderLines(front) + lines[n..];
    LinesConcat(HeaderLines(front), lines[n..]);
    var body := CRLF + BodyText(m);
    rest := Lines(lines[n..][1..]) + body;
    LinesUnfold(lines[n..], body);
    Regroup(Lines(HeaderLines(front)), Lines(lines[n..]), body);
  }

  /**
   * The response that a server makes from what it read of a request, written and read back at the other end: it can be read
   * exactly if the request had a To tag, or the code is 100, or the branch is made of token characters; and then it carries
   * the key under which the client waits. `seen` and `back` are the addresses that the two transports stamp on the topmost Via.
   */
  lemma ResponseReachesClient(readers: Readers, request: seq<Header>, seen: Ip, back: Ip, code: StatusCode, reason: string)
    requires AllForward(readers) && AllValid(readers, request) && AllPlain(request) && ValidIp(seen) && ValidText(reason)
    requires Extract(request).Success? && Extract(request).value.via.branch.Some?
    requires HasCookie(Extract(request).value.via.branch.value)
    ensures var m := Extract(request).value;
            var r := ParseMessage(readers, Bytes(Response(request, seen, code, reason)));
            && (r.Ok? <==> TagReads(m.to, m.via.branch, code))
            && (r.Ok? ==>
                  && r.value.line == StatusLine(code, reason)
                  && Arrived(r.value.headers, back).Success?
                  && KeyFrom(Arrived(r.value.headers, back).value, Uac) == Some(NewKey(Uac, m.cseq.verb, m.via.branch.value)))
  {
    hide Vias, Last, Routes, ResponseHeaders, ParseMessage, Bytes, ValidMessage, PlainMessage, Extract, HasCookie, AllForward, AllValid,
      AllPlain, TagReads, ValidIp, ValidText, AllGood;
    GoodIs(readers, request);
    var m := Extract(request).value;
    if TagReads(m.to, m.via.branch, code) {
      var sent := Response(request, seen, code, reason);
      ResponseIsGood(readers, request, seen, code, reason);
      MessageRoundTrips(readers, sent);
      ResponseCopies(request, seen, code);
      LengthIsNotMandatory(sent.headers, |BodyText(sent)|);
    } else {
      ResponseFails(readers, request, seen, code, reason);
    }
  }

  /** What the client keeps of the response, wherever it comes from, in terms of the request. */
  lemma ClientKeeps(request: seq<Header>, seen: Ip, back: Ip, code: StatusCode)
    requires Extract(request).Success?
    ensures var server := Arrived(request, seen).value;
            Arrived(ResponseHeaders(request, server, code), back)
            == Success(server.(via := server.via.(received := Some(back)), to := Tagged(server.to, code, server.via.branch)))
  {
    hide Vias, Last, Routes, ResponseHeaders, Extract;
    ResponseCopies(request, seen, code);
  }

  lemma AckIsValid(readers: Readers, request: seq<Header>, seen: Ip, back: Ip, code: StatusCode, target: Uri, client: Mandatory)
    requires AllGood(readers, request) && Extract(request).Success? && ValidIp(back) && U.ValidUri(target)
    requires TagReads(Extract(request).value.to, Extract(request).value.via.branch, code)
    requires Arrived(ResponseHeaders(request, Arrived(request, seen).value, code), back) == Success(client)
    ensures var ack := AckMessage(target, client); ValidMessage(readers, ack) && (PlainMessage(ack) <==> R.PlainInLine(target))
  {
    hide Vias, Last, Routes, ResponseHeaders, Extract, TagReads, ValidIp, U.ValidUri, R.PlainInLine, AllValid, AllPlain,
      HasContentType, Good;
    var m := Extract(request).value;
    MandatoryAreIn(request);
    ClientKeeps(request, seen, back, code);
    StampedIsGood(readers, m.via, back);
    TaggedIsGood(readers, m.to, m.via.branch, code);
    assert client == Mandatory(m.via.(received := Some(back)), m.from, Tagged(m.to, code, m.via.branch), m.callId, m.cseq);
    AckCSeqIsGood(readers, m.cseq);
    assert AllGood(readers, MandatoryHeaders(AckOf(client)));
    GoodIs(readers, MandatoryHeaders(AckOf(client)));
    NoBodyInAck(AckOf(client));
  }

  lemma AckCSeqIsGood(readers: Readers, c: CSeq)
    requires Good(readers, CSeqHeader(c))
    ensures Good(readers, CSeqHeader(CSeq(c.number, Ack)))
  {
  }

  lemma NoBodyInAck(m: Mandatory)
    ensures !HasContentType(MandatoryHeaders(m))
  {
  }

  /**
   * The whole exchange of an INVITE: if the client can read the response, then the ACK that it makes from it, written and read
   * back at the server, comes back exactly if the URI of the INVITE does so in a request line, and then it reaches the
   * transaction of the INVITE. `again` is the address stamped on the ACK.
   */
  lemma AckReachesServer(readers: Readers, invite: seq<Header>, target: Uri, seen: Ip, back: Ip, again: Ip, code: StatusCode,
                         reason: string)
    requires AllForward(readers) && AllValid(readers, invite) && AllPlain(invite) && ValidText(reason) && U.ValidUri(target)
    requires ValidIp(seen) && ValidIp(back)
    requires Extract(invite).Success? && Extract(invite).value.cseq.verb == Invite
    requires Extract(invite).value.via.branch.Some? && HasCookie(Extract(invite).value.via.branch.value)
    ensures var server := Arrived(invite, seen).value;
            var r := ParseMessage(readers, Bytes(Response(invite, seen, code, reason)));
            r.Ok? ==>
              && Arrived(r.value.headers, back).Success?
              && var ack := AckMessage(target, Arrived(r.value.headers, back).value);
                 var a := ParseMessage(readers, Bytes(ack));
                 && (a.Ok? && a.value == WithLength(ack) <==> R.PlainInLine(target))
                 && (R.PlainInLine(target) ==>
                       && Arrived(a.value.headers, again).Success? && KeyFrom(server, Uas).Some?
                       && KeyFrom(Arrived(a.value.headers, again).value, Uas) == KeyFrom(server, Uas))
  {
    hide Vias, Last, Routes, ResponseHeaders, ParseMessage, Bytes, ValidMessage, PlainMessage, Extract, HasCookie, AllForward, AllValid,
      AllPlain, AllGood, TagReads, ValidIp, ValidText, AckMessage, U.ValidUri, R.PlainInLine, KeyFrom, HeaderLoop, ParseFirstLine;
    GoodIs(readers, invite);
    ResponseReachesClient(readers, invite, seen, back, code, reason);
    var sent := Response(invite, seen, code, reason);
    if ParseMessage(readers, Bytes(sent)).Ok? {
      ResponseIsGood(readers, invite, seen, code, reason);
      MessageRoundTrips(readers, sent);
      LengthIsNotMandatory(sent.headers, |BodyText(sent)|);
      ClientKeeps(invite, seen, back, code);
      AckReads(readers, invite, target, seen, back, again, code, Arrived(sent.headers, back).value);
    }
  }

  lemma AckReads(readers: Readers, invite: seq<Header>, target: Uri, seen: Ip, back: Ip, again: Ip, code: StatusCode, client: Mandatory)
    requires AllForward(readers) && AllGood(readers, invite) && U.ValidUri(target) && ValidIp(back)
    requires Extract(invite).Success? && Extract(invite).value.cseq.verb == Invite
    requires Extract(invite).value.via.branch.Some? && HasCookie(Extract(invite).value.via.branch.value)
    requires TagReads(Extract(invite).value.to, Extract(invite).value.via.branch, code)
    requires Arrived(ResponseHeaders(invite, Arrived(invite, seen).value, code), back) == Success(client)
    ensures var server, ack := Arrived(invite, seen).value, AckMessage(target, client);
            var a := ParseMessage(readers, Bytes(ack));
            && (a.Ok? && a.value == WithLength(ack) <==> R.PlainInLine(target))
            && (R.PlainInLine(target) ==>
                  && Arrived(a.value.headers, again).Success? && KeyFrom(server, Uas).Some?
                  && KeyFrom(Arrived(a.value.headers, again).value, Uas) == KeyFrom(server, Uas))
  {
    ExtractVia(invite);
    hide Vias, Last, Routes, ResponseHeaders, ParseMessage, Bytes, ValidMessage, PlainMessage, Extract, HasCookie, AllForward, AllGood,
      TagReads, ValidIp, MandatoryHeaders, AckOf, U.ValidUri, R.PlainInLine;
    AckFindsInvite(invite, seen, back, again, code);
    AckIsValid(readers, invite, seen, back, code, target, client);
    var ack := AckMessage(target, client);
    MessageRoundTrips(readers, ack);
    LengthIsNotMandatory(ack.headers, |BodyText(ack)|);
  }

  lemma ExtractVia(hs: seq<Header>)
    requires Extract(hs).Success?
    ensures Vias(hs) != [] && Vias(hs)[0] == Extract(hs).value.via
  {
    hide Vias, Last;
  }
}
