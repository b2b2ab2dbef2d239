/** Reading back the headers of a message, and a whole response, as they were written. */
module MessageRoundTrip {
  import opened Wrappers
  import opened Text
  import opened Writing
  import opened Parsing
  import opened Messages
  import opened SipValues
  import opened SipGrammar
  import opened SipReading
  import opened Headers
  import opened MessageGrammar
  import U = UriRoundTrip
  import V = ViaRoundTrip

  ghost predicate ValidParams(ps: seq<Param>) { forall p :: p in ps ==> Written(IsToken, p) }

  ghost predicate ValidParty(p: Party) {
    && U.ValidSipUri(p.uri)
    && (p.tag.Some? ==> All(IsToken, p.tag.value))
    && ValidParams(p.params) && forall x :: x in p.params ==> x.name != "tag"
  }

  /**
   * The caller's check: the URI comes back, and a bare one has no parameters or headers of its own, for those behind it are
   * those of the header.
   */
  predicate PlainParty(p: Party) {
    var u := U.UriOf(p.uri);
    !IsV6Host(u.hostPort.host) && if p.uri.PlainUri? then UriParamList(u) == [] && u.headers.None? else U.PlainHeaders(u)
  }

  /** Text that is all that is left of its line, behind the blank in front of it. */
  predicate ValidText(s: string) { CleanText(s) && (s != "" ==> !IsSpace(s[0])) }

  predicate IsModelled(name: string) {
    name in ["Via", "v", "Record-Route", "From", "f", "To", "t", "Call-ID", "i", "CSeq", "Content-Length", "l"]
  }

  predicate IsOther(name: string) { IsRepeated(name) || IsListed(name) || IsSingle(name) }

  /** A value that its reader gives back, up to the end of the line or, in a list, to the next comma. */
  ghost predicate GivenBack(read: string -> Parse<string>, value: string, listed: bool) {
    && (value != "" ==> !IsSpace(value[0]))
    && forall more :: Starts(more, '\r') || (listed && Starts(more, ',')) ==> read(value + more) == Ok(value, more)
  }

  ghost predicate AllGivenBack(read: string -> Parse<string>, values: seq<string>, listed: bool) {
    forall i :: 0 <= i < |values| ==> GivenBack(read, values[i], listed)
  }

  /** Every part is written in the characters of its place. */
  ghost predicate ValidHeader(readers: Readers, h: Header) {
    match h
    case ViaHeader(v) => V.ValidVia(v)
    case FromHeader(p) => ValidParty(p)
    case ToHeader(p) => ValidParty(p)
    case CallIdHeader(id) => ValidText(id)
    case CSeqHeader(c) => c.number <= U32_MAX
    case RecordRoute(addr, ps) => U.ValidUri(addr.uri) && U.ValidDisplay(addr.display) && ValidParams(ps)
    case ContentLength(n) => n <= U32_MAX
    case RawHeader(name, data) => All(IsToken, name) && !IsModelled(name) && !IsOther(name) && ValidText(data)
    case OtherHeader(name, values) =>
      && All(IsToken, name) && !IsModelled(name) && IsOther(name)
      && values != [] && (IsRepeated(name) || !IsListed(name) ==> |values| == 1)
      && AllGivenBack(readers(name), values, IsListed(name) && !IsRepeated(name))
  }

  /** The caller's check that a valid header comes back. */
  predicate PlainHeader(h: Header) {
    match h
    case ViaHeader(v) => !IsV6Host(v.sentBy.host)
    case FromHeader(p) => PlainParty(p)
    case ToHeader(p) => PlainParty(p)
    case CSeqHeader(c) => !c.verb.Unknown?
    case RecordRoute(addr, _) => !IsV6Host(addr.uri.hostPort.host) && U.PlainHeaders(addr.uri)
    case _ => true
  }

  lemma TokenSeparates()
    ensures Separates(IsToken) && !IsToken('@')
  {
  }

  lemma ReturnStopsParams(s: string)
    requires Starts(s, '\r')
    ensures EndsParams(IsToken, s) && SkipWs(s) == s
  {
    hide SkipWs;
    SkipNoWs(s);
  }

  lemma LineStopsParams(rest: string)
    ensures EndsParams(IsToken, CRLF + rest) && SkipWs(CRLF + rest) == CRLF + rest
  {
    hide EndsParams, SkipWs;
    ReturnStopsParams(CRLF + rest);
  }

  lemma LineStops(rest: string)
    ensures U.StopsUri(CRLF + rest) && U.EndsUri(CRLF + rest) && V.StopsVia(CRLF + rest) && EndsHost(CRLF + rest) && AtLineEnd(CRLF + rest)
  {
  }

  lemma {:induction false} PutTagGeneric(p: Party, ps: seq<Param>)
    requires forall x :: x in ps ==> x.name != "tag"
    ensures PutAll(PutTag, p, ps) == Success(p.(params := p.params + ps))
    decreases |ps|
  {
    if ps == [] {
      assert p.params + ps == p.params;
    } else {
      var q := p.(params := p.params + [ps[0]]);
      assert ps[0] in ps;
      assert PutTag(p, ps[0]) == Success(q);
      PutTagGeneric(q, ps[1..]);
      assert q.params + ps[1..] == p.params + ps;
    }
  }

  lemma PutPartyList(p: Party)
    requires forall x :: x in p.params ==> x.name != "tag"
    ensures PutAll(PutTag, Party(p.uri, None, []), Optional("tag", p.tag) + p.params) == Success(p)
  {
    hide PutAll;
    PutOptional(PutTag, Party(p.uri, None, []), "tag", p.tag, p.params);
    PutTagGeneric(Party(p.uri, p.tag, []), p.params);
    assert [] + p.params == p.params;
  }

  lemma PartyListWritten(p: Party)
    requires ValidParty(p)
    ensures ValidParams(Optional("tag", p.tag) + p.params)
  {
    assert All(IsToken, "tag");
    OptionalWritten(IsToken, "tag", p.tag, p.params);
  }

  lemma {:induction false} PutParamsGeneric(done: seq<Param>, ps: seq<Param>)
    ensures PutAll(PutParam, done, ps) == Success(done + ps)
    decreases |ps|
  {
    if ps == [] {
      assert done + ps == done;
    } else {
      PutParamsGeneric(done + [ps[0]], ps[1..]);
      assert done + [ps[0]] + ps[1..] == done + ps;
    }
  }

  lemma {:induction false} TokenParamsInner(ps: seq<Param>)
    requires ValidParams(ps)
    ensures All(U.IsInner, ParamsText(ps))
    decreases |ps|
  {
    if ps != [] {
      assert ps[0] in ps;
      TokenParamInner(ps[0]);
      TokenParamsInner(ps[1..]);
      hide Written, U.IsInner, All, ParamText;
      AllConcat(U.IsInner, ParamText(ps[0]), ParamsText(ps[1..]));
    }
  }

  lemma TokenParamInner(p: Param)
    requires Written(IsToken, p)
    ensures All(U.IsInner, ParamText(p))
  {
  }

  /** A bare URI in a header is read up to its host, whatever is behind it. */
  lemma BareUriFront(u: Uri, ps: seq<Param>, rest: string)
    requires U.ValidUri(u) && All(U.IsInner, ParamsText(ps))
    ensures var more := ParamsText(ps) + (CRLF + rest);
            var p := ParseHostPort(U.UriTail(u) + more);
            ParseSipUri(false, UriText(u) + more)
            == if p.Err? then Err(p.kind, p.rest) else Ok(PlainUri(BareUri(u.scheme, u.user, p.value)), p.rest)
  {
    hide U.IsInner, All, ParamsText, UserText, UriText, U.UriTail, SchemeText, Written, ParseHostPort, ParseUserInfo, ParseScheme,
      U.EndsUri, ParseSipUri, ParseUri, SkipWs, U.ValidUser, ValidHost, HostText, ValidParams;
    var more := ParamsText(ps) + (CRLF + rest);
    var tail := U.UriTail(u) + ParamsText(ps);
    var behind := UserText(u.user) + (tail + (CRLF + rest));
    LineStops(rest);
    U.TailInner(u);
    AllConcat(U.IsInner, U.UriTail(u), ParamsText(ps));
    U.UriTextIs(u, more);
    Regroup(U.UriTail(u), ParamsText(ps), CRLF + rest);
    U.SchemeReads(u.scheme, behind);
    U.UserReads(u.user, tail, CRLF + rest);
    ParseBareIs(UriText(u) + more, u.scheme, behind, u.user, tail + (CRLF + rest));
    U.SchemeWord(u.scheme, behind, UriText(u) + more);
    PlainIs(UriText(u) + more, u.scheme);
  }

  lemma ParseBareIs(s: string, scheme: Scheme, t: string, user: Option<UserInfo>, tail: string)
    requires ParseScheme(s) == Ok(scheme, t) && ParseUserInfo(t) == Ok(user, tail)
    ensures var p := ParseHostPort(tail);
            ParseUri(false, s) == if p.Err? then Err(p.kind, p.rest) else Ok(BareUri(scheme, user, p.value), p.rest)
  {
    hide ParseScheme, ParseUserInfo, ParseHostPort, ParamLoop, UriHeaders, SkipWs;
  }

  lemma PlainIs(s: string, scheme: Scheme)
    requires s != "" && s[0] == 's' && s[..Span(InSchemeOrDisplay, s)] == SchemeText(scheme)
    ensures var p := ParseUri(false, s);
            ParseSipUri(false, s) == if p.Err? then Err(p.kind, p.rest) else Ok(PlainUri(p.value), p.rest)
  {
    SkipNoWs(s);
    hide ParseUri, ParseNameAddr, SkipWs, Span;
  }

  /** A URI without parameters and headers is what the parser builds from its front. */
  lemma BareIsAll(u: Uri, hp: HostPort)
    ensures BareUri(u.scheme, u.user, hp) == u <==> UriParamList(u) == [] && u.headers.None? && hp == u.hostPort
  {
    hide MethodText, HostText, LowerCase, Decimal;
    if BareUri(u.scheme, u.user, hp) == u { assert UriParamList(u) == []; }
    if UriParamList(u) == [] { assert |UriParamList(u)| == 0; }
  }

  lemma BareTailIs(u: Uri, more: string)
    requires UriParamList(u) == [] && u.headers.None?
    ensures U.UriTail(u) + more == HostPortText(u.hostPort) + more
  {
    hide HostPortText, UriParamList;
    assert ParamsText([]) == "";
  }

  /** A bare URI in a header comes back exactly if it is bare of parameters and headers, and its host is not IPv6. */
  lemma BareUriReads(u: Uri, ps: seq<Param>, rest: string)
    requires U.ValidUri(u) && All(U.IsInner, ParamsText(ps))
    ensures var more := ParamsText(ps) + (CRLF + rest);
            var r := ParseSipUri(false, UriText(u) + more);
            if !IsV6Host(u.hostPort.host) && UriParamList(u) == [] && u.headers.None? then r == Ok(PlainUri(u), more)
            else r.Ok? ==> r.value != PlainUri(u)
  {
    hide U.IsInner, All, HostPortText, ParamsText, UserText, UriText, U.UriTail, SchemeText, Written, ParseHostPort, EndsHost,
      U.StopsUri, UriParamList, ParseSipUri, ParseUri, SkipWs, U.ValidUser, ValidHost, HostText, ValidParams, BareUri, ValidIp;
    var more := ParamsText(ps) + (CRLF + rest);
    BareUriFront(u, ps, rest);
    var p := ParseHostPort(U.UriTail(u) + more);
    if p.Ok? { BareIsAll(u, p.value); }
    if IsV6Host(u.hostPort.host) {
      HostIsValid(u);
      U.UriTextIs(u, more);
      var tail := V6TextStarts(u.hostPort, ParamsText(UriParamList(u)) + (U.HeadersPart(u) + more));
      V6HostMisread(u.hostPort.host.ip, tail);
    } else if UriParamList(u) == [] && u.headers.None? {
      LineStops(rest);
      ParamsAfterHost(ps, CRLF + rest);
      BareTailIs(u, more);
      HostPortReads(u.hostPort, more);
      BareIsAll(u, u.hostPort);
    }
  }

  lemma HostIsValid(u: Uri)
    requires U.ValidUri(u) && IsV6Host(u.hostPort.host)
    ensures ValidIp(u.hostPort.host.ip)
  {
    hide U.ValidUser, ValidIp, Written;
  }

  /** A name-addr comes back exactly if its URI does. */
  lemma NamedReads(n: NameAddr, more: string)
    requires U.ValidUri(n.uri) && U.ValidDisplay(n.display)
    ensures var r := ParseNameAddr(NameAddrText(n) + more);
            if !IsV6Host(n.uri.hostPort.host) && U.PlainHeaders(n.uri) then r == Ok(n, more) else r.Ok? ==> r.value != n
  {
    hide U.ValidUri, U.ValidDisplay, U.PlainHeaders, ParseNameAddr, NameAddrText, ParseUri;
    U.NameAddrReads(n, more);
    U.UriRoundTrips(n.uri, ">" + more);
  }

  lemma NamedIs(n: NameAddr, more: string)
    requires U.ValidUri(n.uri) && U.ValidDisplay(n.display)
    ensures var p := ParseNameAddr(NameAddrText(n) + more);
            ParseSipUri(false, NameAddrText(n) + more) == if p.Err? then Err(p.kind, p.rest) else Ok(Named(p.value), p.rest)
  {
    U.NameAddrReads(n, more);
    hide U.ValidUri, U.ValidDisplay, ParseNameAddr, NameAddrText, ParseUri, SkipWs;
    SkipNoWs(NameAddrText(n) + more);
  }

  lemma PartyUriReads(p: Party, ps: seq<Param>, rest: string)
    requires U.ValidSipUri(p.uri) && All(U.IsInner, ParamsText(ps))
    ensures var more := ParamsText(ps) + (CRLF + rest);
            var r := ParseSipUri(false, SipUriText(p.uri) + more);
            if PlainParty(p) then r == Ok(p.uri, more) else r.Ok? ==> r.value != p.uri
  {
    hide ParseSipUri, ParseNameAddr, U.ValidUri, U.ValidDisplay, UriText, NameAddrText, ParamsText, UriParamList, All, U.IsInner;
    if p.uri.PlainUri? {
      BareUriReads(p.uri.uri, ps, rest);
    } else {
      NamedIs(p.uri.nameAddr, ParamsText(ps) + (CRLF + rest));
      NamedReads(p.uri.nameAddr, ParamsText(ps) + (CRLF + rest));
    }
  }

  lemma ParsePartyIs(s: string)
    ensures var p := ParseSipUri(false, s);
            ParseParty(s) == if p.Err? then Err(p.kind, p.rest)
                             else ParamLoop(IsToken, PutTag, Party(p.value, None, []), SkipWs(p.rest))
  {
    hide ParseSipUri, ParamLoop, SkipWs, PutTag;
  }

  lemma {:induction false} TagsKeepUri(p: Party, s: string)
    ensures var r := ParamLoop(IsToken, PutTag, p, s); r.Ok? ==> r.value.uri == p.uri
    decreases |s|
  {
    hide ParseParam, SkipWs;
    if Starts(s, ';') {
      var x := ParseParam(IsToken, s[1..]);
      if x.Ok? { TagsKeepUri(PutTag(p, x.value).value, SkipWs(x.rest)); }
    }
  }

  lemma PartyUriIsValid(p: Party)
    requires ValidParty(p)
    ensures U.ValidSipUri(p.uri)
  {
  }

  lemma PartyTagsDiffer(p: Party)
    requires ValidParty(p)
    ensures forall x :: x in p.params ==> x.name != "tag"
  {
    hide U.ValidSipUri, ValidParams;
  }

  /**
   * When a From or To value comes back: exactly if its host is not IPv6, and either it is a name-addr whose URI headers have
   * values or a bare URI without parameters and headers.
   */
  lemma PartyRoundTrips(p: Party, rest: string)
    requires ValidParty(p)
    ensures var r := ParseParty(PartyText(p) + (CRLF + rest));
            (r == Ok(p, CRLF + rest) <==> PlainParty(p)) && (r.Ok? && r.value == p ==> PlainParty(p))
  {
    hide ValidParty, PlainParty, U.ValidSipUri, All, U.IsInner, ParamsText, SipUriText, ParseSipUri, ParamLoop, PutTag, PutAll, Separates,
      EndsParams, SkipWs, Written, Optional, ParseParty;
    var ps := Optional("tag", p.tag) + p.params;
    var s := PartyText(p) + (CRLF + rest);
    PartyListWritten(p);
    TokenParamsInner(ps);
    PartyUriIsValid(p);
    PartyUriReads(p, ps, rest);
    Regroup(SipUriText(p.uri), ParamsText(ps), CRLF + rest);
    ParsePartyIs(s);
    var uri := ParseSipUri(false, s);
    if PlainParty(p) {
      PartyTagsDiffer(p);
      PutPartyList(p);
      TokenSeparates();
      LineStopsParams(rest);
      ParamLoopReads(IsToken, PutTag, Party(p.uri, None, []), ps, CRLF + rest);
    } else if uri.Ok? {
      TagsKeepUri(Party(uri.value, None, []), SkipWs(uri.rest));
    }
  }

  lemma ParseRouteIs(s: string)
    ensures var p := ParseNameAddr(s);
            p.Ok? ==> var q := ParamLoop(IsToken, PutParam, [], SkipWs(p.rest));
                      ParseRoute(s) == if q.Err? then Err(q.kind, q.rest) else Ok(RecordRoute(p.value, q.value), q.rest)
    ensures var p := ParseNameAddr(s); p.Err? ==> ParseRoute(s).Err?
  {
    hide ParseNameAddr, ParamLoop, SkipWs, PutParam;
  }

  /** When a Record-Route comes back: exactly if its host is not IPv6 and its URI headers have values. */
  lemma RouteRoundTrips(addr: NameAddr, ps: seq<Param>, rest: string)
    requires U.ValidUri(addr.uri) && U.ValidDisplay(addr.display) && ValidParams(ps)
    ensures var r := ParseRoute(NameAddrText(addr) + (ParamsText(ps) + (CRLF + rest)));
            && (r == Ok(RecordRoute(addr, ps), CRLF + rest) <==> PlainHeader(RecordRoute(addr, ps)))
            && (r.Ok? && r.value == RecordRoute(addr, ps) ==> PlainHeader(RecordRoute(addr, ps)))
  {
    TokenSeparates();
    LineStopsParams(rest);
    hide U.ValidUri, U.ValidDisplay, U.PlainHeaders, ParamsText, NameAddrText, ParseNameAddr, ParamLoop, PutParam, PutAll, Separates,
      EndsParams, SkipWs, Written, ParseRoute;
    var s := NameAddrText(addr) + (ParamsText(ps) + (CRLF + rest));
    ParseRouteIs(s);
    NamedReads(addr, ParamsText(ps) + (CRLF + rest));
    PutParamsGeneric([], ps);
    assert [] + ps == ps;
    ParamLoopReads<seq<Param>>(IsToken, PutParam, [], ps, CRLF + rest);
  }

  lemma VerbReads(m: Method, rest: string)
    requires !m.Unknown?
    ensures var s := MethodText(m) + (CRLF + rest);
            Span(IsAlphabetic, s) == |MethodText(m)| && s[..|MethodText(m)|] == MethodText(m)
            && s[|MethodText(m)|..] == CRLF + rest && !IsSpace(s[0])
  {
    VerbIsAlphabetic(m);
    hide MethodText, All, Span;
    SpanIs(IsAlphabetic, MethodText(m), CRLF + rest);
    assert (MethodText(m) + (CRLF + rest))[0] == MethodText(m)[0];
  }

  lemma VerbIsAlphabetic(m: Method)
    requires !m.Unknown?
    ensures All(IsAlphabetic, MethodText(m)) && MethodText(m) != ""
  {
  }

  lemma CSeqReads(c: CSeq, rest: string)
    requires c.number <= U32_MAX && !c.verb.Unknown?
    ensures ParseCSeq(Decimal(c.number) + (" " + (MethodText(c.verb) + (CRLF + rest)))) == Ok(c, CRLF + rest)
  {
    var more := MethodText(c.verb) + (CRLF + rest);
    VerbReads(c.verb, rest);
    MethodReads(c.verb);
    ScanDecimal(c.number, U32_MAX, " " + more);
    SkipOneBlank(more);
    hide ScanNumber, SkipWs, MethodFrom, MethodText, Decimal, IsAlphabetic, Span;
  }

  lemma UnknownIs(rest: string)
    ensures var s := MethodText(Unknown) + (CRLF + rest);
            s == "UNKNOWN" + ("-SipMethod" + (CRLF + rest)) && !IsSpace(s[0])
            && Span(IsAlphabetic, s) == 7 && ScanNewline(s[7..]).Err?
  {
    SpanIs(IsAlphabetic, "UNKNOWN", "-SipMethod" + (CRLF + rest));
  }

  lemma CSeqIs(s: string, n: nat, t: string)
    requires ScanNumber(U32_MAX, s) == Ok(n, t)
    ensures ParseCSeq(s).Ok? && ParseCSeq(s).rest == SkipWs(t)[Span(IsAlphabetic, SkipWs(t))..]
  {
    hide ScanNumber, SkipWs, MethodFrom;
  }

  /** The word for an unknown method has a hyphen, at which the parser stops. */
  lemma UnknownStops(n: nat, rest: string)
    requires n <= U32_MAX
    ensures var r := ParseCSeq(Decimal(n) + (" " + (MethodText(Unknown) + (CRLF + rest)))); r.Ok? ==> ScanNewline(r.rest).Err?
  {
    hide ScanNumber, SkipWs, Decimal, IsAlphabetic, Span, MethodText, ParseCSeq, ScanNewline;
    var more := MethodText(Unknown) + (CRLF + rest);
    UnknownIs(rest);
    ScanDecimal(n, U32_MAX, " " + more);
    SkipOneBlank(more);
    CSeqIs(Decimal(n) + (" " + more), n, " " + more);
  }

  /** What was read for a header line is not that header, or the line does not end behind it. */
  predicate Misread(h: Header, p: Parse<seq<Header>>) {
    p.Ok? ==> p.value != [] && (p.value[0] != h || ScanNewline(p.rest).Err?)
  }

  /** What a line gives: the header, up to the end of the line, exactly if it is plain. */
  lemma ValueReads(readers: Readers, h: Header, rest: string)
    requires AllForward(readers) && ValidHeader(readers, h)
    ensures var p := ParseHeader(readers, NameOf(h), ValueText(h) + (CRLF + rest));
            if PlainHeader(h) then p == Ok([h], CRLF + rest) else Misread(h, p)
  {
    LineStops(rest);
    hide AllForward, Misread, ParseHeader, ValueText;
    match h
    case ViaHeader(v) => ViaValueReads(readers, v, rest);
    case FromHeader(p) => PartyValueReads(readers, h, p, rest);
    case ToHeader(p) => PartyValueReads(readers, h, p, rest);
    case CallIdHeader(id) => CallIdValueReads(readers, id, rest);
    case CSeqHeader(c) => CSeqValueReads(readers, c, rest);
    case RecordRoute(addr, ps) => RouteValueReads(readers, addr, ps, rest);
    case ContentLength(n) => LengthValueReads(readers, n, rest);
    case RawHeader(name, data) => RawValueReads(readers, name, data, rest);
    case OtherHeader(name, values) => OtherValueReads(readers, name, values, rest);
  }

  lemma CallIdValueReads(readers: Readers, id: string, rest: string)
    requires AllForward(readers) && ValidText(id)
    ensures ParseHeader(readers, "Call-ID", ValueText(CallIdHeader(id)) + (CRLF + rest)) == Ok([CallIdHeader(id)], CRLF + rest)
  {
    hide ReadLine, CleanText, Joined, ParseParty, ParseCSeq, ScanNumber, ParseOther;
    LineStops(rest);
    ReadLineReads(id, CRLF + rest);
  }

  lemma NotModelledIsOther(readers: Readers, name: string, s: string)
    requires AllForward(readers) && !IsModelled(name)
    ensures ParseHeader(readers, name, s) == ParseOther(readers(name), name, s)
  {
    hide ReadLine, Joined, ParseParty, ParseCSeq, ScanNumber, ParseOther;
  }

  lemma RawValueReads(readers: Readers, name: string, data: string, rest: string)
    requires AllForward(readers) && !IsModelled(name) && !IsOther(name) && ValidText(data)
    ensures ParseHeader(readers, name, ValueText(RawHeader(name, data)) + (CRLF + rest)) == Ok([RawHeader(name, data)], CRLF + rest)
  {
    hide ReadLine, CleanText, Joined, IsRepeated, IsListed, IsSingle, ParseHeader, IsModelled;
    LineStops(rest);
    NotModelledIsOther(readers, name, data + (CRLF + rest));
    ReadLineReads(data, CRLF + rest);
  }

  lemma OtherValueReads(readers: Readers, name: string, values: seq<string>, rest: string)
    requires AllForward(readers) && ValidHeader(readers, OtherHeader(name, values))
    ensures ParseHeader(readers, name, ValueText(OtherHeader(name, values)) + (CRLF + rest))
         == Ok([OtherHeader(name, values)], CRLF + rest)
  {
    hide ReadLine, IsRepeated, IsListed, IsSingle, ParseHeader, IsModelled, Joined, GivenBack, CommaText;
    var read := readers(name);
    NotModelledIsOther(readers, name, CommaText(values) + (CRLF + rest));
    if IsListed(name) && !IsRepeated(name) {
      ListReads(read, [], values, CRLF + rest);
      assert [] + values == values;
    } else {
      OneReads(name, read, values[0], rest);
      OneText(values);
    }
  }

  lemma OneText(values: seq<string>)
    requires |values| == 1
    ensures CommaText(values) == values[0] && [values[0]] == values
  {
  }

  lemma OneReads(name: string, read: string -> Parse<string>, value: string, rest: string)
    requires Forward(read) && GivenBack(read, value, false)
    ensures read(value + (CRLF + rest)) == Ok(value, CRLF + rest)
    ensures Joined(ReadOther(name, read), [], value + (CRLF + rest)) == Ok([OtherHeader(name, [value])], CRLF + rest)
  {
    assert Starts(CRLF + rest, '\r');
    assert read(value + (CRLF + rest)) == Ok(value, CRLF + rest);
    assert [] + [OtherHeader(name, [value])] == [OtherHeader(name, [value])];
  }

  lemma CommaUnfolds(values: seq<string>, more: string)
    requires values != []
    ensures CommaText(values) + more
         == values[0] + if |values| == 1 then more else ", " + (CommaText(values[1..]) + more)
  {
    hide CommaText;
    CommaTextIs(values);
    if |values| > 1 {
      Regroup(values[0], ", " + CommaText(values[1..]), more);
      Regroup(", ", CommaText(values[1..]), more);
    }
  }

  lemma CommaTextIs(values: seq<string>)
    requires values != []
    ensures CommaText(values) == if |values| == 1 then values[0] else values[0] + (", " + CommaText(values[1..]))
  {
  }

  /** The comma loop on a written list, with a blank in front of it or not. */
  lemma {:induction false} ListReads(read: string -> Parse<string>, done: seq<string>, values: seq<string>, more: string)
    requires Forward(read) && values != [] && AllGivenBack(read, values, true) && Starts(more, '\r')
    ensures var s := CommaText(values) + more;
            Joined(AfterBlanks(read), done, s) == Joined(AfterBlanks(read), done, " " + s) == Ok(done + values, more)
    decreases |values|
  {
    hide CommaText, Joined, Forward, Shrinks, AfterBlanks, GivenBack;
    ForwardShrinks(read);
    CommaUnfolds(values, more);
    if |values| == 1 {
      ElementReads(read, done, values[0], more);
      assert done + [values[0]] == done + values;
    } else {
      var next := CommaText(values[1..]) + more;
      ElementReads(read, done, values[0], ", " + next);
      assert (", " + next)[1..] == " " + next;
      assert AllGivenBack(read, values[1..], true);
      ListReads(read, done + [values[0]], values[1..], more);
      assert done + [values[0]] + values[1..] == done + values;
    }
  }

  lemma ForwardShrinks(read: string -> Parse<string>)
    requires Forward(read)
    ensures Shrinks(AfterBlanks(read))
  {
  }

  lemma ElementReads(read: string -> Parse<string>, done: seq<string>, value: string, tail: string)
    requires Forward(read) && Shrinks(AfterBlanks(read))
    requires GivenBack(read, value, true) && (Starts(tail, '\r') || Starts(tail, ','))
    ensures var s := value + tail;
            var r := if Starts(tail, ',') then Joined(AfterBlanks(read), done + [value], tail[1..]) else Ok(done + [value], tail);
            Joined(AfterBlanks(read), done, s) == r && Joined(AfterBlanks(read), done, " " + s) == r
  {
    var s := value + tail;
    assert value != "" ==> s[0] == value[0];
    SkipNoWs(s);
    SkipOneBlank(s);
    assert read(s) == Ok(value, tail);
    hide SkipWs;
    assert AfterBlanks(read)(s) == Ok(value, tail) && AfterBlanks(read)(" " + s) == Ok(value, tail);
  }

  lemma ViaValueReads(readers: Readers, v: Via, rest: string)
    requires AllForward(readers) && V.ValidVia(v)
    ensures var h := ViaHeader(v);
            var p := ParseHeader(readers, "Via", ValueText(h) + (CRLF + rest));
            if PlainHeader(h) then p == Ok([h], CRLF + rest) else Misread(h, p)
  {
    hide ParseVia, ViaText, V.ValidVia, ParseParty, ParseCSeq, ScanNumber, ReadLine, ParseOther, ScanNewline, Joined;
    LineStops(rest);
    V.ViaRoundTrips(v, CRLF + rest);
    var s := ViaText(v) + (CRLF + rest);
    if PlainHeader(ViaHeader(v)) { OneViaRead(s, v, rest); } else { V.V6ViaMisread(v, CRLF + rest); }
    JoinedStarts(ReadVia, [], s);
  }

  lemma OneViaRead(s: string, v: Via, rest: string)
    requires ParseVia(s) == Ok(v, CRLF + rest)
    ensures Joined(ReadVia, [], s) == Ok([ViaHeader(v)], CRLF + rest)
  {
    hide ParseVia;
    assert [] + [ViaHeader(v)] == [ViaHeader(v)];
  }

  /** What the comma loop gives starts with what it had and the first element that it reads. */
  lemma {:induction false} JoinedStarts<T>(read: string -> Parse<T>, done: seq<T>, s: string)
    requires Shrinks(read)
    ensures var r := Joined(read, done, s);
            r.Ok? ==> read(s).Ok? && |done| < |r.value| && r.value[..|done|] == done && r.value[|done|] == read(s).value
    decreases |s|
  {
    var p := read(s);
    if p.Ok? && Starts(p.rest, ',') { JoinedStarts(read, done + [p.value], p.rest[1..]); }
  }

  lemma PartyValueReads(readers: Readers, h: Header, p: Party, rest: string)
    requires AllForward(readers) && ValidParty(p) && (h == FromHeader(p) || h == ToHeader(p))
    ensures var r := ParseHeader(readers, NameOf(h), ValueText(h) + (CRLF + rest));
            if PlainHeader(h) then r == Ok([h], CRLF + rest) else Misread(h, r)
  {
    hide ParseParty, PartyText, ValidParty, PlainParty, ParseCSeq, ScanNumber, ReadLine, ParseOther, ScanNewline, Joined;
    PartyRoundTrips(p, rest);
  }

  lemma CSeqValueReads(readers: Readers, c: CSeq, rest: string)
    requires AllForward(readers) && c.number <= U32_MAX
    ensures var h := CSeqHeader(c);
            var p := ParseHeader(readers, "CSeq", ValueText(h) + (CRLF + rest));
            if PlainHeader(h) then p == Ok([h], CRLF + rest) else Misread(h, p)
  {
    hide ParseCSeq, Decimal, MethodText, ParseParty, ScanNumber, ReadLine, ParseOther, ScanNewline, Joined;
    if c.verb.Unknown? { UnknownStops(c.number, rest); } else { CSeqReads(c, rest); }
    assert ValueText(CSeqHeader(c)) + (CRLF + rest) == Decimal(c.number) + (" " + (MethodText(c.verb) + (CRLF + rest)));
  }

  lemma RouteValueReads(readers: Readers, addr: NameAddr, ps: seq<Param>, rest: string)
    requires AllForward(readers) && U.ValidUri(addr.uri) && U.ValidDisplay(addr.display) && ValidParams(ps)
    ensures var h := RecordRoute(addr, ps);
            var p := ParseHeader(readers, "Record-Route", ValueText(h) + (CRLF + rest));
            if PlainHeader(h) then p == Ok([h], CRLF + rest) else Misread(h, p)
  {
    hide ParseRoute, NameAddrText, ParamsText, U.ValidUri, ParseParty, ParseCSeq, ScanNumber, ReadLine, ParseOther, ScanNewline,
      Joined;
    var s := NameAddrText(addr) + (ParamsText(ps) + (CRLF + rest));
    RouteRoundTrips(addr, ps, rest);
    Regroup(NameAddrText(addr), ParamsText(ps), CRLF + rest);
    if PlainHeader(RecordRoute(addr, ps)) { OneRouteRead(s, RecordRoute(addr, ps), rest); }
    JoinedStarts(ParseRoute, [], s);
  }

  lemma OneRouteRead(s: string, h: Header, rest: string)
    requires ParseRoute(s) == Ok(h, CRLF + rest)
    ensures Joined(ParseRoute, [], s) == Ok([h], CRLF + rest)
  {
    hide ParseRoute;
    assert [] + [h] == [h];
  }

  lemma LengthValueReads(readers: Readers, n: nat, rest: string)
    requires AllForward(readers) && n <= U32_MAX
    ensures ParseHeader(readers, "Content-Length", ValueText(ContentLength(n)) + (CRLF + rest))
         == Ok([ContentLength(n)], CRLF + rest)
  {
    hide Decimal, ParseParty, ParseCSeq, ScanNumber, ReadLine, ParseOther, Joined;
    ScanDecimal(n, U32_MAX, CRLF + rest);
  }

  predicate StartsValue(s: string) { s != "" && !IsSpace(s[0]) }

  /** A header is written without a blank in front of its value. */
  lemma ValueStarts(readers: Readers, h: Header, rest: string)
    requires ValidHeader(readers, h)
    ensures StartsValue(ValueText(h) + (CRLF + rest))
  {
    hide ViaText, PartyText, NameAddrText, ParamsText, MethodText, Decimal, V.ValidVia, ValidParty, U.ValidUri, CleanText, CommaText,
      IsRepeated, IsListed, IsSingle, IsModelled, AllGivenBack;
    match h
    case ViaHeader(v) => V.ViaTextStarts(v, CRLF + rest);
    case FromHeader(p) => PartyStarts(p, rest);
    case ToHeader(p) => PartyStarts(p, rest);
    case CSeqHeader(c) => NumberStarts(c.number, " " + MethodText(c.verb), rest);
    case RecordRoute(addr, ps) => AddrStarts(addr, ParamsText(ps), rest);
    case ContentLength(n) =>
      NumberStarts(n, "", rest);
      assert Decimal(n) + "" == Decimal(n);
    case CallIdHeader(id) => TextStarts(id, rest);
    case RawHeader(name, data) => TextStarts(data, rest);
    case OtherHeader(name, values) => ListStarts(readers(name), values, IsListed(name) && !IsRepeated(name), rest);
  }

  lemma ListStarts(read: string -> Parse<string>, values: seq<string>, listed: bool, rest: string)
    requires values != [] && AllGivenBack(read, values, listed)
    ensures StartsValue(CommaText(values) + (CRLF + rest))
  {
    hide CommaText;
    assert GivenBack(read, values[0], listed);
    CommaUnfolds(values, CRLF + rest);
  }

  lemma TextStarts(text: string, rest: string)
    requires ValidText(text)
    ensures StartsValue(text + (CRLF + rest))
  {
    hide CleanText;
  }

  lemma NumberStarts(n: nat, more: string, rest: string)
    ensures StartsValue(Decimal(n) + more + (CRLF + rest))
  {
    DecimalValue(n);
    assert (Decimal(n) + more + (CRLF + rest))[0] == Decimal(n)[0];
  }

  lemma AddrStarts(addr: NameAddr, more: string, rest: string)
    ensures StartsValue(NameAddrText(addr) + more + (CRLF + rest))
  {
    hide UriText;
    assert NameAddrText(addr)[0] == '"' || NameAddrText(addr)[0] == '<';
    assert (NameAddrText(addr) + more + (CRLF + rest))[0] == NameAddrText(addr)[0];
  }

  lemma NameIsToken(readers: Readers, h: Header)
    requires ValidHeader(readers, h)
    ensures All(IsToken, NameOf(h))
  {
    hide V.ValidVia, ValidParty, U.ValidUri, IsRepeated, IsListed, IsSingle, IsModelled;
  }

  lemma PartyStarts(p: Party, rest: string)
    ensures StartsValue(PartyText(p) + (CRLF + rest))
  {
    hide ParamsText, NameAddrText, UriText, Optional;
    var ps := ParamsText(Optional("tag", p.tag) + p.params);
    if p.uri.PlainUri? { UriStarts(p.uri.uri, ps, rest); } else { AddrStarts(p.uri.nameAddr, ps, rest); }
  }

  lemma UriStarts(u: Uri, more: string, rest: string)
    ensures StartsValue(UriText(u) + more + (CRLF + rest))
  {
    U.UriTextIs(u, "");
    hide UserText, U.UriTail;
    assert UriText(u) + "" == UriText(u);
    assert UriText(u)[0] == 's';
    assert (UriText(u) + more + (CRLF + rest))[0] == UriText(u)[0];
  }

  lemma NameReads(readers: Readers, h: Header, rest: string)
    requires ValidHeader(readers, h)
    ensures ParseHeaderName(HeaderLine(h) + (CRLF + rest)) == Ok(NameOf(h), ValueText(h) + (CRLF + rest))
  {
    hide ValueText, NameOf, ParseHeaderName, ValidHeader;
    ValueStarts(readers, h, rest);
    NameIsToken(readers, h);
    assert HeaderLine(h) + (CRLF + rest) == NameOf(h) + (": " + (ValueText(h) + (CRLF + rest)));
    V.NameLineReads(NameOf(h), ValueText(h) + (CRLF + rest));
  }

  function HeaderLines(hs: seq<Header>): (ls: seq<string>)
    ensures |ls| == |hs| && forall i :: 0 <= i < |hs| ==> ls[i] == HeaderLine(hs[i])
  {
    seq(|hs|, i requires 0 <= i < |hs| => HeaderLine(hs[i]))
  }

  ghost predicate AllValid(readers: Readers, hs: seq<Header>) { forall i :: 0 <= i < |hs| ==> ValidHeader(readers, hs[i]) }

  predicate AllPlain(hs: seq<Header>) { forall i :: 0 <= i < |hs| ==> PlainHeader(hs[i]) }

  lemma LoopStep(readers: Readers, done: seq<Header>, h: Header, rest: string)
    requires AllForward(readers) && ValidHeader(readers, h)
    ensures var r := HeaderLoop(readers, done, HeaderLine(h) + (CRLF + rest));
            if PlainHeader(h) then
              r == if AtLineEnd(rest) then Ok(done + [h], rest) else HeaderLoop(readers, done + [h], rest)
            else
              r.Ok? ==> |done| < |r.value| && r.value[|done|] != h
  {
    hide ParseHeaderName, ParseHeader, ScanNewline, ValidHeader, HeaderLine, ValueText, NameOf, AtLineEnd, PlainHeader, AllForward,
      Misread, HeaderLoop;
    NameReads(readers, h, rest);
    ValueReads(readers, h, rest);
    NewlineScanned(rest);
    LoopIs(readers, done, HeaderLine(h) + (CRLF + rest), NameOf(h), ValueText(h) + (CRLF + rest));
    var p := ParseHeader(readers, NameOf(h), ValueText(h) + (CRLF + rest));
    if !PlainHeader(h) { MisreadStays(readers, done, h, p); }
  }

  /** One turn of the loop, with what the line gives. */
  function AfterLine(readers: Readers, done: seq<Header>, p: Parse<seq<Header>>): Parse<seq<Header>>
    requires AllForward(readers)
  {
    var (more, t) :- p;
    var (_, t) :- ScanNewline(t);
    if AtLineEnd(t) then Ok(done + more, t) else HeaderLoop(readers, done + more, t)
  }

  lemma LoopIs(readers: Readers, done: seq<Header>, s: string, name: string, t: string)
    requires AllForward(readers) && ParseHeaderName(s) == Ok(name, t)
    ensures HeaderLoop(readers, done, s) == AfterLine(readers, done, ParseHeader(readers, name, t))
  {
    hide ParseHeaderName, ParseHeader, ScanNewline, AtLineEnd;
  }

  lemma MisreadStays(readers: Readers, done: seq<Header>, h: Header, p: Parse<seq<Header>>)
    requires AllForward(readers) && Misread(h, p)
    ensures var r := AfterLine(readers, done, p); r.Ok? ==> |done| < |r.value| && r.value[|done|] != h
  {
    hide ScanNewline, AtLineEnd;
    if p.Ok? && ScanNewline(p.rest).Ok? {
      assert (done + p.value)[|done|] == p.value[0];
      LoopKeeps(readers, done + p.value, ScanNewline(p.rest).rest);
    }
  }

  /** The loop only adds headers. */
  lemma {:induction false} LoopKeeps(readers: Readers, hs: seq<Header>, s: string)
    requires AllForward(readers)
    ensures var r := HeaderLoop(readers, hs, s); r.Ok? ==> hs <= r.value
    decreases |s|
  {
    hide ParseHeaderName, ParseHeader, ScanNewline, AtLineEnd;
    var name := ParseHeaderName(s);
    if name.Ok? {
      var p := ParseHeader(readers, name.value, name.rest);
      if p.Ok? && ScanNewline(p.rest).Ok? { LoopKeeps(readers, hs + p.value, ScanNewline(p.rest).rest); }
    }
  }

  lemma LinesUnfold(lines: seq<string>, rest: string)
    requires lines != []
    ensures Lines(lines) + rest == lines[0] + (CRLF + (Lines(lines[1..]) + rest))
  {
    assert Lines(lines) == lines[0] + CRLF + Lines(lines[1..]);
    Regroup(lines[0] + CRLF, Lines(lines[1..]), rest);
    Regroup(lines[0], CRLF, Lines(lines[1..]) + rest);
  }

  lemma HeadAndTail(done: seq<Header>, hs: seq<Header>, rest: string)
    requires hs != []
    ensures var more := Lines(HeaderLines(hs[1..])) + rest;
            Lines(HeaderLines(hs)) + rest == HeaderLine(hs[0]) + (CRLF + more) && (|hs| == 1 ==> more == rest)
    ensures done + hs == done + [hs[0]] + hs[1..] && (done + hs)[|done|] == hs[0] && (|hs| == 1 ==> done + hs == done + [hs[0]])
    ensures AllPlain(hs) <==> PlainHeader(hs[0]) && AllPlain(hs[1..])
  {
    hide HeaderLine, PlainHeader, Lines;
    LinesUnfold(HeaderLines(hs), rest);
    assert HeaderLines(hs)[1..] == HeaderLines(hs[1..]);
    assert hs == [hs[0]] + hs[1..];
    NoLines(rest);
    if |hs| == 1 { assert hs[1..] == [] && HeaderLines([]) == []; }
  }

  /**
   * The header section of a message is read as it was written exactly if every header is plain; and if one is not, then no
   * other way of reading it gives the same headers. This holds whatever the readers of the other kinds of header do.
   */
  lemma {:induction false} HeadersRoundTrip(readers: Readers, done: seq<Header>, hs: seq<Header>, rest: string)
    requires AllForward(readers) && hs != [] && AllValid(readers, hs) && AtLineEnd(rest)
    ensures var r := HeaderLoop(readers, done, Lines(HeaderLines(hs)) + rest);
            && (r == Ok(done + hs, rest) <==> AllPlain(hs))
            && (r.Ok? && r.value == done + hs ==> AllPlain(hs))
    decreases |hs|
  {
    hide HeaderLoop, ValidHeader, PlainHeader, HeaderLine, Lines, AtLineEnd, AllForward, AllPlain, HeaderLines;
    assert ValidHeader(readers, hs[0]);
    HeadAndTail(done, hs, rest);
    LoopStep(readers, done, hs[0], Lines(HeaderLines(hs[1..])) + rest);
    if |hs| == 1 {
      NothingIsPlain(hs[1..]);
    } else {
      LineBegins(readers, hs[1..], rest);
      HeadersRoundTrip(readers, done + [hs[0]], hs[1..], rest);
    }
  }

  lemma NothingIsPlain(hs: seq<Header>)
    requires hs == []
    ensures AllPlain(hs)
  {
  }

  lemma NoLines(rest: string)
    ensures Lines([]) + rest == rest
  {
  }

  lemma LineBegins(readers: Readers, hs: seq<Header>, rest: string)
    requires hs != [] && ValidHeader(readers, hs[0])
    ensures !AtLineEnd(Lines(HeaderLines(hs)) + rest)
  {
    NameIsToken(readers, hs[0]);
    assert !IsToken('\r') && !IsToken('\n');
    hide ValidHeader, NameOf, ValueText, IsToken;
    LinesUnfold(HeaderLines(hs), rest);
    var line := HeaderLine(hs[0]);
    assert line[0] == (NameOf(hs[0]) + ":")[0];
  }
}
