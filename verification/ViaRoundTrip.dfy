/** Reading back a written Via header: when the branch, and everything else in it, survives the wire. */
module ViaRoundTrip {
  import opened Wrappers
  import opened Text
  import opened Parsing
  import opened SipValues
  import opened SipGrammar
  import opened SipReading

  predicate Reserved(name: string) {
    name == "branch" || name == "ttl" || name == "maddr" || name == "received" || name == "rport"
  }

  predicate ValidComment(c: Option<string>) { c.Some? ==> ')' !in c.value && ValidUtf8(c.value) }

  /** Every part is written in the characters of its place; no generic parameter has a special name. */
  ghost predicate ValidVia(v: Via) {
    && ValidHost(IsHost, v.sentBy.host) && HostText(v.sentBy.host) != "" && ValidPort(v.sentBy.port)
    && (v.ttl.Some? ==> v.ttl.value <= 255)
    && (v.maddr.Some? ==> ValidHost(IsViaParam, v.maddr.value))
    && (v.received.Some? ==> ValidIp(v.received.value))
    && (v.branch.Some? ==> All(IsViaParam, v.branch.value))
    && (v.rport.Some? ==> ValidPort(v.rport.value))
    && (forall p :: p in v.params ==> Written(IsViaParam, p) && !Reserved(p.name))
    && ValidComment(v.comment)
  }

  /** What may stand behind a Via: nothing, the end of the line, or the comma before the next one. */
  predicate StopsVia(rest: string) { rest == "" || IsNewline(rest[0]) || rest[0] == ',' }

  lemma {:induction false} PutGeneric(v: Via, ps: seq<Param>)
    requires forall p :: p in ps ==> !Reserved(p.name)
    ensures PutAll(SetViaParam, v, ps) == Success(v.(params := v.params + ps))
    decreases |ps|
  {
    if ps == [] {
      assert v.params + ps == v.params;
    } else {
      var w := v.(params := v.params + [ps[0]]);
      assert ps[0] in ps;
      assert SetViaParam(v, ps[0]) == Success(w);
      PutGeneric(w, ps[1..]);
      assert w.params + ps[1..] == v.params + ps;
    }
  }

  function RportParams(v: Via): seq<Param> {
    if v.rport.Some? then [Param("rport", RportText(v.rport.value))] else []
  }

  lemma PutRport(v: Via, w: Via, tail: seq<Param>)
    requires w.rport.Some? ==> ValidPort(w.rport.value)
    ensures PutAll(SetViaParam, v, RportParams(w) + tail)
         == PutAll(SetViaParam, if w.rport.Some? then v.(rport := w.rport) else v, tail)
  {
    if w.rport.Some? {
      assert (RportParams(w) + tail)[1..] == tail;
      if w.rport.value.Some? { ParseDecimal(w.rport.value.value, 0xFFFF); }
    } else {
      assert RportParams(w) + tail == tail;
    }
  }

  /** The parameters of a Via, put one after the other, make up the Via again. */
  lemma PutViaList(v: Via)
    requires ValidVia(v)
    ensures PutAll(SetViaParam, BareVia(v.transport, v.sentBy), ViaParamList(v)) == Success(v.(comment := None))
  {
    hide PutAll, All, HostFrom, ParseIp, ParseUnsigned, Decimal, IpText, Optional, RportParams;
    var received, ttl := MapText(IpText, v.received), MapText(Decimal, v.ttl);
    var maddr := MapText(HostText, v.maddr);
    var l4 := Optional("branch", v.branch) + v.params;
    var l3 := Optional("maddr", maddr) + l4;
    var l2 := Optional("ttl", ttl) + l3;
    var l1 := Optional("received", received) + l2;
    var v0 := BareVia(v.transport, v.sentBy);
    ListIs(v);
    PutRport(v0, v, l1);
    var v1 := v0.(rport := v.rport);
    PutOptional(SetViaParam, v1, "received", received, l2);
    if v.received.Some? { IpReads(v.received.value); }
    var v2 := v1.(received := v.received);
    PutOptional(SetViaParam, v2, "ttl", ttl, l3);
    if v.ttl.Some? { ParseDecimal(v.ttl.value, 255); }
    var v3 := v2.(ttl := v.ttl);
    PutOptional(SetViaParam, v3, "maddr", maddr, l4);
    if v.maddr.Some? { HostReads(IsViaParam, v.maddr.value); }
    var v4 := v3.(maddr := v.maddr);
    PutOptional(SetViaParam, v4, "branch", v.branch, v.params);
    PutGeneric(v4.(branch := v.branch), v.params);
    assert [] + v.params == v.params;
  }

  lemma ListIs(v: Via)
    ensures ViaParamList(v)
         == RportParams(v) + (Optional("received", MapText(IpText, v.received)) + (Optional("ttl", MapText(Decimal, v.ttl))
          + (Optional("maddr", MapText(HostText, v.maddr)) + (Optional("branch", v.branch) + v.params))))
  {
  }

  lemma RportWritten(v: Via)
    ensures forall p :: p in RportParams(v) ==> Written(IsViaParam, p)
  {
    if v.rport.Some? && v.rport.value.Some? { DecimalChars(v.rport.value.value); }
  }

  lemma ViaListWritten(v: Via)
    requires ValidVia(v)
    ensures forall p :: p in ViaParamList(v) ==> Written(IsViaParam, p)
  {
    ListIs(v);
    RportWritten(v);
    assert All(IsViaParam, "received") && All(IsViaParam, "ttl") && All(IsViaParam, "maddr") && All(IsViaParam, "branch");
    hide Written, All, Decimal, HostText, IpText, Optional, ValidHost, ValidIp, RportParams, ViaParamList, IsViaParam;
    var l4 := Optional("branch", v.branch) + v.params;
    OptionalWritten(IsViaParam, "branch", v.branch, v.params);
    if v.maddr.Some? { HostChars(IsViaParam, v.maddr.value); }
    OptionalWritten(IsViaParam, "maddr", MapText(HostText, v.maddr), l4);
    var l3 := Optional("maddr", MapText(HostText, v.maddr)) + l4;
    if v.ttl.Some? { DecimalChars(v.ttl.value); }
    OptionalWritten(IsViaParam, "ttl", MapText(Decimal, v.ttl), l3);
    var l2 := Optional("ttl", MapText(Decimal, v.ttl)) + l3;
    if v.received.Some? { IpChars(v.received.value); }
    OptionalWritten(IsViaParam, "received", MapText(IpText, v.received), l2);
  }

  function CommentText(c: Option<string>): string { if c.Some? then " (" + c.value + ")" else "" }

  /** A comment, or what stops the header, also stops the parameters. */
  lemma CommentReads(c: Option<string>, rest: string)
    requires ValidComment(c) && StopsVia(rest)
    ensures var more := CommentText(c) + rest;
            EndsParams(IsViaParam, more) && EndsHost(more) && ParseComment(SkipWs(more)) == Ok(c, rest)
  {
    if c.Some? {
      CommentTextIs(c.value, rest);
      SomeCommentReads(c.value, rest);
      hide *;
      CommentStops("(" + c.value + ")" + rest);
    } else {
      NothingStops(rest);
      hide IsViaParam, IsHost, EndsParams, EndsHost, SkipWs, ValidComment;
      assert CommentText(c) + rest == rest;
    }
  }

  lemma CommentTextIs(c: string, rest: string)
    ensures CommentText(Some(c)) + rest == " " + ("(" + c + ")" + rest) && Starts("(" + c + ")" + rest, '(')
  {
  }

  lemma CommentStops(s: string)
    requires Starts(s, '(')
    ensures EndsParams(IsViaParam, " " + s) && EndsHost(" " + s) && SkipWs(" " + s) == s
  {
    SkipOneBlank(s);
  }

  lemma NothingStops(rest: string)
    requires StopsVia(rest)
    ensures EndsParams(IsViaParam, rest) && EndsHost(rest) && SkipWs(rest) == rest
  {
    SkipNoWs(rest);
  }

  lemma SomeCommentReads(c: string, rest: string)
    requires ')' !in c && ValidUtf8(c)
    ensures ParseComment("(" + c + ")" + rest) == Ok(Some(c), rest)
  {
    var s := "(" + c + ")" + rest;
    assert s[1..] == c + (")" + rest);
    SpanIs(NotParen, c, ")" + rest);
    assert (")" + rest)[1..] == rest;
  }

  lemma ViaTextIs(v: Via, rest: string)
    ensures ViaText(v) + rest
         == "SIP/2.0" + ("/" + (UpperCase(v.transport) + (" " + (HostPortText(v.sentBy)
          + (ParamsText(ViaParamList(v)) + (CommentText(v.comment) + rest))))))
  {
    hide UpperCase, HostPortText, ParamsText, ViaParamList;
  }

  lemma TransportTokenReads(t: Transport, more: string)
    requires more == "" || !IsToken(more[0])
    ensures ParseViaTransport(UpperCase(t) + more) == Ok(t, more)
  {
    TransportReads(t);
    TransportChars(t);
    hide UpperCase, TransportFrom, IsToken;
    SpanIs(IsToken, UpperCase(t), more);
  }

  /** The version and the transport of any written Via are read, and then the host. */
  lemma FrontReads(v: Via, tail: string)
    requires tail != "" && !IsSpace(tail[0])
    ensures var p := ParseHostPort(tail);
            ParseVia("SIP/2.0" + ("/" + (UpperCase(v.transport) + (" " + tail))))
            == if p.Err? then Err(p.kind, p.rest) else ParseTail(BareVia(v.transport, p.value), p.rest)
  {
    hide UpperCase, ParseHostPort, ParamLoop, ParseComment, ParseViaTransport, SkipWs, MustScan;
    var more := UpperCase(v.transport) + (" " + tail);
    MustScanAll("SIP/2.0", "/" + more);
    assert ("/" + more)[1..] == more;
    TransportTokenReads(v.transport, " " + tail);
    SkipOneBlank(tail);
  }

  /** What the parser reads from the parameters on. */
  function ParseTail(bare: Via, s: string): Parse<Via> {
    var (v, t) :- ParamLoop(IsViaParam, SetViaParam, bare, SkipWs(s));
    var (comment, t) :- ParseComment(t);
    Ok(v.(comment := comment), t)
  }

  lemma SeparatesVia()
    ensures Separates(IsViaParam)
  {
  }

  lemma TailReads(v: Via, rest: string)
    requires ValidVia(v) && StopsVia(rest)
    ensures ParseTail(BareVia(v.transport, v.sentBy), ParamsText(ViaParamList(v)) + (CommentText(v.comment) + rest))
         == Ok(v, rest)
  {
    CommentReads(v.comment, rest);
    SeparatesVia();
    hide ValidVia, Written, Separates, EndsParams, SkipWs, ParamsText, ViaParamList, BareVia, PutAll, ParamLoop, ParseComment,
      CommentText, StopsVia, EndsHost, ValidComment;
    PutViaList(v);
    ViaListWritten(v);
    ParamLoopReads(IsViaParam, SetViaParam, BareVia(v.transport, v.sentBy), ViaParamList(v), CommentText(v.comment) + rest);
  }

  lemma HostTextStarts(hp: HostPort, more: string)
    requires ValidHost(IsHost, hp.host) && HostText(hp.host) != ""
    ensures HostPortText(hp) + more != "" && !IsSpace((HostPortText(hp) + more)[0])
  {
    if hp.host.IpAddr? { IpChars(hp.host.ip); }
    hide IpText, Decimal;
    assert (HostPortText(hp) + more)[0] == HostText(hp.host)[0];
  }

  lemma ViaReads(v: Via, rest: string)
    requires ValidVia(v) && !IsV6Host(v.sentBy.host) && StopsVia(rest)
    ensures ParseVia(ViaText(v) + rest) == Ok(v, rest)
  {
    var more := ParamsText(ViaParamList(v)) + (CommentText(v.comment) + rest);
    CommentReads(v.comment, rest);
    ParamsAfterHost(ViaParamList(v), CommentText(v.comment) + rest);
    hide ParseVia, ParseTail, ParseHostPort, HostPortText, ViaText, UpperCase, ParamsText, ViaParamList, CommentText, EndsHost,
      EndsParams, ParseComment, SkipWs, StopsVia;
    ViaTextIs(v, rest);
    HostTextStarts(v.sentBy, more);
    FrontReads(v, HostPortText(v.sentBy) + more);
    HostPortReads(v.sentBy, more);
    TailReads(v, rest);
  }

  lemma {:induction false} ParamsKeepHost(v: Via, s: string)
    ensures var r := ParamLoop(IsViaParam, SetViaParam, v, s); r.Ok? ==> r.value.sentBy == v.sentBy
    decreases |s|
  {
    hide ParseParam, SetViaParam, SkipWs;
    if Starts(s, ';') {
      var p := ParseParam(IsViaParam, s[1..]);
      if p.Ok? && SetViaParam(v, p.value).Success? {
        SetKeepsHost(v, p.value);
        ParamsKeepHost(SetViaParam(v, p.value).value, SkipWs(p.rest));
      }
    }
  }

  lemma SetKeepsHost(v: Via, p: Param)
    ensures var r := SetViaParam(v, p); r.Success? ==> r.value.sentBy == v.sentBy
  {
    hide HostFrom, ParseUnsigned, ParseIp;
  }

  lemma TailKeepsHost(v: Via, s: string)
    ensures var r := ParseTail(v, s); r.Ok? ==> r.value.sentBy == v.sentBy
  {
    hide ParamLoop, ParseComment, SkipWs;
    ParamsKeepHost(v, SkipWs(s));
  }

  /** An IPv6 sender does not come back, because it is written without brackets. */
  lemma V6ViaMisread(v: Via, rest: string)
    requires ValidVia(v) && IsV6Host(v.sentBy.host)
    ensures var r := ParseVia(ViaText(v) + rest); r.Ok? ==> r.value != v
  {
    var tail := HostPortText(v.sentBy) + (ParamsText(ViaParamList(v)) + (CommentText(v.comment) + rest));
    var more := V6TextStarts(v.sentBy, ParamsText(ViaParamList(v)) + (CommentText(v.comment) + rest));
    hide ParseVia, ParseTail, ParseHostPort, HostPortText, ViaText, UpperCase, ParamsText, ViaParamList, CommentText;
    V6HostMisread(v.sentBy.host.ip, more);
    ViaTextIs(v, rest);
    HostTextStarts(v.sentBy, ParamsText(ViaParamList(v)) + (CommentText(v.comment) + rest));
    FrontReads(v, tail);
    var p := ParseHostPort(tail);
    if p.Ok? { TailKeepsHost(BareVia(v.transport, p.value), p.rest); }
  }

  /**
   * A written Via reads back as itself, with all three kinds of rport, its branch, its parameters and its comment, exactly if
   * the address it was sent by is not IPv6.
   */
  lemma ViaRoundTrips(v: Via, rest: string)
    requires ValidVia(v) && StopsVia(rest)
    ensures ParseVia(ViaText(v) + rest) == Ok(v, rest) <==> !IsV6Host(v.sentBy.host)
  {
    hide ParseVia, ViaText, ValidVia, StopsVia;
    if IsV6Host(v.sentBy.host) {
      V6ViaMisread(v, rest);
    } else {
      ViaReads(v, rest);
    }
  }

  /** The header line: its name is read, and its value is next. */
  lemma ViaLineReads(v: Via, rest: string)
    ensures ParseHeaderName("Via: " + (ViaText(v) + rest)) == Ok("Via", ViaText(v) + rest)
  {
    ViaTextStarts(v, rest);
    ColonIs(ViaText(v) + rest);
    hide ViaText, ParseHeaderName;
    NameLineReads("Via", ViaText(v) + rest);
  }

  lemma ViaTextStarts(v: Via, rest: string)
    ensures var s := ViaText(v) + rest; s != "" && s[0] == 'S'
  {
    hide UpperCase, HostPortText, ParamsText, ViaParamList;
  }

  lemma ColonIs(more: string)
    ensures "Via: " + more == "Via" + (": " + more) && All(IsToken, "Via")
  {
  }

  lemma NameLineReads(name: string, more: string)
    requires All(IsToken, name) && more != "" && !IsSpace(more[0])
    ensures ParseHeaderName(name + (": " + more)) == Ok(name, more)
  {
    SpanIs(IsToken, name, ": " + more);
    SkipNoWs(": " + more);
    assert (": " + more)[1..] == " " + more;
    SkipOneBlank(more);
    hide SkipWs, Span, IsToken, All;
  }
}
