/** Reading back a written request line: when it gives the same method and the same URI. */
module RequestRoundTrip {
  import opened Wrappers
  import opened Text
  import opened Writing
  import opened Parsing
  import opened Messages
  import opened SipValues
  import opened SipGrammar
  import opened SipReading
  import opened Headers
  import opened MessageGrammar
  import U = UriRoundTrip

  const VERSION := "SIP/2.0"

  function RequestLineText(verb: Method, u: Uri): string { MethodText(verb) + " " + UriText(u) + " SIP/2.0" }

  /** The caller's check: also, no parameter without name and value ends the URI, for it would take the version for its name. */
  predicate PlainInLine(u: Uri) {
    !IsV6Host(u.hostPort.host) && U.PlainHeaders(u) && (u.headers.None? ==> !EndsNameless(u.params))
  }

  lemma NamedEnds(name: string, value: Option<string>, later: seq<Param>)
    requires name != ""
    ensures EndsNameless(Optional(name, value) + later) <==> EndsNameless(later)
  {
    var ps := Optional(name, value) + later;
    if later == [] { assert ps == Optional(name, value); } else { assert ps[|ps| - 1] == later[|later| - 1]; }
  }

  lemma LrEnds(lr: bool, later: seq<Param>)
    ensures EndsNameless((if lr then [Param("lr", None)] else []) + later) <==> EndsNameless(later)
  {
    var ps := (if lr then [Param("lr", None)] else []) + later;
    if later != [] { assert ps[|ps| - 1] == later[|later| - 1]; }
  }

  lemma ListEnds(u: Uri)
    ensures EndsNameless(UriParamList(u)) <==> EndsNameless(u.params)
  {
    hide MethodText, LowerCase, HostText, Decimal, MapText, Optional, EndsNameless;
    var l5 := (if u.lrParam then [Param("lr", None)] else []) + u.params;
    var l4 := Optional("ttl", MapText(Decimal, u.ttlParam)) + l5;
    var l3 := Optional("transport", MapText(LowerCase, u.transportParam)) + l4;
    var l2 := Optional("maddr", MapText(HostText, u.maddrParam)) + l3;
    var l1 := Optional("method", MapText(MethodText, u.methodParam)) + l2;
    LrEnds(u.lrParam, u.params);
    NamedEnds("ttl", MapText(Decimal, u.ttlParam), l5);
    NamedEnds("transport", MapText(LowerCase, u.transportParam), l4);
    NamedEnds("maddr", MapText(HostText, u.maddrParam), l3);
    NamedEnds("method", MapText(MethodText, u.methodParam), l2);
    NamedEnds("user", u.userParam, l1);
    assert UriParamList(u) == Optional("user", u.userParam) + l1;
  }

  lemma BlankEnds(next: string)
    ensures Separates(IsParam) && Ends(IsParam, " " + next) && EndsHost(" " + next) && U.EndsUri(" " + next)
  {
  }

  /** Parameters behind which there is a blank and no header part. */
  lemma ParamsReadInLine(u: Uri, next: string)
    requires U.ValidUri(u) && u.headers.None? && !EndsNameless(u.params)
    requires next != "" && !IsSpace(next[0]) && next[0] != ';' && next[0] != '?'
    ensures U.ParseTail(BareUri(u.scheme, u.user, u.hostPort), ParamsText(UriParamList(u)) + (" " + next)) == Ok(u, next)
  {
    var ps, bare := UriParamList(u), BareUri(u.scheme, u.user, u.hostPort);
    hide U.ValidUri, Written, UriParamList, Separates, Ends, SkipWs, ParamsText, BareUri, PutAll, UriHeaders, U.ParseTail;
    BlankEnds(next);
    SkipOneBlank(next);
    ListEnds(u);
    U.SetUriList(u);
    U.UriListWritten(u);
    ParamLoopTakes(IsParam, SetUriParam, bare, ps, " " + next);
    ParamLoopUnfolds(IsParam, SetUriParam, u, next);
    U.TailIs(bare, ParamsText(ps) + (" " + next), u, next);
  }

  lemma MarkEnds(s: string)
    requires Starts(s, '?') || Starts(s, ';')
    ensures SkipWs(s) == s && Separates(IsParam) && Ends(IsParam, s) && (Starts(s, '?') ==> EndsParams(IsParam, s))
  {
    hide SkipWs;
    SkipNoWs(s);
  }

  lemma HeadersStartWithMark(u: Uri, rest: string)
    requires u.headers.Some?
    ensures var more := U.HeadersPart(u) + rest; Starts(more, '?') && more[1..] == HeadersText(u.headers.value) + rest
  {
    hide HeadersText;
  }

  /** Parameters and headers behind which there is a blank. */
  lemma HeadersReadInLine(u: Uri, rest: string)
    requires U.ValidUri(u) && u.headers.Some? && u.headers.value != [] && U.EndsUri(rest)
    ensures U.ParseTail(BareUri(u.scheme, u.user, u.hostPort), ParamsText(UriParamList(u)) + (U.HeadersPart(u) + rest))
         == Ok(U.ReadBack(u), rest)
  {
    var ps, more, bare := UriParamList(u), U.HeadersPart(u) + rest, BareUri(u.scheme, u.user, u.hostPort);
    HeadersStartWithMark(u, rest);
    MarkEnds(more);
    hide U.ValidUri, Written, UriParamList, U.HeadersPart, Separates, EndsParams, SkipWs, ParamsText, BareUri, PutAll, ParamLoop,
      UriHeaders, HeadersText, U.HeadersBack, U.ParseTail, U.EndsUri;
    U.SetUriList(u);
    U.UriListWritten(u);
    U.HeadersPartReads(u, rest);
    ParamLoopReads(IsParam, SetUriParam, bare, ps, more);
    U.TailIs(bare, ParamsText(ps) + more, u.(headers := None), more);
  }

  /** What follows the host of a written URI that is not IPv6. */
  lemma UriIsTail(u: Uri, rest: string)
    requires U.ValidUri(u) && !IsV6Host(u.hostPort.host) && U.EndsUri(rest) && EndsHost(U.HeadersPart(u) + rest)
    ensures ParseUri(true, UriText(u) + rest)
         == U.ParseTail(BareUri(u.scheme, u.user, u.hostPort), ParamsText(UriParamList(u)) + (U.HeadersPart(u) + rest))
  {
    hide ParseUri, UriText, U.UriTail, U.ParseTail, ParseHostPort, HostPortText, ParamsText, UriParamList, U.HeadersPart, U.EndsUri,
      EndsHost, U.ValidUser, ValidHost, HostText, Written, All;
    U.FrontReads(u, rest);
    U.UriTextIs(u, rest);
    ParamsAfterHost(UriParamList(u), U.HeadersPart(u) + rest);
    HostPortReads(u.hostPort, ParamsText(UriParamList(u)) + (U.HeadersPart(u) + rest));
  }

  lemma PartEndsHost(u: Uri, next: string)
    ensures EndsHost(U.HeadersPart(u) + (" " + next))
    ensures u.headers.None? ==> U.HeadersPart(u) + (" " + next) == " " + next
  {
    hide HeadersText;
  }

  /** A URI in front of a blank is read, and the blank with it or not. */
  lemma UriReadsInLine(u: Uri, next: string)
    requires U.ValidUri(u) && !IsV6Host(u.hostPort.host)
    requires if u.headers.Some? then u.headers.value != [] else !EndsNameless(u.params)
    requires next != "" && !IsSpace(next[0]) && next[0] != ';' && next[0] != '?'
    ensures var r := ParseUri(true, UriText(u) + (" " + next)); r.Ok? && r.value == U.ReadBack(u) && SkipWs(r.rest) == next
  {
    hide ParseUri, UriText, U.ParseTail, ParamsText, UriParamList, U.HeadersPart, U.EndsUri, U.ValidUri, SkipWs, EndsHost, Ends,
      Separates, U.HeadersBack, BareUri;
    BlankEnds(next);
    PartEndsHost(u, next);
    UriIsTail(u, " " + next);
    SkipOneBlank(next);
    SkipNoWs(next);
    if u.headers.Some? { HeadersReadInLine(u, " " + next); } else { ParamsReadInLine(u, next); }
  }

  /** An empty header list never comes back. */
  lemma {:induction false} SomeHeaderRead(hs: seq<Param>, s: string)
    ensures var r := UriHeaders(hs, s); r.Ok? ==> r.value != []
    decreases |s|
  {
    hide ParseParam;
    var p := ParseParam(IsHdrUri, s);
    if p.Ok? && Starts(p.rest, '&') { SomeHeaderRead(hs + [p.value], p.rest[1..]); }
  }

  lemma NoEmptyHeaders(s: string)
    ensures var r := ParseUri(true, s); r.Ok? ==> r.value.headers != Some([])
  {
    hide ParseScheme, ParseUserInfo, ParseHostPort, UriHeaders, ParamLoop;
    forall t: string ensures UriHeaders([], t).Ok? ==> UriHeaders([], t).value != [] { SomeHeaderRead([], t); }
    forall u: Uri, t: string | u.headers.None?
      ensures var r := ParamLoop(IsParam, SetUriParam, u, t); r.Ok? ==> r.value.headers.None?
    {
      ParamsKeepHeaders(u, t);
    }
  }

  lemma {:induction false} ParamsKeepHeaders(u: Uri, s: string)
    ensures var r := ParamLoop(IsParam, SetUriParam, u, s); r.Ok? ==> r.value.headers == u.headers
    decreases |s|
  {
    hide ParseParam, SetUriParam, SkipWs;
    if Starts(s, ';') {
      var p := ParseParam(IsParam, s[1..]);
      if p.Ok? && SetUriParam(u, p.value).Success? {
        SetKeepsHeaders(u, p.value);
        ParamsKeepHeaders(SetUriParam(u, p.value).value, SkipWs(p.rest));
      }
    }
  }

  lemma SetKeepsHeaders(u: Uri, p: Param)
    ensures var r := SetUriParam(u, p); r.Success? ==> r.value.headers == u.headers
  {
    hide MethodFrom, TransportFrom, HostFrom, ParseUnsigned;
  }

  lemma {:induction false} ParamsTextConcat(a: seq<Param>, b: seq<Param>)
    ensures ParamsText(a + b) == ParamsText(a) + ParamsText(b)
  {
    if a == [] {
      assert a + b == b;
    } else {
      assert (a + b)[1..] == a[1..] + b;
      ParamsTextConcat(a[1..], b);
    }
  }

  lemma MoveOut<T>(a: seq<T>, b: seq<T>, c: seq<T>, d: seq<T>, e: seq<T>, f: seq<T>, ps: seq<T>, x: T)
    ensures a + (b + (c + (d + (e + (f + (ps + [x])))))) == (a + (b + (c + (d + (e + (f + ps)))))) + [x]
  {
  }

  lemma ListGrows(v: Uri, x: Param)
    ensures UriParamList(v.(params := v.params + [x])) == UriParamList(v) + [x]
  {
    hide MethodText, LowerCase, HostText, Decimal, MapText, Optional;
    MoveOut(Optional("user", v.userParam), Optional("method", MapText(MethodText, v.methodParam)),
      Optional("maddr", MapText(HostText, v.maddrParam)), Optional("transport", MapText(LowerCase, v.transportParam)),
      Optional("ttl", MapText(Decimal, v.ttlParam)), if v.lrParam then [Param("lr", None)] else [], v.params, x);
  }

  lemma NamelessText()
    ensures ParamsText([Param("", None)]) == ";"
  {
    assert ParamText(Param("", None)) == ";";
  }

  /** The list of `u`, of which the last parameter is split off. */
  lemma ListSplits(u: Uri, v: Uri)
    requires EndsNameless(u.params) && v == u.(params := u.params[..|u.params| - 1])
    ensures UriParamList(u) == UriParamList(v) + [Param("", None)]
    ensures ParamsText(UriParamList(u)) == ParamsText(UriParamList(v)) + ";"
  {
    hide UriParamList, ParamsText;
    assert u.params == v.params + [Param("", None)];
    assert u == v.(params := v.params + [Param("", None)]);
    ListGrows(v, Param("", None));
    ParamsTextConcat(UriParamList(v), [Param("", None)]);
    NamelessText();
  }

  lemma VersionAsName(more: string)
    ensures ParseParam(IsParam, " " + (VERSION + (CRLF + more))) == Ok(Param(VERSION, None), CRLF + more)
  {
    SkipOneBlank(VERSION + (CRLF + more));
    SpanIs(IsParam, VERSION, CRLF + more);
  }

  /** A parameter without name and value takes the version for its name. */
  lemma NamelessMisread(u: Uri, more: string)
    requires U.ValidUri(u) && !IsV6Host(u.hostPort.host) && u.headers.None? && EndsNameless(u.params)
    ensures var r := ParseUri(true, UriText(u) + (" " + (VERSION + (CRLF + more)))); r.Ok? ==> r.value != u
  {
    hide ParseUri, UriText, U.ParseTail, ParamsText, UriParamList, U.HeadersPart, U.EndsUri, U.ValidUri, SkipWs, EndsHost, Ends,
      Separates, BareUri;
    var next := VERSION + (CRLF + more);
    BlankEnds(next);
    PartEndsHost(u, next);
    UriIsTail(u, " " + next);
    NamelessTail(u, more);
  }

  lemma ShorterIsValid(u: Uri, v: Uri)
    requires U.ValidUri(u) && EndsNameless(u.params) && v == u.(params := u.params[..|u.params| - 1])
    ensures U.ValidUri(v)
  {
    hide All, Written, U.ValidUser, ValidHost, ValidPort, U.Reserved;
  }

  lemma NamelessTail(u: Uri, more: string)
    requires U.ValidUri(u) && u.headers.None? && EndsNameless(u.params)
    ensures var s := ParamsText(UriParamList(u)) + (" " + (VERSION + (CRLF + more)));
            var r := U.ParseTail(BareUri(u.scheme, u.user, u.hostPort), s);
            r.Ok? ==> r.value.params == u.params[..|u.params| - 1] + [Param(VERSION, None)]
  {
    hide U.ParseTail, ParamsText, UriParamList, U.ValidUri, SkipWs, Ends, Separates, BareUri, Written, PutAll, SetUriParam, ParseParam,
      UriHeaders;
    var v := u.(params := u.params[..|u.params| - 1]);
    var bare, last := BareUri(u.scheme, u.user, u.hostPort), " " + (VERSION + (CRLF + more));
    var w := v.(params := v.params + [Param(VERSION, None)]);
    ListSplits(u, v);
    ShorterIsValid(u, v);
    U.SetUriList(v);
    U.UriListWritten(v);
    Regroup(ParamsText(UriParamList(v)), ";", last);
    MarkEnds(";" + last);
    ParamLoopTakes(IsParam, SetUriParam, bare, UriParamList(v), ";" + last);
    VersionAsName(more);
    VersionIsGeneric(v);
    ParamLoopUnfolds(IsParam, SetUriParam, v, last);
    LineEndsParams(CRLF + more);
    ParamLoopUnfolds(IsParam, SetUriParam, w, CRLF + more);
    U.TailIs(bare, ParamsText(UriParamList(u)) + last, w, CRLF + more);
  }

  lemma LineEndsParams(s: string)
    requires Starts(s, '\r')
    ensures SkipWs(s) == s && !Starts(s, ';') && !Starts(s, '?')
  {
    SkipNoWs(s);
  }

  lemma VersionIsGeneric(u: Uri)
    ensures SetUriParam(u, Param(VERSION, None)) == Success(u.(params := u.params + [Param(VERSION, None)]))
  {
  }

  lemma VerbReads(verb: Method, more: string)
    ensures var s := MethodText(verb) + (" " + more);
            Span(IsToken, s) == |MethodText(verb)| && s[..|MethodText(verb)|] == MethodText(verb)
            && s[|MethodText(verb)|..] == " " + more && !(VERSION <= s)
  {
    var s := MethodText(verb) + (" " + more);
    VerbIsToken(verb);
    hide MethodText, IsToken, All, Span;
    assert !IsToken(' ') by { NoBlankInToken(); }
    SpanIs(IsToken, MethodText(verb), " " + more);
    assert s[0] == MethodText(verb)[0] && s[1] == MethodText(verb)[1];
  }

  lemma NoBlankInToken()
    ensures !IsToken(' ')
  {
  }

  lemma VerbIsToken(verb: Method)
    ensures var s := MethodText(verb); All(IsToken, s) && |s| >= 2 && !(s[0] == 'S' && s[1] == 'I')
  {
  }

  lemma LineIs(verb: Method, u: Uri, more: string)
    ensures RequestLineText(verb, u) + (CRLF + more) == MethodText(verb) + (" " + (UriText(u) + (" " + (VERSION + (CRLF + more)))))
    ensures (UriText(u) + (" " + (VERSION + (CRLF + more))))[0] == 's'
  {
    hide UriText, MethodText;
    var tail := " " + (VERSION + (CRLF + more));
    assert tail == " SIP/2.0" + (CRLF + more);
    LinePartsJoin(MethodText(verb), UriText(u), CRLF + more);
    UriStartsWithScheme(u);
    assert (UriText(u) + tail)[0] == UriText(u)[0];
  }

  lemma LinePartsJoin(verb: string, uri: string, more: string)
    ensures verb + " " + uri + " SIP/2.0" + more == verb + (" " + (uri + (" SIP/2.0" + more)))
  {
    Regroup(verb, " ", uri);
    Regroup(verb, " " + uri, " SIP/2.0");
    Regroup(verb, " " + uri + " SIP/2.0", more);
    Regroup(" ", uri, " SIP/2.0");
    Regroup(" ", uri + " SIP/2.0", more);
    Regroup(uri, " SIP/2.0", more);
  }

  lemma UriStartsWithScheme(u: Uri)
    ensures UriText(u) != "" && UriText(u)[0] == 's'
  {
    U.UriTextIs(u, "");
    assert UriText(u) + "" == UriText(u);
    hide UriText, UserText, U.UriTail;
  }

  /** The request line is what the URI in it is. */
  lemma LineReadsAs(verb: Method, u: Uri, more: string)
    ensures var s := RequestLineText(verb, u) + (CRLF + more);
            var p := ParseUri(true, UriText(u) + (" " + (VERSION + (CRLF + more))));
            && !(VERSION <= s)
            && (ParseRequestLine(s).Ok? ==> p.Ok? && ParseRequestLine(s).value == RequestLine(verb, p.value))
            && (p.Ok? && SkipWs(p.rest) == VERSION + (CRLF + more) && Begins(more) ==>
                  ParseRequestLine(s) == Ok(RequestLine(verb, p.value), more))
  {
    hide ParseUri, UriText, MethodText, MethodFrom, RequestLineText, MustScan, SkipNewlines, SkipWs;
    var t := UriText(u) + (" " + (VERSION + (CRLF + more)));
    LineIs(verb, u, more);
    VerbReads(verb, t);
    MethodReads(verb);
    SkipOneBlank(t);
    MustScanAll(VERSION, CRLF + more);
    if Begins(more) { NewlineSkipped(more); }
  }

  /** A written request line is read with its URI, in which headers have values. */
  lemma RequestLineReads(verb: Method, u: Uri, more: string)
    requires U.ValidUri(u) && Begins(more) && PlainInLine(u)
    ensures ParseRequestLine(RequestLineText(verb, u) + (CRLF + more)) == Ok(RequestLine(verb, u), more)
  {
    hide ParseUri, UriText, U.ValidUri, ParseRequestLine, RequestLineText, SkipWs, U.ReadBack;
    U.ReadBackSame(u);
    UriReadsInLine(u, VERSION + (CRLF + more));
    LineReadsAs(verb, u, more);
  }

  /**
   * When a request line comes back: exactly if the host is not IPv6, headers have values, and no parameter without a name
   * stands in front of the version.
   */
  lemma RequestLineRoundTrips(verb: Method, u: Uri, more: string)
    requires U.ValidUri(u) && Begins(more)
    ensures var r := ParseRequestLine(RequestLineText(verb, u) + (CRLF + more));
            && (r == Ok(RequestLine(verb, u), more) <==> PlainInLine(u))
            && (r.Ok? && r.value == RequestLine(verb, u) ==> r.rest == more)
  {
    hide ParseUri, UriText, U.ValidUri, ParseRequestLine, RequestLineText, SkipWs, U.ReadBack, U.EndsUri;
    if PlainInLine(u) {
      RequestLineReads(verb, u, more);
    } else {
      LineReadsAs(verb, u, more);
      UriMisreadInLine(u, more);
    }
  }

  lemma UriMisreadInLine(u: Uri, more: string)
    requires U.ValidUri(u) && !PlainInLine(u)
    ensures var r := ParseUri(true, UriText(u) + (" " + (VERSION + (CRLF + more)))); r.Ok? ==> r.value != u
  {
    hide ParseUri, UriText, U.ValidUri, SkipWs, U.ReadBack, U.EndsUri;
    var next := VERSION + (CRLF + more);
    BlankEnds(next);
    if IsV6Host(u.hostPort.host) {
      U.V6UriMisread(u, " " + next);
    } else if u.headers == Some([]) {
      NoEmptyHeaders(UriText(u) + (" " + next));
    } else if u.headers.Some? {
      U.ReadBackSame(u);
      UriReadsInLine(u, next);
    } else {
      NamelessMisread(u, more);
    }
  }
}
