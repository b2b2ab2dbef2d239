/** Reading back a written URI, bare or in a name-addr: when it gives the same value in every field. */
module UriRoundTrip {
  import opened Wrappers
  import opened Text
  import opened Parsing
  import opened Messages
  import opened SipValues
  import opened SipGrammar
  import opened SipReading

  predicate Reserved(name: string) {
    name == "user" || name == "method" || name == "transport" || name == "ttl" || name == "lr" || name == "maddr"
  }

  ghost predicate ValidUser(u: Option<UserInfo>) {
    u.Some? ==> All(IsUser, u.value.user) && (u.value.pass.Some? ==> All(IsPass, u.value.pass.value))
  }

  /** Every part is written in the characters of its place; no generic parameter has a special name. */
  ghost predicate ValidUri(u: Uri) {
    && ValidUser(u.user)
    && ValidHost(IsHost, u.hostPort.host) && HostText(u.hostPort.host) != "" && ValidPort(u.hostPort.port)
    && (u.userParam.Some? ==> All(IsParam, u.userParam.value))
    && (u.maddrParam.Some? ==> ValidHost(IsParam, u.maddrParam.value))
    && (u.ttlParam.Some? ==> u.ttlParam.value <= 255)
    && (forall p :: p in u.params ==> Written(IsParam, p) && !Reserved(p.name))
    && (u.headers.Some? ==> forall h :: h in u.headers.value ==> Written(IsHdrUri, h))
  }

  /** A header comes back with a value even if it had none, and an empty list as one empty header. */
  function HeaderBack(h: Param): Param { if h.value.None? then Param(h.name, Some("")) else h }

  function HeadersBack(hs: seq<Param>): seq<Param> {
    if hs == [] then [Param("", None)] else seq(|hs|, i requires 0 <= i < |hs| => HeaderBack(hs[i]))
  }

  function ReadBack(u: Uri): Uri {
    if u.headers.Some? then u.(headers := Some(HeadersBack(u.headers.value))) else u
  }

  /** The caller's check: all headers have values, and a header list is not empty. */
  predicate PlainHeaders(u: Uri) {
    u.headers.Some? ==> u.headers.value != [] && forall h :: h in u.headers.value ==> h.value.Some?
  }

  lemma ReadBackSame(u: Uri)
    ensures ReadBack(u) == u <==> PlainHeaders(u)
  {
    if u.headers.Some? {
      var hs := u.headers.value;
      if hs == [] {
        assert HeadersBack(hs) != [];
      } else if PlainHeaders(u) {
        assert HeadersBack(hs) == hs;
      } else {
        var i :| 0 <= i < |hs| && hs[i].value.None?;
        assert HeadersBack(hs)[i] != hs[i];
      }
    }
  }

  /** What may stand behind a URI: nothing, the bracket of a name-addr, or the end of the line. */
  predicate StopsUri(rest: string) { rest == "" || rest[0] == '>' || IsNewline(rest[0]) }

  /** What ends a written URI where it is known to be one: one of these, or a blank. */
  predicate EndsUri(rest: string) { rest == "" || !InUriPart(rest[0]) }

  lemma StopsEndsUri(rest: string)
    requires StopsUri(rest)
    ensures EndsUri(rest)
  {
  }

  /** A character that neither ends the look for a user part nor makes it succeed. */
  predicate IsInner(c: char) { InUriPart(c) && c != '@' }

  /** What may stand behind the parameters. */
  predicate StopsParams(more: string) { StopsUri(more) || more[0] == '?' }

  lemma {:induction false} SetGeneric(u: Uri, ps: seq<Param>)
    requires forall p :: p in ps ==> !Reserved(p.name)
    ensures PutAll(SetUriParam, u, ps) == Success(u.(params := u.params + ps))
    decreases |ps|
  {
    if ps == [] {
      assert u.params + ps == u.params;
    } else {
      var v := u.(params := u.params + [ps[0]]);
      assert ps[0] in ps;
      assert SetUriParam(u, ps[0]) == Success(v);
      SetGeneric(v, ps[1..]);
      assert v.params + ps[1..] == u.params + ps;
    }
  }

  /** The parameters of a URI, set one after the other, make up the URI again. */
  lemma SetUriList(u: Uri)
    requires ValidUri(u)
    ensures PutAll(SetUriParam, BareUri(u.scheme, u.user, u.hostPort), UriParamList(u)) == Success(u.(headers := None))
  {
    hide PutAll, All, MethodFrom, MethodText, TransportFrom, HostFrom, ParseIp, ParseUnsigned, Decimal;
    var u0 := BareUri(u.scheme, u.user, u.hostPort);
    var later := LaterParams(u);
    var maddr, verb := MapText(HostText, u.maddrParam), MapText(MethodText, u.methodParam);
    PutOptional(SetUriParam, u0, "user", u.userParam, Optional("method", verb) + (Optional("maddr", maddr) + later));
    var u1 := u0.(userParam := u.userParam);
    PutOptional(SetUriParam, u1, "method", verb, Optional("maddr", maddr) + later);
    if u.methodParam.Some? { MethodReads(u.methodParam.value); }
    var u2 := u1.(methodParam := u.methodParam);
    PutOptional(SetUriParam, u2, "maddr", maddr, later);
    if u.maddrParam.Some? { HostReads(IsParam, u.maddrParam.value); }
    SetLater(u, u2.(maddrParam := u.maddrParam));
    hide LaterParams;
  }

  /** The transport and all parameters behind it. */
  function LaterParams(u: Uri): seq<Param> {
    Optional("transport", MapText(LowerCase, u.transportParam)) + (Optional("ttl", MapText(Decimal, u.ttlParam))
    + ((if u.lrParam then [Param("lr", None)] else []) + u.params))
  }

  lemma SetLater(u: Uri, v: Uri)
    requires ValidUri(u) && v == u.(transportParam := None, ttlParam := None, lrParam := false, params := [], headers := None)
    ensures PutAll(SetUriParam, v, LaterParams(u)) == Success(u.(headers := None))
  {
    hide PutAll, All, MethodFrom, TransportFrom, HostFrom, ParseIp, ParseUnsigned, Decimal, LowerCase;
    var lr := (if u.lrParam then [Param("lr", None)] else []) + u.params;
    var ttl := MapText(Decimal, u.ttlParam);
    PutOptional(SetUriParam, v, "transport", MapText(LowerCase, u.transportParam), Optional("ttl", ttl) + lr);
    if u.transportParam.Some? { TransportReads(u.transportParam.value); }
    var w := v.(transportParam := u.transportParam);
    PutOptional(SetUriParam, w, "ttl", ttl, lr);
    if u.ttlParam.Some? { ParseDecimal(u.ttlParam.value, 255); }
    SetLr(w.(ttlParam := u.ttlParam), u.lrParam, u.params);
  }

  lemma SetLr(u: Uri, lr: bool, ps: seq<Param>)
    requires !u.lrParam && u.params == [] && forall p :: p in ps ==> !Reserved(p.name)
    ensures PutAll(SetUriParam, u, (if lr then [Param("lr", None)] else []) + ps) == Success(u.(lrParam := lr, params := ps))
  {
    hide SetUriParam, PutFrom;
    if lr {
      var w := u.(lrParam := true);
      assert ([Param("lr", None)] + ps)[1..] == ps;
      LrSets(u);
      PutFirst(u, Param("lr", None), ps);
      SetGeneric(w, ps);
    } else {
      assert [] + ps == ps;
      SetGeneric(u, ps);
    }
    assert [] + ps == ps;
  }

  lemma LrSets(u: Uri)
    ensures SetUriParam(u, Param("lr", None)) == Success(u.(lrParam := true))
  {
  }

  lemma PutFirst(u: Uri, p: Param, ps: seq<Param>)
    requires SetUriParam(u, p).Success?
    ensures PutAll(SetUriParam, u, [p] + ps) == PutAll(SetUriParam, SetUriParam(u, p).value, ps)
  {
    hide SetUriParam;
    assert ([p] + ps)[1..] == ps;
  }

  lemma NamesWritten()
    ensures All(IsParam, "user") && All(IsParam, "method") && All(IsParam, "maddr")
    ensures All(IsParam, "transport") && All(IsParam, "ttl") && All(IsParam, "lr")
  {
  }

  lemma ListWritten(user: Option<string>, verb: Option<string>, maddr: Option<string>, transport: Option<string>,
                    ttl: Option<string>, lr: bool, ps: seq<Param>)
    requires AllIn(IsParam, user) && AllIn(IsParam, verb) && AllIn(IsParam, maddr) && AllIn(IsParam, transport)
    requires AllIn(IsParam, ttl) && forall p :: p in ps ==> Written(IsParam, p)
    ensures forall p :: p in Optional("user", user) + (Optional("method", verb) + (Optional("maddr", maddr)
              + (Optional("transport", transport) + (Optional("ttl", ttl) + ((if lr then [Param("lr", None)] else []) + ps)))))
              ==> Written(IsParam, p)
  {
    NamesWritten();
    var l5 := (if lr then [Param("lr", None)] else []) + ps;
    assert forall p :: p in l5 ==> Written(IsParam, p);
    hide Written, AllIn, All, IsParam, Optional;
    OptionalWritten(IsParam, "ttl", ttl, l5);
    var l4 := Optional("ttl", ttl) + l5;
    OptionalWritten(IsParam, "transport", transport, l4);
    var l3 := Optional("transport", transport) + l4;
    OptionalWritten(IsParam, "maddr", maddr, l3);
    var l2 := Optional("maddr", maddr) + l3;
    OptionalWritten(IsParam, "method", verb, l2);
    OptionalWritten(IsParam, "user", user, Optional("method", verb) + l2);
  }

  lemma UriListWritten(u: Uri)
    requires ValidUri(u)
    ensures forall p :: p in UriParamList(u) ==> Written(IsParam, p)
  {
    hide Written, All, IsParam, Optional, MethodText, LowerCase, HostText, Decimal, ValidUser, ValidHost, ValidPort, Reserved;
    if u.methodParam.Some? { MethodChars(u.methodParam.value); }
    if u.maddrParam.Some? { HostChars(IsParam, u.maddrParam.value); }
    if u.transportParam.Some? { TransportChars(u.transportParam.value); }
    if u.ttlParam.Some? { DecimalChars(u.ttlParam.value); }
    ListWritten(u.userParam, MapText(MethodText, u.methodParam), MapText(HostText, u.maddrParam),
      MapText(LowerCase, u.transportParam), MapText(Decimal, u.ttlParam), u.lrParam, u.params);
  }

  lemma HeaderEnds()
    ensures Separates(IsHdrUri) && !IsHdrUri('&')
  {
  }

  /** One written header, with what comes back for it. */
  lemma HeaderReads(h: Param, more: string)
    requires Written(IsHdrUri, h) && Ends(IsHdrUri, more)
    ensures ParseParam(IsHdrUri, HeaderText(h) + more) == Ok(HeaderBack(h), more)
  {
    HeaderEnds();
    BackIsWritten(h);
    hide IsHdrUri, Written, Ends, Separates, ParseParam, HeaderText, HeaderBack, Bare;
    ParamReads(IsHdrUri, HeaderBack(h), more);
  }

  lemma BackIsWritten(h: Param)
    requires Written(IsHdrUri, h)
    ensures Written(IsHdrUri, HeaderBack(h)) && Bare(HeaderBack(h)) == HeaderText(h) && HeaderBack(h).value.Some?
  {
    hide IsHdrUri;
  }

  lemma HeadersUnfold(hs: seq<Param>)
    requires hs != []
    ensures HeadersText(hs) == if |hs| == 1 then HeaderText(hs[0]) else HeaderText(hs[0]) + "&" + HeadersText(hs[1..])
  {
  }

  lemma HeadersTextIs(hs: seq<Param>, rest: string)
    requires |hs| > 1
    ensures HeadersText(hs) + rest == HeaderText(hs[0]) + ("&" + (HeadersText(hs[1..]) + rest))
  {
    hide HeaderText, HeadersText;
    HeadersUnfold(hs);
  }

  lemma HeadersBackIs(hs: seq<Param>)
    requires hs != []
    ensures HeadersBack(hs) == [HeaderBack(hs[0])] + if |hs| == 1 then [] else HeadersBack(hs[1..])
  {
    hide HeaderBack;
  }

  lemma HeaderStep(done: seq<Param>, h: Param, tail: string)
    requires Written(IsHdrUri, h)
    ensures UriHeaders(done, HeaderText(h) + ("&" + tail)) == UriHeaders(done + [HeaderBack(h)], tail)
  {
    HeaderEnds();
    hide IsHdrUri, Written, ParseParam, HeaderText, HeaderBack;
    HeaderReads(h, "&" + tail);
    assert ("&" + tail)[1..] == tail;
  }

  lemma HeaderLast(done: seq<Param>, h: Param, rest: string)
    requires Written(IsHdrUri, h) && EndsUri(rest)
    ensures UriHeaders(done, HeaderText(h) + rest) == Ok(done + [HeaderBack(h)], rest)
  {
    StopsHeaders(rest);
    hide IsHdrUri, Written, ParseParam, HeaderText, HeaderBack, EndsUri;
    HeaderReads(h, rest);
  }

  lemma {:induction false} HeadersRead(done: seq<Param>, hs: seq<Param>, rest: string)
    requires hs != [] && (forall h :: h in hs ==> Written(IsHdrUri, h)) && EndsUri(rest)
    ensures UriHeaders(done, HeadersText(hs) + rest) == Ok(done + HeadersBack(hs), rest)
    decreases |hs|
  {
    hide Written, EndsUri, HeadersBack, HeaderBack, HeadersText, HeaderText, UriHeaders;
    assert hs[0] in hs;
    HeadersBackIs(hs);
    HeadersUnfold(hs);
    if |hs| == 1 {
      HeaderLast(done, hs[0], rest);
      assert [HeaderBack(hs[0])] + [] == [HeaderBack(hs[0])];
    } else {
      HeadersTextIs(hs, rest);
      HeaderStep(done, hs[0], HeadersText(hs[1..]) + rest);
      HeadersRead(done + [HeaderBack(hs[0])], hs[1..], rest);
      assert done + [HeaderBack(hs[0])] + HeadersBack(hs[1..]) == done + HeadersBack(hs);
    }
  }

  lemma StopsHeaders(rest: string)
    requires EndsUri(rest)
    ensures Ends(IsHdrUri, rest) && !Starts(rest, '&')
  {
  }

  lemma NoHeadersRead(rest: string)
    requires StopsUri(rest)
    ensures UriHeaders([], HeadersText([]) + rest) == Ok(HeadersBack([]), rest)
  {
    hide IsHdrUri, ParseParam;
    HeaderEnds();
    StopsHeaders(rest);
    ParamReads(IsHdrUri, Param("", None), rest);
    assert HeadersText([]) + rest == Bare(Param("", None)) + rest == rest;
    assert [] + [Param("", None)] == HeadersBack([]);
  }

  /** The scheme and its colon. */
  lemma SchemeReads(scheme: Scheme, more: string)
    ensures ParseScheme(SchemeText(scheme) + (":" + more)) == Ok(scheme, more)
  {
    var word := SchemeText(scheme);
    SpanIs(IsToken, word, ":" + more);
    assert (":" + more)[1..] == more;
  }

  /** The user part, if the rest of the URI has no at sign of its own. */
  lemma UserReads(user: Option<UserInfo>, tail: string, rest: string)
    requires ValidUser(user) && All(IsInner, tail) && EndsUri(rest)
    ensures ParseUserInfo(UserText(user) + (tail + rest)) == Ok(user, tail + rest)
  {
    hide ParseUserInfo, ValidUser, All, UserText;
    if user.None? {
      NoUserReads(tail, rest);
    } else {
      SomeUserReads(user.value, tail + rest);
      UserTextIs(user.value, tail + rest);
    }
  }

  lemma NoUserReads(tail: string, rest: string)
    requires All(IsInner, tail) && EndsUri(rest)
    ensures ParseUserInfo(UserText(None) + (tail + rest)) == Ok(None, tail + rest)
  {
    NoUserFound(tail, rest);
    assert UserText(None) + (tail + rest) == tail + rest;
  }

  lemma UserTextIs(u: UserInfo, more: string)
    ensures UserText(Some(u)) + more == u.user + (PassText(u) + ("@" + more))
  {
  }

  lemma SomeUserReads(u: UserInfo, more: string)
    requires ValidUser(Some(u))
    ensures ParseUserInfo(u.user + (PassText(u) + ("@" + more))) == Ok(Some(u), more)
  {
    hide IsUser, IsPass, InUriPart, ParsePassword, ExistsUserPart, All, PassText, ValidUser;
    UserChars(u);
    UserStops(u, more);
    UserFound(u.user, PassText(u), more);
    SpanIs(IsUser, u.user, PassText(u) + ("@" + more));
    PasswordReads(u.pass, "@" + more);
    SamePass(u);
    assert ("@" + more)[1..] == more;
  }

  lemma SamePass(u: UserInfo)
    ensures PassText(UserInfo("", u.pass)) == PassText(u)
  {
  }

  lemma UserStops(u: UserInfo, more: string)
    requires ValidUser(Some(u))
    ensures var s := PassText(u) + ("@" + more); s != "" && !IsUser(s[0]) && All(IsUser, u.user)
    ensures u.pass.Some? ==> All(IsPass, u.pass.value)
  {
  }

  function PassText(u: UserInfo): string { if u.pass.Some? then ":" + u.pass.value else "" }

  lemma UserChars(u: UserInfo)
    requires ValidUser(Some(u))
    ensures All(InUriPart, u.user + PassText(u)) && !IsUser('@') && !IsUser(':')
  {
    AllConcat(InUriPart, u.user, PassText(u));
    if u.pass.Some? { AllConcat(InUriPart, ":", u.pass.value); }
  }

  lemma PasswordReads(pass: Option<string>, more: string)
    requires (pass.Some? ==> All(IsPass, pass.value)) && Starts(more, '@')
    ensures ParsePassword(PassText(UserInfo("", pass)) + more) == (pass, more)
  {
    if pass.Some? {
      assert (":" + pass.value + more)[1..] == pass.value + more;
      SpanIs(IsPass, pass.value, more);
    } else {
      assert "" + more == more;
    }
  }

  lemma NoUserFound(tail: string, rest: string)
    requires All(IsInner, tail) && EndsUri(rest)
    ensures !ExistsUserPart(tail + rest)
  {
    SpanIs(InUriPart, tail, rest);
    assert '@' !in tail;
  }

  lemma UserFound(user: string, pass: string, after: string)
    requires All(InUriPart, user + pass)
    ensures ExistsUserPart(user + (pass + ("@" + after)))
  {
    var before := user + pass;
    var s := before + ("@" + after);
    assert user + (pass + ("@" + after)) == s;
    var n := Span(InUriPart, s);
    assert forall i :: 0 <= i <= |before| ==> s[i] == (if i < |before| then before[i] else '@');
    assert n > |before|;
    assert s[..n][|before|] == '@';
  }

  function HeadersPart(u: Uri): string { if u.headers.Some? then "?" + HeadersText(u.headers.value) else "" }

  /** Everything behind the user part. */
  function UriTail(u: Uri): string { HostPortText(u.hostPort) + (ParamsText(UriParamList(u)) + HeadersPart(u)) }

  lemma {:induction false} ParamsInner(ps: seq<Param>)
    requires forall p :: p in ps ==> Written(IsParam, p)
    ensures All(IsInner, ParamsText(ps))
  {
    if ps != [] {
      assert ps[0] in ps;
      ParamsInner(ps[1..]);
      ParamInner(ps[0]);
      hide IsInner, ParamText, All, Written;
      AllConcat(IsInner, ParamText(ps[0]), ParamsText(ps[1..]));
    }
  }

  lemma ParamInner(p: Param)
    requires Written(IsParam, p)
    ensures All(IsInner, ParamText(p))
  {
  }

  lemma HeaderInner(p: Param)
    requires Written(IsHdrUri, p)
    ensures All(IsInner, HeaderText(p)) && All(IsInner, HeaderText(p) + "&")
  {
  }

  lemma {:induction false} HeadersInner(hs: seq<Param>)
    requires forall h :: h in hs ==> Written(IsHdrUri, h)
    ensures All(IsInner, HeadersText(hs))
  {
    if hs != [] {
      assert hs[0] in hs;
      HeadersInner(hs[1..]);
      HeaderInner(hs[0]);
      hide IsInner, HeaderText, All, Written;
      AllConcat(IsInner, HeaderText(hs[0]) + "&", HeadersText(hs[1..]));
    }
  }

  lemma HostPortInner(hp: HostPort)
    requires ValidHost(IsHost, hp.host)
    ensures All(IsInner, HostPortText(hp))
  {
    hide IsInner, HostText, Decimal, ValidHost, All;
    HostInner(hp.host);
    PortInner(hp.port);
    AllConcat(IsInner, HostText(hp.host), if hp.port.Some? then ":" + Decimal(hp.port.value) else "");
  }

  lemma ParamIsInner(s: string)
    requires All(IsParam, s) || All(IsHost, s)
    ensures All(IsInner, s)
  {
  }

  lemma HostInner(h: Host)
    requires ValidHost(IsHost, h)
    ensures All(IsInner, HostText(h))
  {
    if h.IpAddr? { IpChars(h.ip); }
    hide IsInner, All, IsParam, IsHost;
    ParamIsInner(HostText(h));
  }

  lemma PortInner(port: Option<nat>)
    ensures All(IsInner, if port.Some? then ":" + Decimal(port.value) else "")
  {
    if port.Some? {
      DecimalChars(port.value);
      ParamIsInner(Decimal(port.value));
      hide Decimal, IsParam;
      AllConcat(IsInner, ":", Decimal(port.value));
    }
  }

  /** No at sign behind the user part of a written URI. */
  lemma TailInner(u: Uri)
    requires ValidUri(u)
    ensures All(IsInner, UriTail(u))
  {
    HostPortInner(u.hostPort);
    UriListWritten(u);
    ParamsInner(UriParamList(u));
    if u.headers.Some? { HeadersInner(u.headers.value); }
    assert All(IsInner, HeadersPart(u));
    hide IsInner, All, HostPortText, UriParamList, HeadersPart, ValidUri, Written;
    AllConcat(IsInner, ParamsText(UriParamList(u)), HeadersPart(u));
    AllConcat(IsInner, HostPortText(u.hostPort), ParamsText(UriParamList(u)) + HeadersPart(u));
  }

  lemma HeadersPartReads(u: Uri, rest: string)
    requires ValidUri(u) && u.headers.Some? && EndsUri(rest) && (u.headers.value == [] ==> StopsUri(rest))
    ensures UriHeaders([], HeadersText(u.headers.value) + rest) == Ok(HeadersBack(u.headers.value), rest)
  {
    if u.headers.value == [] {
      NoHeadersRead(rest);
    } else {
      HeadersRead([], u.headers.value, rest);
      assert [] + HeadersBack(u.headers.value) == HeadersBack(u.headers.value);
    }
  }

  lemma HeadersPartStops(u: Uri, rest: string)
    requires StopsUri(rest)
    ensures StopsParams(HeadersPart(u) + rest) && EndsHost(HeadersPart(u) + rest)
    ensures Starts(HeadersPart(u) + rest, '?') <==> u.headers.Some?
    ensures u.headers.Some? ==> (HeadersPart(u) + rest)[1..] == HeadersText(u.headers.value) + rest
    ensures u.headers.None? ==> HeadersPart(u) + rest == rest
  {
  }

  /** What the parser reads behind the scheme and the user part, from the host on. */
  function ParseTail(bare: Uri, s: string): Parse<Uri> {
    var (u, t) :- ParamLoop(IsParam, SetUriParam, bare, SkipWs(s));
    if Starts(t, '?') then
      var (hs, t) :- UriHeaders([], t[1..]);
      Ok(u.(headers := Some(hs)), t)
    else Ok(u, t)
  }

  lemma ParamsAndHeadersRead(u: Uri, rest: string)
    requires ValidUri(u) && StopsUri(rest)
    ensures ParseTail(BareUri(u.scheme, u.user, u.hostPort), ParamsText(UriParamList(u)) + (HeadersPart(u) + rest))
         == Ok(ReadBack(u), rest)
  {
    var ps, more := UriParamList(u), HeadersPart(u) + rest;
    var bare := BareUri(u.scheme, u.user, u.hostPort);
    hide ValidUri, Written, StopsParams, StopsUri, UriParamList, HeadersPart, Separates, EndsParams, SkipWs, ParamsText, Starts,
      IsSpace, BareUri, PutAll, ParamLoop, UriHeaders, HeadersText, HeadersBack, ParseTail;
    StopsEndsUri(rest);
    HeadersPartStops(u, rest);
    StopsEnds(more);
    SetUriList(u);
    UriListWritten(u);
    if u.headers.Some? { HeadersPartReads(u, rest); }
    ParamLoopReads(IsParam, SetUriParam, bare, ps, more);
    TailIs(bare, ParamsText(ps) + more, u.(headers := None), more);
  }

  lemma TailIs(bare: Uri, s: string, v: Uri, t: string)
    requires ParamLoop(IsParam, SetUriParam, bare, SkipWs(s)) == Ok(v, t)
    ensures Starts(t, '?') ==> UriHeaders([], t[1..]).Ok? ==>
              ParseTail(bare, s) == Ok(v.(headers := Some(UriHeaders([], t[1..]).value)), UriHeaders([], t[1..]).rest)
    ensures !Starts(t, '?') ==> ParseTail(bare, s) == Ok(v, t)
  {
    hide ParamLoop, UriHeaders, SkipWs;
  }

  lemma StopsEnds(more: string)
    requires StopsParams(more)
    ensures Separates(IsParam) && EndsParams(IsParam, more) && SkipWs(more) == more
  {
    SkipNoWs(more);
  }

  lemma UriTextIs(u: Uri, rest: string)
    ensures UriText(u) + rest == SchemeText(u.scheme) + (":" + (UserText(u.user) + (UriTail(u) + rest)))
    ensures UriTail(u) + rest == HostPortText(u.hostPort) + (ParamsText(UriParamList(u)) + (HeadersPart(u) + rest))
  {
    hide UserText, HostPortText, ParamsText, UriParamList, HeadersText, SchemeText;
  }

  /** The scheme and the user part of any written URI are read, and then the host. */
  lemma FrontReads(u: Uri, rest: string)
    requires ValidUri(u) && EndsUri(rest)
    ensures var p := ParseHostPort(UriTail(u) + rest);
            ParseUri(true, UriText(u) + rest)
            == if p.Err? then Err(p.kind, p.rest) else ParseTail(BareUri(u.scheme, u.user, p.value), p.rest)
  {
    hide EndsUri, UriTail, UriText, SchemeText, UserText, ParseScheme, ParseUserInfo, ParseHostPort, ParamLoop, UriHeaders,
      ParseUri, ParseTail, All, ValidHost, ValidUser, Written;
    UriTextIs(u, rest);
    TailInner(u);
    SchemeReads(u.scheme, UserText(u.user) + (UriTail(u) + rest));
    UserReads(u.user, UriTail(u), rest);
    ParseUriIs(UriText(u) + rest, u.scheme, UserText(u.user) + (UriTail(u) + rest), u.user, UriTail(u) + rest);
  }

  lemma ParseUriIs(s: string, scheme: Scheme, t: string, user: Option<UserInfo>, tail: string)
    requires ParseScheme(s) == Ok(scheme, t) && ParseUserInfo(t) == Ok(user, tail)
    ensures var p := ParseHostPort(tail);
            ParseUri(true, s) == if p.Err? then Err(p.kind, p.rest) else ParseTail(BareUri(scheme, user, p.value), p.rest)
  {
    hide ParseScheme, ParseUserInfo, ParseHostPort, ParamLoop, UriHeaders, SkipWs;
  }

  /** Every written URI whose host is not an IPv6 address is read; the text behind it is left. */
  lemma UriReads(u: Uri, rest: string)
    requires ValidUri(u) && !IsV6Host(u.hostPort.host) && StopsUri(rest)
    ensures ParseUri(true, UriText(u) + rest) == Ok(ReadBack(u), rest)
  {
    hide ParseUri, UriText, UriTail, ParseTail, ParseHostPort, HostPortText, ParamsText, UriParamList, HeadersPart, StopsUri,
      StopsParams, EndsHost, ReadBack, ValidUser, ValidHost, HostText, Written, All, EndsUri;
    StopsEndsUri(rest);
    FrontReads(u, rest);
    UriTextIs(u, rest);
    ParamsAndHeadersRead(u, rest);
    HeadersPartStops(u, rest);
    ParamsAfterHost(UriParamList(u), HeadersPart(u) + rest);
    HostPortReads(u.hostPort, ParamsText(UriParamList(u)) + (HeadersPart(u) + rest));
  }

  lemma SetKeepsHost(u: Uri, p: Param)
    ensures var r := SetUriParam(u, p); r.Success? ==> r.value.hostPort == u.hostPort
  {
    hide MethodFrom, TransportFrom, HostFrom, ParseUnsigned;
  }

  lemma {:induction false} ParamsKeepHost(u: Uri, s: string)
    ensures var r := ParamLoop(IsParam, SetUriParam, u, s); r.Ok? ==> r.value.hostPort == u.hostPort
    decreases |s|
  {
    hide ParseParam, SetUriParam, SkipWs;
    if Starts(s, ';') {
      var p := ParseParam(IsParam, s[1..]);
      if p.Ok? && SetUriParam(u, p.value).Success? {
        SetKeepsHost(u, p.value);
        ParamsKeepHost(SetUriParam(u, p.value).value, SkipWs(p.rest));
      }
    }
  }

  lemma TailKeepsHost(u: Uri, s: string)
    ensures var r := ParseTail(u, s); r.Ok? ==> r.value.hostPort == u.hostPort
  {
    hide ParamLoop, UriHeaders, SkipWs;
    ParamsKeepHost(u, SkipWs(s));
  }

  /** An IPv6 host does not come back, because it is written without brackets. */
  lemma V6UriMisread(u: Uri, rest: string)
    requires ValidUri(u) && IsV6Host(u.hostPort.host) && EndsUri(rest)
    ensures var r := ParseUri(true, UriText(u) + rest); r.Ok? ==> r.value != u
  {
    assert ValidIp(u.hostPort.host.ip);
    hide ValidUri, ParseUri, UriText, UriTail, EndsUri, ParseHostPort, ParseTail, HostPortText, ValidIp;
    FrontReads(u, rest);
    UriTextIs(u, rest);
    var more := V6TextStarts(u.hostPort, ParamsText(UriParamList(u)) + (HeadersPart(u) + rest));
    V6HostMisread(u.hostPort.host.ip, more);
    var p := ParseHostPort(UriTail(u) + rest);
    if p.Ok? { TailKeepsHost(BareUri(u.scheme, u.user, p.value), p.rest); }
  }

  /** A URI that is well formed reads back as itself exactly if its host is not IPv6 and its headers have values. */
  lemma UriRoundTrips(u: Uri, rest: string)
    requires ValidUri(u) && StopsUri(rest)
    ensures var r := ParseUri(true, UriText(u) + rest);
            (r == Ok(u, rest) <==> !IsV6Host(u.hostPort.host) && PlainHeaders(u)) && (r.Ok? && r.value == u ==> r.rest == rest)
  {
    hide ParseUri, UriText, ValidUri, StopsUri, EndsUri, PlainHeaders;
    StopsEndsUri(rest);
    if IsV6Host(u.hostPort.host) {
      V6UriMisread(u, rest);
    } else {
      UriReads(u, rest);
      ReadBackSame(u);
    }
  }

  /** A display name is written in quotes, so it must not have one, and it is text. */
  predicate ValidDisplay(d: Option<string>) { d.Some? ==> '"' !in d.value && ValidUtf8(d.value) }

  ghost predicate ValidSipUri(x: SipUri) {
    if x.PlainUri? then ValidUri(x.uri) else ValidUri(x.nameAddr.uri) && ValidDisplay(x.nameAddr.display)
  }

  function UriOf(x: SipUri): Uri { if x.PlainUri? then x.uri else x.nameAddr.uri }

  lemma QuotedNameReads(name: string, more: string)
    requires '"' !in name && ValidUtf8(name)
    ensures ParseDisplayName("\"" + name + "\" " + more) == Ok(Some(name), " " + more)
  {
    var tail := "\"" + (" " + more);
    QuotedIs(name, more);
    SpanIs(NotQuote, name, tail);
    assert tail[1..] == " " + more;
  }

  lemma QuotedIs(name: string, more: string)
    ensures var s := "\"" + name + "\" " + more; s[0] == '"' && s[1..] == name + ("\"" + (" " + more))
  {
  }

  /** What is left to read of a name-addr when its display name has been read and blanks have been skipped. */
  lemma DisplayReads(display: Option<string>, more: string)
    requires ValidDisplay(display) && Starts(more, '<')
    ensures var s := (if display.Some? then "\"" + display.value + "\" " else "") + more;
            SkipWs(s) == s && ParseDisplayName(s).Ok? && ParseDisplayName(s).value == display
            && SkipWs(ParseDisplayName(s).rest) == more && (Starts(s, '"') || Starts(s, '<'))
  {
    if display.Some? {
      QuotedNameReads(display.value, more);
      SpanIs(IsSpace, " ", more);
      SkipNoWs("\"" + display.value + "\" " + more);
    } else {
      assert "" + more == more;
      SkipNoWs(more);
    }
  }

  lemma NameAddrTextIs(n: NameAddr, more: string)
    ensures NameAddrText(n) + more
         == (if n.display.Some? then "\"" + n.display.value + "\" " else "") + ("<" + (UriText(n.uri) + (">" + more)))
  {
    hide UriText;
  }

  lemma NameAddrReads(n: NameAddr, more: string)
    requires ValidUri(n.uri) && ValidDisplay(n.display)
    ensures var p := ParseUri(true, UriText(n.uri) + (">" + more)); var s := NameAddrText(n) + more;
            && (ParseNameAddr(s) == Ok(n, more) <==> p == Ok(n.uri, ">" + more)) && (Starts(s, '"') || Starts(s, '<'))
            && (ParseNameAddr(s).Ok? ==> p.Ok? && ParseNameAddr(s).value.uri == p.value)
  {
    hide ValidUri, ParseUri, UriText, ParseDisplayName, SkipWs, ValidDisplay, NameAddrText;
    var tail := "<" + (UriText(n.uri) + (">" + more));
    NameAddrTextIs(n, more);
    DisplayReads(n.display, tail);
    assert tail[1..] == UriText(n.uri) + (">" + more);
    BracketEnds(more);
  }

  lemma BracketEnds(more: string)
    ensures MustRead('>', ">" + more) == Ok((), more)
    ensures forall t: string :: MustRead('>', t) == Ok((), more) ==> t == ">" + more
  {
    assert (">" + more)[1..] == more;
    forall t: string | MustRead('>', t) == Ok((), more) ensures t == ">" + more {
      assert t == [t[0]] + t[1..];
    }
  }

  lemma SchemeWord(scheme: Scheme, more: string, s: string)
    requires s == SchemeText(scheme) + (":" + more)
    ensures s != "" && s[0] == 's' && s[..Span(InSchemeOrDisplay, s)] == SchemeText(scheme)
  {
    SpanIs(InSchemeOrDisplay, SchemeText(scheme), ":" + more);
  }

  lemma PlainUriReads(u: Uri)
    ensures ParseSipUri(true, UriText(u)) == Ok(PlainUri(u), "") <==> ParseUri(true, UriText(u)) == Ok(u, "")
  {
    hide ParseUri, UriText, UserText, UriTail, ParseNameAddr, SkipWs;
    UriTextIs(u, "");
    assert UriText(u) + "" == UriText(u);
    SkipNoWs(UriText(u));
    SchemeWord(u.scheme, UserText(u.user) + (UriTail(u) + ""), UriText(u));
  }

  /**
   * A written URI, bare or in a name-addr, reads back as the same value in every field exactly if its host is not an IPv6
   * address, its header list is absent or not empty, and every header has a value.
   */
  lemma SipUriRoundTrips(x: SipUri)
    requires ValidSipUri(x)
    ensures ParseSipUri(true, SipUriText(x)) == Ok(x, "")
       <==> !IsV6Host(UriOf(x).hostPort.host) && PlainHeaders(UriOf(x))
  {
    hide ParseUri, UriText, ValidUri, PlainHeaders, ParseNameAddr, NameAddrText;
    if x.PlainUri? {
      hide ParseSipUri;
      PlainUriReads(x.uri);
      UriRoundTrips(x.uri, "");
      assert UriText(x.uri) + "" == UriText(x.uri);
    } else {
      NameAddrReads(x.nameAddr, "");
      assert NameAddrText(x.nameAddr) + "" == NameAddrText(x.nameAddr) && ">" + "" == ">";
      SkipNoWs(NameAddrText(x.nameAddr));
      UriRoundTrips(x.nameAddr.uri, ">");
    }
  }
}
