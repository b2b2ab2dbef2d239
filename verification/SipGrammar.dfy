/**
 * What the parser for SIP URIs and Via headers reads, as functions on the text in front of it: the same branches and the
 * same errors as the methods of `SipParsers`, which are proved to do exactly this to their scanner.
 */
module SipGrammar {
  import opened Wrappers
  import opened Text
  import opened Parsing
  import opened Messages
  import opened SipValues

  predicate IsUnreserved(c: char) {
    c == '-' || c == '_' || c == '.' || c == '!' || c == '~' || c == '*' || c == '\'' || c == '(' || c == ')' || c == '%'
  }

  predicate IsToken(c: char) {
    || IsAlphanumeric(c)
    || c == '-' || c == '.' || c == '!' || c == '%' || c == '*' || c == '_' || c == '`' || c == '\'' || c == '~' || c == '+'
  }

  predicate IsUser(c: char) {
    || IsAlphanumeric(c) || IsUnreserved(c)
    || c == '&' || c == '=' || c == '+' || c == '$' || c == ',' || c == ';' || c == '?' || c == '/'
  }

  predicate IsPass(c: char) {
    IsAlphanumeric(c) || IsUnreserved(c) || c == '&' || c == '=' || c == '+' || c == '$' || c == ','
  }

  predicate IsHost(c: char) { IsAlphanumeric(c) || c == '_' || c == '-' || c == '.' }

  predicate IsParam(c: char) {
    || IsAlphanumeric(c) || IsUnreserved(c)
    || c == '[' || c == ']' || c == '/' || c == ':' || c == '&' || c == '+' || c == '$'
  }

  predicate IsHdrUri(c: char) {
    || IsAlphanumeric(c) || IsUnreserved(c)
    || c == '[' || c == ']' || c == '/' || c == '?' || c == ':' || c == '+' || c == '$'
  }

  predicate IsViaParam(c: char) { IsToken(c) || c == '[' || c == ':' || c == ']' }

  predicate NotQuote(c: char) { c != '"' }

  predicate NotBracket(c: char) { c != ']' }

  predicate NotParen(c: char) { c != ')' }

  predicate InUriPart(c: char) { !IsSpace(c) && !IsNewline(c) && c != '>' }

  predicate InSchemeOrDisplay(c: char) { c != ':' && !IsNewline(c) && c != '<' }

  predicate IsHexGroup(c: char) { IsDigit(c) || 'a' <= c <= 'f' || 'A' <= c <= 'F' || c == ':' || c == '.' }

  predicate IsV6Text(s: string) { ':' in s && Span(IsHexGroup, s) == |s| }

  /** One to three digits, no needless leading zero, at most 255. */
  function ParseOctet(s: string): Option<nat> {
    var n := Span(IsDigit, s);
    if 1 <= n == |s| <= 3 && (n == 1 || s[0] != '0') then
      assert s[..n] == s;
      if Value(s) <= 255 then Some(Value(s)) else None
    else None
  }

  function ParseV4(s: string): Option<Ip> {
    var parts := Split('.', s);
    if |parts| != 4 then None
    else
      var a, b, c, d := ParseOctet(parts[0]), ParseOctet(parts[1]), ParseOctet(parts[2]), ParseOctet(parts[3]);
      if a.Some? && b.Some? && c.Some? && d.Some? then Some(V4(a.value, b.value, c.value, d.value)) else None
  }

  function ParseIp(s: string): Option<Ip> {
    if ParseV4(s).Some? then ParseV4(s) else if IsV6Text(s) then Some(V6(s)) else None
  }

  /** Any text is a host: an address if it reads as one, a name otherwise. */
  function HostFrom(s: string): Host { if ParseIp(s).Some? then IpAddr(ParseIp(s).value) else HostName(s) }

  function TransportFrom(s: string): Option<Transport> {
    if SameIgnoringCase(s, "udp") then Some(Udp)
    else if SameIgnoringCase(s, "tcp") then Some(Tcp)
    else if SameIgnoringCase(s, "ws") then Some(Ws)
    else if SameIgnoringCase(s, "wss") then Some(Wss)
    else if SameIgnoringCase(s, "tls") then Some(Tls)
    else if SameIgnoringCase(s, "sctp") then Some(Sctp)
    else None
  }

  function ParseScheme(s: string): (r: Parse<Scheme>)
    ensures |r.rest| <= |s|
  {
    var n := Span(IsToken, s);
    if s[..n] == "sip" then var (_, t) :- MustRead(':', s[n..]); Ok(Sip, t)
    else if s[..n] == "sips" then var (_, t) :- MustRead(':', s[n..]); Ok(Sips, t)
    else Err(SchemeKind, s)
  }

  /** An at sign anywhere before the next blank, newline or closing bracket means that a user part comes first. */
  predicate ExistsUserPart(s: string) { '@' in s[..Span(InUriPart, s)] }

  function ParseUserInfo(s: string): (r: Parse<Option<UserInfo>>)
    ensures |r.rest| <= |s|
  {
    if ExistsUserPart(s) then
      var n := Span(IsUser, s);
      var (pass, t) := ParsePassword(s[n..]);
      var (_, t) :- MustRead('@', t).As(UriKind);
      Ok(Some(UserInfo(s[..n], pass)), t)
    else
      Ok(None, s)
  }

  function ParsePassword(s: string): (r: (Option<string>, string))
    ensures |r.1| <= |s|
  {
    if Starts(s, ':') then
      var n := Span(IsPass, s[1..]);
      (Some(s[1..][..n]), s[1..][n..])
    else (None, s)
  }

  function ParsePort(s: string): (r: Parse<Option<nat>>)
    ensures |r.rest| <= |s|
  {
    if Starts(s, ':') then
      var (port, t) :- ScanNumber(0xFFFF, s[1..]).As(HostKind);
      Ok(Some(port), t)
    else Ok(None, s)
  }

  function ParseHost(s: string): (r: Parse<Host>)
    ensures |r.rest| <= |s|
  {
    if Starts(s, '[') then
      var n := Span(NotBracket, s[1..]);
      var host := s[1..][..n];
      if !ValidUtf8(host) then Err(HostKind, s[1..][n..])
      else
        var (_, t) :- NextByte(s[1..][n..]);
        if ParseIp(host).Some? then Ok(IpAddr(ParseIp(host).value), t) else Err(HostKind, t)
    else
      var n := Span(IsHost, s);
      if n == 0 then Err(HostKind, s) else Ok(HostFrom(s[..n]), s[n..])
  }

  function ParseHostPort(s: string): (r: Parse<HostPort>)
    ensures |r.rest| <= |s|
  {
    var (host, t) :- ParseHost(s);
    var (port, t) :- ParsePort(t);
    Ok(HostPort(host, port), t)
  }

  function ParseParam(p: char -> bool, s: string): (r: Parse<Param>)
    ensures |r.rest| <= |s|
  {
    var s := SkipWs(s);
    var n := Span(p, s);
    var t := s[n..];
    if !Starts(t, '=') then Ok(Param(s[..n], None), t)
    else
      var (value, t) :- ParseParamValue(p, t[1..]);
      Ok(Param(s[..n], Some(value)), t)
  }

  function ParseParamValue(p: char -> bool, s: string): (r: Parse<string>)
    ensures |r.rest| <= |s|
  {
    if Starts(s, '"') then
      var n := Span(NotQuote, s[1..]);
      var (_, t) :- NextByte(s[1..][n..]);
      if ValidUtf8(s[1..][..n]) then Ok(s[1..][..n], t) else Err(InvalidUtf8, t)
    else
      var n := Span(p, s);
      Ok(s[..n], s[n..])
  }

  /**
   * The loop over parameters, from the point where it tests for a semicolon: each parameter, made of the characters in `p`,
   * is put into the value that is being built.
   */
  function ParamLoop<T>(p: char -> bool, put: (T, Param) -> Result<T, Kind>, v: T, s: string): (r: Parse<T>)
    ensures |r.rest| <= |s|
    decreases |s|
  {
    if !Starts(s, ';') then Ok(v, s)
    else
      var (x, t) :- ParseParam(p, s[1..]);
      var w := put(v, x);
      if w.Failure? then Err(w.error, t) else ParamLoop(p, put, w.value, SkipWs(t))
  }

  lemma ParamLoopUnfolds<T>(p: char -> bool, put: (T, Param) -> Result<T, Kind>, v: T, s: string)
    ensures !Starts(s, ';') ==> ParamLoop(p, put, v, s) == Ok(v, s)
    ensures var x := ParseParam(p, s);
            ParamLoop(p, put, v, ";" + s)
            == if x.Err? then Err(x.kind, x.rest)
               else if put(v, x.value).Failure? then Err(put(v, x.value).error, x.rest)
               else ParamLoop(p, put, put(v, x.value).value, SkipWs(x.rest))
  {
    assert (";" + s)[1..] == s;
    hide ParseParam, SkipWs;
  }

  /** What one parameter does to the URI; a parameter without a special name is a generic one. */
  function SetUriParam(u: Uri, p: Param): Result<Uri, Kind> {
    if p.name == "user" then Success(u.(userParam := p.value))
    else if p.name == "method" then
      Success(u.(methodParam := if p.value.Some? then Some(MethodFrom(p.value.value)) else None))
    else if p.name == "transport" then
      if p.value.None? then Success(u.(transportParam := None))
      else if TransportFrom(p.value.value).Some? then Success(u.(transportParam := TransportFrom(p.value.value)))
      else Failure(TransportKind)
    else if p.name == "ttl" then
      if p.value.None? then Success(u.(ttlParam := None))
      else if ParseUnsigned(p.value.value, 255).Some? then Success(u.(ttlParam := ParseUnsigned(p.value.value, 255)))
      else Failure(ParamKind)
    else if p.name == "lr" then Success(u.(lrParam := true))
    else if p.name == "maddr" then
      Success(u.(maddrParam := if p.value.Some? then Some(HostFrom(p.value.value)) else None))
    else Success(u.(params := u.params + [p]))
  }

  function UriHeaders(hs: seq<Param>, s: string): (r: Parse<seq<Param>>)
    ensures |r.rest| <= |s|
    decreases |s|
  {
    var (h, t) :- ParseParam(IsHdrUri, s);
    if Starts(t, '&') then UriHeaders(hs + [h], t[1..]) else Ok(hs + [h], t)
  }

  function BareUri(scheme: Scheme, user: Option<UserInfo>, hostPort: HostPort): Uri {
    Uri(scheme, user, hostPort, None, None, None, None, false, None, [], None)
  }

  function ParseUri(withParams: bool, s: string): (r: Parse<Uri>)
    ensures |r.rest| <= |s|
  {
    var (scheme, t) :- ParseScheme(s);
    var (user, t) :- ParseUserInfo(t);
    var (hostPort, t) :- ParseHostPort(t);
    var u := BareUri(scheme, user, hostPort);
    if !withParams then Ok(u, t)
    else
      var (u, t) :- ParamLoop(IsParam, SetUriParam, u, SkipWs(t));
      if Starts(t, '?') then
        var (hs, t) :- UriHeaders([], t[1..]);
        Ok(u.(headers := Some(hs)), t)
      else Ok(u, t)
  }

  function ParseDisplayName(s: string): (r: Parse<Option<string>>)
    ensures |r.rest| <= |s|
  {
    if Starts(s, '"') then
      var n := Span(NotQuote, s[1..]);
      var (_, t) :- NextByte(s[1..][n..]);
      if ValidUtf8(s[1..][..n]) then Ok(Some(s[1..][..n]), t) else Err(InvalidUtf8, t)
    else if Starts(s, '<') then Ok(None, s)
    else
      var n := Span(IsToken, s);
      Ok(Some(s[..n]), SkipWs(s[n..]))
  }

  function ParseNameAddr(s: string): (r: Parse<NameAddr>)
    ensures |r.rest| <= |s|
  {
    var (display, t) :- ParseDisplayName(SkipWs(s));
    var (_, t) :- MustRead('<', SkipWs(t));
    var (uri, t) :- ParseUri(true, t);
    var (_, t) :- MustRead('>', t);
    Ok(NameAddr(display, uri), t)
  }

  function ParseSipUri(withParams: bool, s: string): (r: Parse<SipUri>)
    ensures |r.rest| <= |s|
  {
    var s := SkipWs(s);
    if Starts(s, '"') || Starts(s, '<') then
      var (n, t) :- ParseNameAddr(s);
      Ok(Named(n), t)
    else
      var word := s[..Span(InSchemeOrDisplay, s)];
      if word == "sip" || word == "sips" then
        var (u, t) :- ParseUri(withParams, s);
        Ok(PlainUri(u), t)
      else
        var (n, t) :- ParseNameAddr(s);
        Ok(Named(n), t)
  }

  function ParseSipVersion(s: string): (r: Parse<()>)
    ensures |r.rest| <= |s|
  {
    MustScan("SIP/2.0", s).As(VersionKind)
  }

  /** The name of a header, its colon and the blanks around it. */
  function ParseHeaderName(s: string): (r: Parse<string>)
    ensures |r.rest| <= |s| && (r.Ok? ==> |r.rest| < |s|)
  {
    var n := Span(IsToken, s);
    var (_, t) :- MustRead(':', SkipWs(s[n..]));
    Ok(s[..n], SkipWs(t))
  }

  /** What one parameter does to the Via. */
  function SetViaParam(v: Via, p: Param): Result<Via, Kind> {
    if p.name == "branch" then Success(v.(branch := p.value))
    else if p.name == "ttl" then
      if p.value.None? then Success(v.(ttl := None))
      else if ParseUnsigned(p.value.value, 255).Some? then Success(v.(ttl := ParseUnsigned(p.value.value, 255)))
      else Failure(ParamKind)
    else if p.name == "maddr" then
      Success(v.(maddr := if p.value.Some? then Some(HostFrom(p.value.value)) else None))
    else if p.name == "received" then
      if p.value.None? then Success(v.(received := None))
      else if ParseIp(p.value.value).Some? then Success(v.(received := ParseIp(p.value.value)))
      else Failure(ParamKind)
    else if p.name == "rport" then
      if p.value.None? || p.value.value == "" then Success(v.(rport := Some(None)))
      else if ParseUnsigned(p.value.value, 0xFFFF).Some? then
        Success(v.(rport := Some(ParseUnsigned(p.value.value, 0xFFFF))))
      else Failure(PortKind)
    else Success(v.(params := v.params + [p]))
  }

  function ParseComment(s: string): (r: Parse<Option<string>>)
    ensures |r.rest| <= |s|
  {
    if !Starts(s, '(') then Ok(None, s)
    else
      var n := Span(NotParen, s[1..]);
      var (_, t) :- NextByte(s[1..][n..]);
      if ValidUtf8(s[1..][..n]) then Ok(Some(s[1..][..n]), t) else Err(InvalidUtf8, t)
  }

  function BareVia(transport: Transport, sentBy: HostPort): Via {
    Via(transport, sentBy, None, None, None, None, None, None, [])
  }

  function ParseViaTransport(s: string): (r: Parse<Transport>)
    ensures |r.rest| <= |s|
  {
    var n := Span(IsToken, s);
    if TransportFrom(s[..n]).Some? then Ok(TransportFrom(s[..n]).value, s[n..]) else Err(TransportKind, s[n..])
  }

  function ParseVia(s: string): (r: Parse<Via>)
    ensures |r.rest| <= |s|
  {
    var (_, t) :- ParseSipVersion(s);
    var (_, t) :- NextByte(t);
    var (transport, t) :- ParseViaTransport(t);
    var (sentBy, t) :- ParseHostPort(SkipWs(t));
    var (v, t) :- ParamLoop(IsViaParam, SetViaParam, BareVia(transport, sentBy), SkipWs(t));
    var (comment, t) :- ParseComment(t);
    Ok(v.(comment := comment), t)
  }
}
