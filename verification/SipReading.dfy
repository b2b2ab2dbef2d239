/** Lemmas on reading back what was written, shared by the round trips of URIs and Via headers. */
module SipReading {
  import opened Wrappers
  import opened Text
  import opened Parsing
  import opened Messages
  import opened SipValues
  import opened SipGrammar

  lemma AllConcat(p: char -> bool, a: string, b: string)
    ensures All(p, a + b) <==> All(p, a) && All(p, b)
  {
    assert forall i :: 0 <= i < |a| ==> (a + b)[i] == a[i];
    assert forall i :: 0 <= i < |b| ==> (a + b)[|a| + i] == b[i];
  }

  lemma OctetReads(n: nat)
    requires n <= 255
    ensures '.' !in Decimal(n) && All(IsHost, Decimal(n)) && ParseOctet(Decimal(n)) == Some(n)
  {
    DecimalValue(n);
    SpanIs(IsDigit, Decimal(n), "");
    assert Decimal(n) + "" == Decimal(n);
  }

  predicate IsV6Host(h: Host) { h.IpAddr? && h.ip.V6? }

  predicate ValidIp(ip: Ip) {
    match ip
    case V4(a, b, c, d) => a <= 255 && b <= 255 && c <= 255 && d <= 255
    case V6(text) => ParseIp(text) == Some(ip)
  }

  lemma V4Splits(a: string, b: string, c: string, d: string)
    requires '.' !in a && '.' !in b && '.' !in c && '.' !in d
    ensures Split('.', a + "." + (b + "." + (c + "." + d))) == [a, b, c, d]
  {
    SplitFirst('.', a, b + "." + (c + "." + d));
    SplitFirst('.', b, c + "." + d);
    SplitFirst('.', c, d);
    SplitNone('.', d);
  }

  lemma V4Chars(a: string, b: string, c: string, d: string)
    requires All(IsHost, a) && All(IsHost, b) && All(IsHost, c) && All(IsHost, d)
    ensures All(IsHost, a + "." + (b + "." + (c + "." + d)))
  {
    AllConcat(IsHost, c, "." + d);
    AllConcat(IsHost, b, "." + (c + "." + d));
    AllConcat(IsHost, a, "." + (b + "." + (c + "." + d)));
  }

  /** An address reads as itself; an IPv4 address is written with the characters of a host. */
  lemma IpReads(ip: Ip)
    requires ValidIp(ip)
    ensures ParseIp(IpText(ip)) == Some(ip)
    ensures ip.V4? ==> All(IsHost, IpText(ip)) && IpText(ip) != ""
  {
    if ip.V4? {
      hide Split, ParseOctet, IsV6Text, Decimal, All;
      OctetReads(ip.a);
      OctetReads(ip.b);
      OctetReads(ip.c);
      OctetReads(ip.d);
      V4Splits(Decimal(ip.a), Decimal(ip.b), Decimal(ip.c), Decimal(ip.d));
      V4Chars(Decimal(ip.a), Decimal(ip.b), Decimal(ip.c), Decimal(ip.d));
    }
  }

  /** A host whose text, made of the characters in `p`, reads as that host. */
  ghost predicate ValidHost(p: char -> bool, h: Host) {
    if h.HostName? then All(p, h.name) && ParseIp(h.name).None? else ValidIp(h.ip)
  }

  lemma HostReads(p: char -> bool, h: Host)
    requires ValidHost(p, h)
    ensures HostFrom(HostText(h)) == h
  {
    if h.IpAddr? { IpReads(h.ip); }
  }

  /** The text of an address in characters that parameters may have. */
  lemma IpChars(ip: Ip)
    requires ValidIp(ip)
    ensures All(IsParam, IpText(ip)) && All(IsViaParam, IpText(ip))
  {
    IpReads(ip);
    if ip.V6? {
      var n := Span(IsHexGroup, ip.text);
      assert ParseV4(ip.text).None?;
      assert ip.text[..n] == ip.text;
    }
  }

  lemma HostChars(p: char -> bool, h: Host)
    requires ValidHost(p, h) && (p == IsParam || p == IsViaParam)
    ensures All(p, HostText(h))
  {
    if h.IpAddr? { IpChars(h.ip); }
  }

  /** A name and, if there is one, a value made of the characters in `p`. */
  ghost predicate Written(p: char -> bool, x: Param) {
    All(p, x.name) && (x.value.Some? ==> All(p, x.value.value))
  }

  /** Characters that are not in a parameter, so that each parameter ends where it should. */
  predicate Separates(p: char -> bool) {
    !p(' ') && !p('\t') && !p('=') && !p('"') && !p(';')
  }

  predicate Ends(p: char -> bool, more: string) {
    more == "" || (!p(more[0]) && more[0] != '=' && more[0] != '"')
  }

  function Bare(x: Param): string { x.name + if x.value.Some? then "=" + x.value.value else "" }

  lemma ParamReads(p: char -> bool, x: Param, more: string)
    requires Separates(p) && Written(p, x) && Ends(p, more)
    requires x.name == "" && x.value.None? ==> more == "" || !IsSpace(more[0])
    ensures ParseParam(p, Bare(x) + more) == Ok(x, more)
  {
    if x.value.None? { FlagReads(p, x.name, more); } else { ValuedReads(p, x.name, x.value.value, more); }
  }

  lemma FlagReads(p: char -> bool, name: string, more: string)
    requires Separates(p) && All(p, name) && Ends(p, more) && (name == "" ==> more == "" || !IsSpace(more[0]))
    ensures ParseParam(p, Bare(Param(name, None)) + more) == Ok(Param(name, None), more)
  {
    var s := name + more;
    assert Bare(Param(name, None)) + more == s;
    assert name != "" ==> s[0] == name[0];
    SkipNoWs(s);
    SpanIs(p, name, more);
  }

  lemma ValuedReads(p: char -> bool, name: string, value: string, more: string)
    requires Separates(p) && All(p, name) && All(p, value) && Ends(p, more)
    ensures ParseParam(p, Bare(Param(name, Some(value))) + more) == Ok(Param(name, Some(value)), more)
  {
    var tail := "=" + (value + more);
    BareIs(name, value, more);
    NameStarts(p, name, tail);
    SpanIs(p, name, tail);
    assert tail[1..] == value + more;
    ValueReads(p, value, more);
    hide Bare, All, Span, SkipWs, ParseParamValue;
  }

  lemma NameStarts(p: char -> bool, name: string, tail: string)
    requires Separates(p) && All(p, name) && tail != "" && !IsSpace(tail[0])
    ensures SkipWs(name + tail) == name + tail
  {
    assert name != "" ==> (name + tail)[0] == name[0];
    hide SkipWs;
    SkipNoWs(name + tail);
  }

  lemma ValueReads(p: char -> bool, value: string, more: string)
    requires Separates(p) && All(p, value) && Ends(p, more)
    ensures ParseParamValue(p, value + more) == Ok(value, more)
  {
    assert value != "" ==> (value + more)[0] == value[0];
    SpanIs(p, value, more);
    hide All, Span, ValidUtf8;
  }

  lemma BareIs(name: string, value: string, more: string)
    ensures Bare(Param(name, Some(value))) + more == name + ("=" + (value + more))
  {
  }

  /** The parameters put into a value one after the other. */
  function PutAll<T>(put: (T, Param) -> Result<T, Kind>, v: T, ps: seq<Param>): Result<T, Kind>
    decreases |ps|, 0
  {
    if ps == [] then Success(v) else PutFrom(put, put(v, ps[0]), ps[1..])
  }

  function PutFrom<T>(put: (T, Param) -> Result<T, Kind>, r: Result<T, Kind>, ps: seq<Param>): Result<T, Kind>
    decreases |ps|, 1
  {
    if r.Failure? then r else PutAll(put, r.value, ps)
  }

  lemma PutOptional<T>(put: (T, Param) -> Result<T, Kind>, v: T, name: string, value: Option<string>, tail: seq<Param>)
    ensures PutAll(put, v, Optional(name, value) + tail)
         == if value.None? then PutAll(put, v, tail) else PutFrom(put, put(v, Param(name, value)), tail)
  {
    var ps := Optional(name, value) + tail;
    if value.None? { assert ps == tail; } else { assert ps[1..] == tail; }
  }

  ghost predicate AllIn(p: char -> bool, value: Option<string>) { value.Some? ==> All(p, value.value) }

  lemma OptionalWritten(p: char -> bool, name: string, value: Option<string>, tail: seq<Param>)
    requires All(p, name) && AllIn(p, value)
    requires forall x :: x in tail ==> Written(p, x)
    ensures forall x :: x in Optional(name, value) + tail ==> Written(p, x)
  {
  }

  /** A parameter without name and value does not keep the blanks behind it from being skipped. */
  lemma NamelessReads(p: char -> bool, tail: string)
    requires Ends(p, SkipWs(tail))
    ensures ParseParam(p, tail) == Ok(Param("", None), SkipWs(tail)) && SkipWs(SkipWs(tail)) == SkipWs(tail)
  {
    var u := SkipWs(tail);
    assert u != "" ==> !IsSpace(u[0]);
    SkipNoWs(u);
    SpanIs(p, "", u);
    assert "" + u == u;
  }

  /** What may stand behind written parameters, as far as the next character that is not blank. */
  predicate EndsParams(p: char -> bool, more: string) {
    Ends(p, more) && Ends(p, SkipWs(more)) && !Starts(SkipWs(more), ';')
  }

  lemma ParamStep<T>(p: char -> bool, put: (T, Param) -> Result<T, Kind>, v: T, x: Param, tail: string)
    requires Separates(p) && Written(p, x) && put(v, x).Success?
    requires Ends(p, tail) && (x == Param("", None) ==> Ends(p, SkipWs(tail)))
    ensures ParamLoop(p, put, v, ParamText(x) + tail) == ParamLoop(p, put, put(v, x).value, SkipWs(tail))
  {
    hide Written, Separates, Ends, ParseParam, SkipWs, All;
    var s := ParamText(x) + tail;
    assert s == [';'] + (Bare(x) + tail) by { hide ParamLoop; }
    assert s[1..] == Bare(x) + tail;
    if x == Param("", None) {
      NamelessReads(p, tail);
      assert Bare(x) + tail == tail;
    } else {
      ParamReads(p, x, tail);
    }
    hide Bare, ParamText;
  }

  /** A list ends with a parameter that has neither name nor value, behind whose semicolon blanks are skipped. */
  predicate EndsNameless(ps: seq<Param>) { ps != [] && ps[|ps| - 1] == Param("", None) }

  /** The parameter loop takes written parameters one after the other, and goes on with what is behind them. */
  lemma {:induction false} ParamLoopTakes<T>(p: char -> bool, put: (T, Param) -> Result<T, Kind>, v: T, ps: seq<Param>,
                                             more: string)
    requires Separates(p) && (forall x :: x in ps ==> Written(p, x))
    requires Ends(p, more) && (EndsNameless(ps) ==> Ends(p, SkipWs(more)))
    requires PutAll(put, v, ps).Success?
    ensures ParamLoop(p, put, v, SkipWs(ParamsText(ps) + more)) == ParamLoop(p, put, PutAll(put, v, ps).value, SkipWs(more))
    decreases |ps|
  {
    if ps == [] {
      assert ParamsText(ps) + more == more;
    } else {
      hide Separates, Ends, Bare, ParseParam, ParamLoop, SkipWs, Written, PutAll, ParamsText;
      var tail := ParamsText(ps[1..]) + more;
      assert ps[0] in ps;
      PutAllStep(put, v, ps);
      ParamsTextStep(ps, more);
      ParamsEnd(p, ps[1..], more);
      ParamStep(p, put, v, ps[0], tail);
      SkipNoWs(ParamsText(ps) + more);
      ParamLoopTakes(p, put, put(v, ps[0]).value, ps[1..], more);
    }
  }

  lemma PutAllStep<T>(put: (T, Param) -> Result<T, Kind>, v: T, ps: seq<Param>)
    requires ps != [] && PutAll(put, v, ps).Success?
    ensures put(v, ps[0]).Success? && PutAll(put, v, ps) == PutAll(put, put(v, ps[0]).value, ps[1..])
  {
  }

  lemma ParamsTextStep(ps: seq<Param>, more: string)
    requires ps != []
    ensures ParamsText(ps) + more == ParamText(ps[0]) + (ParamsText(ps[1..]) + more)
    ensures !IsSpace((ParamsText(ps) + more)[0])
    ensures ps[1..] == [] ==> ParamsText(ps[1..]) + more == more
  {
    var first, later := ParamText(ps[0]), ParamsText(ps[1..]);
    assert ParamsText(ps) == first + later && first[0] == ';';
    hide ParamsText, ParamText;
    Regroup(first, later, more);
  }

  lemma ParamsEnd(p: char -> bool, ps: seq<Param>, more: string)
    requires Separates(p) && Ends(p, more)
    ensures var tail := ParamsText(ps) + more; Ends(p, tail) && (ps != [] ==> Ends(p, SkipWs(tail)))
  {
    if ps == [] { assert ParamsText(ps) + more == more; } else { SkipNoWs(ParamsText(ps) + more); }
  }

  /** The parameter loop on written parameters does what they do one after the other. */
  lemma ParamLoopReads<T>(p: char -> bool, put: (T, Param) -> Result<T, Kind>, v: T, ps: seq<Param>, more: string)
    requires Separates(p) && (forall x :: x in ps ==> Written(p, x)) && EndsParams(p, more)
    requires PutAll(put, v, ps).Success?
    ensures ParamLoop(p, put, v, SkipWs(ParamsText(ps) + more)) == Ok(PutAll(put, v, ps).value, SkipWs(more))
  {
    hide Separates, Ends, SkipWs, Written, ParamsText, PutAll;
    ParamLoopTakes(p, put, v, ps, more);
  }

  lemma MethodReads(m: Method)
    ensures MethodFrom(MethodText(m)) == m
  {
  }

  lemma MethodChars(m: Method)
    ensures All(IsParam, MethodText(m))
  {
  }

  lemma TransportReads(t: Transport)
    ensures TransportFrom(LowerCase(t)) == Some(t) && TransportFrom(UpperCase(t)) == Some(t)
  {
    hide TransportFrom;
    TransportKnown(t, LowerCase(t));
    TransportKnown(t, UpperCase(t));
  }

  lemma TransportChars(t: Transport)
    ensures All(IsParam, LowerCase(t)) && All(IsToken, UpperCase(t))
  {
  }

  lemma TransportKnown(t: Transport, s: string)
    requires s == LowerCase(t) || s == UpperCase(t)
    ensures TransportFrom(s) == Some(t)
  {
    match t
    case Udp => assert SameIgnoringCase(s, "udp");
    case Tcp => assert SameIgnoringCase(s, "tcp") && ToLower(s[0]) != 'u';
    case Ws => assert SameIgnoringCase(s, "ws");
    case Wss => assert SameIgnoringCase(s, "wss") && ToLower(s[0]) == 'w' != ToLower("udp"[0]) && 'w' != ToLower("tcp"[0]);
    case Tls => assert SameIgnoringCase(s, "tls") && ToLower(s[1]) == 'l' != ToLower("udp"[1])
                       && 'l' != ToLower("tcp"[1]) && 'l' != ToLower("wss"[1]);
    case Sctp => assert SameIgnoringCase(s, "sctp");
  }

  lemma DecimalChars(n: nat)
    ensures All(IsParam, Decimal(n)) && All(IsViaParam, Decimal(n))
  {
    DecimalValue(n);
  }

  predicate ValidPort(port: Option<nat>) { port.Some? ==> port.value <= 0xFFFF }

  /** Behind a host and its port: the end, or a character of neither. */
  predicate EndsHost(more: string) { more == "" || (!IsHost(more[0]) && more[0] != ':') }

  lemma ParamsAfterHost(ps: seq<Param>, more: string)
    requires EndsHost(more)
    ensures EndsHost(ParamsText(ps) + more)
  {
    if ps == [] { assert ParamsText(ps) + more == more; }
  }

  lemma PortReads(port: Option<nat>, more: string)
    requires ValidPort(port) && EndsHost(more)
    ensures ParsePort((if port.Some? then ":" + Decimal(port.value) else "") + more) == Ok(port, more)
  {
    if port.Some? {
      var s := ":" + Decimal(port.value) + more;
      assert s[1..] == Decimal(port.value) + more;
      ScanDecimal(port.value, 0xFFFF, more);
    } else {
      assert "" + more == more;
    }
  }

  /** A name or an IPv4 address, with or without a port, reads as itself. */
  lemma HostPortReads(hp: HostPort, more: string)
    requires ValidHost(IsHost, hp.host) && HostText(hp.host) != "" && !IsV6Host(hp.host)
    requires ValidPort(hp.port) && EndsHost(more)
    ensures ParseHostPort(HostPortText(hp) + more) == Ok(hp, more)
  {
    hide ParseHost, ParsePort, ValidHost, EndsHost, HostText, Decimal;
    var port := if hp.port.Some? then ":" + Decimal(hp.port.value) else "";
    Regroup(HostText(hp.host), port, more);
    PortEndsHost(hp.port, more);
    HostNameReads(hp.host, port + more);
    PortReads(hp.port, more);
  }

  lemma PortEndsHost(port: Option<nat>, more: string)
    requires EndsHost(more)
    ensures var s := (if port.Some? then ":" + Decimal(port.value) else "") + more; s == "" || !IsHost(s[0])
  {
    hide Decimal;
    if port.None? { assert "" + more == more; }
  }

  lemma HostNameReads(h: Host, more: string)
    requires ValidHost(IsHost, h) && HostText(h) != "" && !IsV6Host(h) && (more == "" || !IsHost(more[0]))
    ensures ParseHost(HostText(h) + more) == Ok(h, more)
  {
    HostReads(IsHost, h);
    if h.IpAddr? { IpReads(h.ip); }
    assert All(IsHost, HostText(h));
    hide ParseIp, IpText, HostFrom, HostText, ValidHost;
    assert (HostText(h) + more)[0] == HostText(h)[0];
    SpanIs(IsHost, HostText(h), more);
  }

  /** An IPv6 address is written without brackets, so whatever is read in its place is not that address. */
  lemma V6HostMisread(ip: Ip, more: string)
    requires ValidIp(ip) && ip.V6?
    ensures var r := ParseHostPort(ip.text + more); r.Ok? ==> !IsV6Host(r.value.host)
  {
    V6TextIs(ip);
    assert (ip.text + more)[0] == ip.text[0];
    hide ParseHost, ParsePort, IsV6Text, IsHexGroup;
    HostWithoutColon(ip.text + more);
  }

  lemma V6TextIs(ip: Ip)
    requires ValidIp(ip) && ip.V6?
    ensures ip.text != "" && ip.text[0] != '['
  {
    assert ParseV4(ip.text).None?;
    hide ParseV4;
    assert ip.text[..Span(IsHexGroup, ip.text)] == ip.text;
  }

  /** Without brackets a host ends at a colon, and so is not an IPv6 address. */
  lemma HostWithoutColon(s: string)
    requires !Starts(s, '[')
    ensures var r := ParseHost(s); r.Ok? ==> !IsV6Host(r.value)
  {
    hide ParseV4;
    assert ':' !in s[..Span(IsHost, s)];
    V4IsNotV6(s[..Span(IsHost, s)]);
  }

  lemma V4IsNotV6(s: string)
    ensures ParseV4(s).Some? ==> ParseV4(s).value.V4?
  {
    hide Split, ParseOctet;
  }

  lemma V6TextStarts(hp: HostPort, tail: string) returns (more: string)
    requires IsV6Host(hp.host)
    ensures HostPortText(hp) + tail == hp.host.ip.text + more
  {
    more := (if hp.port.Some? then ":" + Decimal(hp.port.value) else "") + tail;
  }
}
