/** What the parser for session descriptions does with each written line. */
module SdpReading {
  import opened Wrappers
  import opened Text
  import opened Parsing
  import opened Writing
  import opened SipValues
  import opened SdpValues
  import opened SdpGrammar
  import SipGrammar
  import SipReading

  predicate CleanOption(s: Option<string>) { s.Some? ==> CleanText(s.value) }

  ghost predicate ValidNet(n: NetType) { n.OtherNet? ==> All(NotWhite, n.name) && ValidUtf8(n.name) }

  ghost predicate ValidOrigin(o: Origin) {
    && All(NotWhite, o.user) && ValidUtf8(o.user) && o.sessionId <= U64_MAX && o.sessionVersion <= U64_MAX
    && ValidNet(o.netType) && SipReading.ValidIp(o.unicast)
  }

  ghost predicate ValidConnection(c: Option<Connection>) {
    c.Some? ==> ValidNet(c.value.netType) && SipReading.ValidIp(c.value.address)
  }

  ghost predicate ValidAttribute(a: Attribute) { All(IsToken, a.name) && CleanOption(a.value) }

  predicate Signed(n: int) { -I64_MAX - 1 <= n <= I64_MAX }

  predicate ValidRepeat(r: Repeat) {
    Signed(r.interval) && Signed(r.duration) && forall i :: 0 <= i < |r.offsets| ==> Signed(r.offsets[i])
  }

  predicate ValidTime(t: Time) {
    t.start <= U64_MAX && t.stop <= U64_MAX && forall i :: 0 <= i < |t.repeats| ==> ValidRepeat(t.repeats[i])
  }

  ghost predicate ValidMedia(m: Media) {
    && m.port <= 0xFFFF && (forall i :: 0 <= i < |m.formats| ==> All(IsToken, m.formats[i]))
    && CleanOption(m.title) && ValidConnection(m.connection)
    && forall i :: 0 <= i < |m.attributes| ==> ValidAttribute(m.attributes[i])
  }

  /** Numbers fit their types, texts have no line breaks, words have no blanks, and tokens are tokens. */
  ghost predicate ValidSdp(d: Sdp) {
    && ValidOrigin(d.origin) && CleanText(d.name) && CleanOption(d.information) && CleanOption(d.uri)
    && CleanOption(d.email) && CleanOption(d.phone) && ValidConnection(d.connection)
    && (forall i :: 0 <= i < |d.attributes| ==> ValidAttribute(d.attributes[i]))
    && (forall i :: 0 <= i < |d.time| ==> ValidTime(d.time[i]))
    && forall i :: 0 <= i < |d.media| ==> ValidMedia(d.media[i])
  }

  predicate PlainConnection(c: Option<Connection>) {
    c.Some? && c.value.netType.OtherNet? ==> !("IN" <= c.value.netType.name)
  }

  predicate PlainOrigin(o: Origin) { o.netType.OtherNet? ==> o.netType.name != "" && o.netType.name != "IN" }

  predicate PlainRepeat(r: Repeat) {
    r.interval >= 0 && r.duration >= 0 && forall i :: 0 <= i < |r.offsets| ==> r.offsets[i] >= 0
  }

  predicate PlainTime(t: Time) { forall i :: 0 <= i < |t.repeats| ==> PlainRepeat(t.repeats[i]) }

  predicate Starting(line: string) { |line| >= 2 && !IsNewline(line[0]) && line[1] == '=' }

  /** Reading the lines takes the description from `d` to `e`, whatever lines follow. */
  ghost predicate Reads(d: Sdp, lines: seq<string>, e: Sdp) {
    && (forall i :: 0 <= i < |lines| ==> Starting(lines[i]))
    && forall rest :: Begins(rest) ==> Fields(d, Lines(lines) + rest) == Fields(e, rest)
  }

  lemma ReadsNothing(d: Sdp)
    ensures Reads(d, [], d)
  {
    forall rest: string ensures Lines([]) + rest == rest {}
  }

  lemma LinesBegin(lines: seq<string>, rest: string)
    requires (forall i :: 0 <= i < |lines| ==> Starting(lines[i])) && Begins(rest)
    ensures Begins(Lines(lines) + rest)
  {
    if lines == [] { assert Lines(lines) + rest == rest; }
  }

  lemma ReadsBoth(d: Sdp, a: seq<string>, e: Sdp, b: seq<string>, f: Sdp)
    requires Reads(d, a, e) && Reads(e, b, f)
    ensures Reads(d, a + b, f)
  {
    hide Fields;
    LinesConcat(a, b);
    forall rest | Begins(rest) ensures Fields(d, Lines(a + b) + rest) == Fields(f, rest) {
      LinesBegin(b, rest);
      assert Lines(a + b) + rest == Lines(a) + (Lines(b) + rest);
    }
  }

  lemma ReadsOn(d: Sdp, lines: seq<string>, e: Sdp, rest: string)
    requires Reads(d, lines, e) && Begins(rest)
    ensures Fields(d, Lines(lines) + rest) == Fields(e, rest)
  {
    hide Fields, Lines;
  }

  lemma FieldsOnLine(d: Sdp, line: string, rest: string)
    requires Starting(line)
    ensures var p := Content(d, line[0], line[2..] + (CRLF + rest));
            Fields(d, Lines([line]) + rest)
            == if p.Err? then Err(p.kind, p.rest) else Fields(p.value, SkipNewlines(p.rest))
  {
    hide Content;
    var s := Lines([line]) + rest;
    assert Lines([line]) == line + CRLF by { assert [line][1..] == []; }
    assert s == line + (CRLF + rest);
    assert s[1..][1..] == line[2..] + (CRLF + rest);
  }

  lemma LineReads(d: Sdp, line: string, e: Sdp)
    requires Starting(line)
    requires forall rest :: Content(d, line[0], line[2..] + (CRLF + rest)) == Ok(e, CRLF + rest)
    ensures Reads(d, [line], e)
  {
    hide Content, Fields, SkipNewlines, Lines, Begins;
    forall rest | Begins(rest) ensures Fields(d, Lines([line]) + rest) == Fields(e, rest) {
      FieldsOnLine(d, line, rest);
      assert Content(d, line[0], line[2..] + (CRLF + rest)) == Ok(e, CRLF + rest);
      NewlineSkipped(rest);
    }
  }

  lemma VersionReads(d: Sdp)
    ensures Reads(d, ["v=0"], d)
  {
    forall rest ensures Content(d, 'v', "v=0"[2..] + (CRLF + rest)) == Ok(d, CRLF + rest) {
      var s := "v=0"[2..] + (CRLF + rest);
      assert s[0] == '0' && s[1..] == CRLF + rest;
    }
    LineReads(d, "v=0", d);
  }

  lemma NameReads(d: Sdp, name: string)
    requires CleanText(name)
    ensures Reads(d, ["s=" + name], d.(name := name))
  {
    var line := "s=" + name;
    assert line[2..] == name;
    forall rest ensures Content(d, 's', line[2..] + (CRLF + rest)) == Ok(d.(name := name), CRLF + rest) {
      ReadLineReads(name, CRLF + rest);
    }
    LineReads(d, line, d.(name := name));
  }

  /** What an optional text line sets. */
  function WithText(d: Sdp, field: char, text: string): Sdp {
    if field == 'i' then WithInformation(d, text) else if field == 'u' then d.(uri := Some(text))
    else if field == 'e' then d.(email := Some(text)) else d.(phone := Some(text))
  }

  lemma OptionalReads(d: Sdp, field: char, text: Option<string>)
    requires CleanOption(text) && field in "iuep"
    ensures Reads(d, OptionalLine([field, '='], text), if text.Some? then WithText(d, field, text.value) else d)
  {
    if text.None? {
      ReadsNothing(d);
    } else {
      var line := [field, '='] + text.value;
      assert line[2..] == text.value;
      var e := WithText(d, field, text.value);
      forall rest ensures Content(d, line[0], line[2..] + (CRLF + rest)) == Ok(e, CRLF + rest) {
        ReadLineReads(text.value, CRLF + rest);
      }
      LineReads(d, line, e);
    }
  }

  /** What each field does with what its parser has read. */
  lemma ContentIs(d: Sdp, s: string)
    ensures Content(d, 'a', s) == Put(ParseAttribute(s), (a: Attribute) => WithAttribute(d, a))
    ensures Content(d, 'o', s) == Put(ParseOrigin(s), (o: Origin) => d.(origin := o))
    ensures Content(d, 'c', s) == Put(ParseConnection(s), (c: Connection) => WithConnection(d, c))
    ensures Content(d, 't', s) == Put(ParseTime(s), (t: Time) => d.(time := d.time + [t]))
    ensures Content(d, 'm', s) == Put(ParseMedia(s), (m: Media) => d.(media := d.media + [m]))
    ensures d.time != [] ==>
              Content(d, 'r', s) == if ParseRepeat(s).Ok? then Ok(WithRepeat(d, ParseRepeat(s).value), ParseRepeat(s).rest)
                                    else Err(ParseRepeat(s).kind, ParseRepeat(s).rest)
  {
    hide ParseAttribute, ParseOrigin, ParseConnection, ParseMedia, ParseTime, ParseRepeat, ParseBandwidth, ReadLine,
      WithAttribute, WithConnection, WithRepeat, WithInformation;
  }

  function Put<T>(p: Parse<T>, f: T -> Sdp): Parse<Sdp> { if p.Ok? then Ok(f(p.value), p.rest) else Err(p.kind, p.rest) }

  /** A word, the blank behind it, and something that is not blank. */
  lemma WordReads(p: char -> bool, word: string, more: string)
    requires All(p, word) && ValidUtf8(word) && !p(' ') && more != "" && !IsSpace(more[0])
    ensures TextWhile(p, word + (" " + more)) == Ok(word, " " + more) && SkipWs(" " + more) == more
  {
    SpanIs(p, word, " " + more);
    SpanIs(IsSpace, " ", more);
  }

  lemma NumberReads(n: nat, max: nat, more: string)
    requires n <= max && more != "" && !IsSpace(more[0])
    ensures ScanNumber(max, Decimal(n) + (" " + more)) == Ok(n, " " + more) && SkipWs(" " + more) == more
    ensures !IsSpace((Decimal(n) + (" " + more))[0])
  {
    ScanDecimal(n, max, " " + more);
    SpanIs(IsSpace, " ", more);
    DecimalValue(n);
  }

  lemma AddressReads(p: char -> bool, ip: Ip, rest: string)
    requires SipReading.ValidIp(ip) && (p == InAddress || p == InLine)
    ensures ParseAddress(p, IpText(ip) + (CRLF + rest)) == Ok(ip, CRLF + rest)
    ensures IpText(ip) != "" && !IsSpace(IpText(ip)[0])
  {
    AddressText(ip);
    SipReading.IpReads(ip);
    SkipNoWs(CRLF + rest);
    hide SipGrammar.ParseIp, IpText, ValidUtf8, SipReading.ValidIp, SkipWs, TextWhile;
    TextReads(p, IpText(ip), CRLF + rest);
  }

  lemma TextReads(p: char -> bool, text: string, more: string)
    requires All(p, text) && ValidUtf8(text) && (more == "" || !p(more[0]))
    ensures TextWhile(p, text + more) == Ok(text, more)
  {
    hide ValidUtf8;
    SpanIs(p, text, more);
  }

  lemma AddressText(ip: Ip)
    requires SipReading.ValidIp(ip)
    ensures var text := IpText(ip);
            text != "" && !IsSpace(text[0]) && All(InAddress, text) && All(InLine, text) && ValidUtf8(text)
  {
    SipReading.IpReads(ip);
    SipReading.IpChars(ip);
    AddressChars(IpText(ip));
    assert ip.V6? ==> ':' in ip.text;
    hide SipGrammar.ParseIp, ValidUtf8;
    assert InAddress(IpText(ip)[0]);
  }

  lemma AddressChars(text: string)
    requires All(SipGrammar.IsParam, text)
    ensures All(InAddress, text) && All(InLine, text) && ValidUtf8(text)
  {
    AsciiUtf8(text);
  }

  lemma AddrTypeReads(a: AddrType, more: string)
    requires more != "" && !IsSpace(more[0])
    ensures ParseAddrType(AddrText(a) + (" " + more)) == Ok(a, " " + more) && SkipWs(" " + more) == more
    ensures PeekAddrType(AddrText(a) + (" " + more)) == Ok(a, " " + more)
    ensures !IsSpace((AddrText(a) + (" " + more))[0])
  {
    AsciiUtf8(AddrText(a));
    WordReads(NotSpace, AddrText(a), more);
    var s := AddrText(a) + (" " + more);
    assert s[..3] == AddrText(a) && s[3..] == " " + more;
  }

  lemma OriginNetReads(n: NetType, more: string)
    requires ValidNet(n) && (n.OtherNet? ==> n.name != "" && n.name != "IN") && more != "" && !IsSpace(more[0])
    ensures ParseOriginNet(NetText(n) + (" " + more)) == Ok(n, " " + more) && SkipWs(" " + more) == more
    ensures !IsSpace((NetText(n) + (" " + more))[0])
  {
    AsciiUtf8("IN");
    assert All(NotSpace, NetText(n));
    WordReads(NotSpace, NetText(n), more);
  }

  lemma OriginContent(o: Origin, rest: string)
    requires ValidOrigin(o) && PlainOrigin(o)
    ensures ParseOrigin(OriginLine(o)[2..] + (CRLF + rest)) == Ok(o, CRLF + rest)
  {
    var end := IpText(o.unicast) + (CRLF + rest);
    var s5 := AddrText(o.addrType) + (" " + end);
    var s4 := NetText(o.netType) + (" " + s5);
    var s3 := Decimal(o.sessionVersion) + (" " + s4);
    var s2 := Decimal(o.sessionId) + (" " + s3);
    AddressReads(InAddress, o.unicast, rest);
    AddrTypeReads(o.addrType, end);
    OriginNetReads(o.netType, s5);
    NumberReads(o.sessionVersion, U64_MAX, s4);
    NumberReads(o.sessionId, U64_MAX, s3);
    WordReads(NotWhite, o.user, s2);
    OriginTextIs(o, rest);
    hide ParseAddress, ParseAddrType, ParseOriginNet, ScanNumber, TextWhile, SkipWs, OriginLine, ValidOrigin, Decimal, IpText,
      AddrText, NetText;
  }

  lemma OriginTextIs(o: Origin, rest: string)
    ensures OriginLine(o)[2..] + (CRLF + rest)
         == o.user + (" " + (Decimal(o.sessionId) + (" " + (Decimal(o.sessionVersion) + (" " + (NetText(o.netType)
          + (" " + (AddrText(o.addrType) + (" " + (IpText(o.unicast) + (CRLF + rest)))))))))))
  {
    hide Decimal, NetText, AddrText, IpText;
  }

  lemma OriginReads(d: Sdp, o: Origin)
    requires ValidOrigin(o) && PlainOrigin(o)
    ensures Reads(d, [OriginLine(o)], d.(origin := o))
  {
    var line, e := OriginLine(o), d.(origin := o);
    assert |line| >= 2 && line[0] == 'o' && line[1] == '=';
    hide Content, ParseOrigin, OriginLine, ValidOrigin, PlainOrigin, Reads;
    forall rest ensures Content(d, line[0], line[2..] + (CRLF + rest)) == Ok(e, CRLF + rest) {
      OriginContent(o, rest);
      ContentIs(d, line[2..] + (CRLF + rest));
    }
    LineReads(d, line, e);
  }

  lemma ConnectionNetReads(n: NetType, more: string)
    requires ValidNet(n) && (n.OtherNet? ==> !("IN" <= n.name)) && more != "" && !IsSpace(more[0])
    ensures ParseConnectionNet(NetText(n) + (" " + more)) == Ok(n, " " + more) && SkipWs(" " + more) == more
  {
    SkipOneBlank(more);
    if n.IN? {
      assert ("IN" + (" " + more))[..2] == "IN" && ("IN" + (" " + more))[2..] == " " + more;
    } else {
      assert All(NotBlank, n.name);
      NotTakenForIn(n.name, more);
      hide All, ValidUtf8, SkipWs;
      WordReads(NotBlank, n.name, more);
    }
  }

  lemma NotTakenForIn(name: string, more: string)
    requires !("IN" <= name)
    ensures !("IN" <= name + (" " + more))
  {
    var s := name + (" " + more);
    if |name| >= 2 {
      assert s[0] == name[0] && s[1] == name[1];
    } else if |name| == 1 {
      assert s[1] == ' ';
    } else {
      assert s[0] == ' ';
    }
  }

  lemma ConnectionContent(c: Connection, rest: string)
    requires ValidConnection(Some(c)) && PlainConnection(Some(c))
    ensures ParseConnection(ConnectionLine(c)[2..] + (CRLF + rest)) == Ok(c, CRLF + rest)
  {
    var end := IpText(c.address) + (CRLF + rest);
    AddressReads(InLine, c.address, rest);
    AddrTypeReads(c.addrType, end);
    ConnectionNetReads(c.netType, AddrText(c.addrType) + (" " + end));
    ConnectionTextIs(c, rest);
    hide ParseAddress, PeekAddrType, ParseConnectionNet, SkipWs, ConnectionLine, ValidConnection, IpText, AddrText, NetText;
  }

  lemma ConnectionTextIs(c: Connection, rest: string)
    ensures ConnectionLine(c)[2..] + (CRLF + rest)
         == NetText(c.netType) + (" " + (AddrText(c.addrType) + (" " + (IpText(c.address) + (CRLF + rest)))))
  {
    hide NetText, AddrText, IpText;
  }

  lemma ConnectionReads(d: Sdp, c: Option<Connection>)
    requires ValidConnection(c) && PlainConnection(c)
    ensures Reads(d, ConnectionLines(c), if c.Some? then WithConnection(d, c.value) else d)
  {
    if c.None? {
      ReadsNothing(d);
    } else {
      var line, e := ConnectionLine(c.value), WithConnection(d, c.value);
      assert |line| >= 2 && line[0] == 'c' && line[1] == '=';
      hide Content, ParseConnection, ConnectionLine, ValidConnection, PlainConnection, Reads, WithConnection;
      forall rest ensures Content(d, line[0], line[2..] + (CRLF + rest)) == Ok(e, CRLF + rest) {
        ConnectionContent(c.value, rest);
        ContentIs(d, line[2..] + (CRLF + rest));
      }
      LineReads(d, line, e);
    }
  }

  lemma AttributeContent(a: Attribute, rest: string)
    requires ValidAttribute(a)
    ensures ParseAttribute(AttributeLine(a)[2..] + (CRLF + rest)) == Ok(a, CRLF + rest)
  {
    if a.value.Some? { ValuedAttribute(a.name, a.value.value, rest); } else { FlagAttribute(a.name, rest); }
  }

  lemma FlagAttribute(name: string, rest: string)
    requires All(IsToken, name)
    ensures ParseAttribute(AttributeLine(Attribute(name, None))[2..] + (CRLF + rest)) == Ok(Attribute(name, None), CRLF + rest)
  {
    assert AttributeLine(Attribute(name, None))[2..] == name;
    SpanIs(IsToken, name, CRLF + rest);
  }

  lemma ValuedAttribute(name: string, value: string, rest: string)
    requires All(IsToken, name) && CleanText(value)
    ensures var a := Attribute(name, Some(value));
            ParseAttribute(AttributeLine(a)[2..] + (CRLF + rest)) == Ok(a, CRLF + rest)
  {
    var tail := ":" + (value + (CRLF + rest));
    AttributeTextIs(Attribute(name, Some(value)), rest);
    SpanIs(IsToken, name, tail);
    ReadLineReads(value, CRLF + rest);
    hide CleanText, ReadLine, AttributeLine, IsToken, All;
    assert tail[1..] == value + (CRLF + rest);
  }

  lemma AttributeTextIs(a: Attribute, rest: string)
    requires a.value.Some?
    ensures AttributeLine(a)[2..] + (CRLF + rest) == a.name + (":" + (a.value.value + (CRLF + rest)))
  {
  }

  lemma AttributeReads(d: Sdp, a: Attribute)
    requires ValidAttribute(a)
    ensures Reads(d, [AttributeLine(a)], WithAttribute(d, a))
  {
    var line, e := AttributeLine(a), WithAttribute(d, a);
    assert |line| >= 2 && line[0] == 'a' && line[1] == '=';
    hide Content, ParseAttribute, AttributeLine, ValidAttribute, Reads, WithAttribute;
    forall rest ensures Content(d, line[0], line[2..] + (CRLF + rest)) == Ok(e, CRLF + rest) {
      AttributeContent(a, rest);
      ContentIs(d, line[2..] + (CRLF + rest));
    }
    LineReads(d, line, e);
  }

  lemma TimeContent(t: Time, rest: string)
    requires t.start <= U64_MAX && t.stop <= U64_MAX
    ensures ParseTime(TimeLine(t)[2..] + (CRLF + rest)) == Ok(Time(t.start, t.stop, []), CRLF + rest)
  {
    var s := TimeLine(t)[2..] + (CRLF + rest);
    var more := Decimal(t.stop) + (CRLF + rest);
    TimeTextIs(t, rest);
    hide TimeLine, Decimal;
    ScanDecimal(t.start, U64_MAX, " " + more);
    ScanDecimal(t.stop, U64_MAX, CRLF + rest);
    assert (" " + more)[1..] == more;
    hide ScanNumber;
  }

  lemma TimeTextIs(t: Time, rest: string)
    ensures TimeLine(t)[2..] + (CRLF + rest) == Decimal(t.start) + (" " + (Decimal(t.stop) + (CRLF + rest)))
  {
    hide Decimal;
  }

  lemma TimeReads(d: Sdp, t: Time)
    requires t.start <= U64_MAX && t.stop <= U64_MAX
    ensures Reads(d, [TimeLine(t)], d.(time := d.time + [Time(t.start, t.stop, [])]))
  {
    var line, e := TimeLine(t), d.(time := d.time + [Time(t.start, t.stop, [])]);
    assert |line| >= 2 && line[0] == 't' && line[1] == '=';
    hide Content, ParseTime, TimeLine, Reads;
    forall rest ensures Content(d, line[0], line[2..] + (CRLF + rest)) == Ok(e, CRLF + rest) {
      TimeContent(t, rest);
      ContentIs(d, line[2..] + (CRLF + rest));
    }
    LineReads(d, line, e);
  }

  lemma OffsetReads(done: seq<int>, n: nat, more: string)
    requires n <= I64_MAX && more != "" && !IsDigit(more[0])
    ensures Offsets(done, " " + (Decimal(n) + more))
         == if AtLineEnd(more) then Ok(done + [n], more) else Offsets(done + [n], more)
  {
    ScanDecimal(n, I64_MAX, more);
    assert (" " + (Decimal(n) + more))[1..] == Decimal(n) + more;
    hide Decimal, ScanNumber;
  }

  lemma NoOffsetsRead(done: seq<int>, rest: string)
    ensures Offsets(done, CRLF + rest) == Ok(done, CRLF + rest)
  {
  }

  lemma LineEnds(os: seq<int>, more: string)
    requires more != "" && (if os == [] then more[0] == '\r' else more[0] == ' ')
    ensures AtLineEnd(more) <==> os == []
  {
  }

  lemma {:induction false} OffsetsRead(done: seq<int>, os: seq<int>, rest: string)
    requires forall i :: 0 <= i < |os| ==> 0 <= os[i] <= I64_MAX
    ensures Offsets(done, OffsetsText(os) + (CRLF + rest)) == Ok(done + os, CRLF + rest)
    decreases |os|
  {
    hide Decimal, OffsetsText, Offsets, AtLineEnd, IsDigit;
    OffsetsEnd(os, rest);
    if os == [] {
      NoOffsetsRead(done, rest);
      assert done + os == done;
    } else {
      var more := OffsetsText(os[1..]) + (CRLF + rest);
      OffsetsTextIs(os, rest);
      OffsetsEnd(os[1..], rest);
      LineEnds(os[1..], more);
      OffsetReads(done, os[0], more);
      assert done + [os[0]] + os[1..] == done + os;
      if os[1..] == [] {
        assert done + [os[0]] == done + os;
      } else {
        OffsetsRead(done + [os[0]], os[1..], rest);
      }
    }
  }

  lemma OffsetsTextIs(os: seq<int>, rest: string)
    requires os != [] && os[0] >= 0
    ensures OffsetsText(os) + (CRLF + rest) == " " + (Decimal(os[0]) + (OffsetsText(os[1..]) + (CRLF + rest)))
  {
    hide Decimal;
  }

  lemma OffsetsEnd(os: seq<int>, rest: string)
    ensures var more := OffsetsText(os) + (CRLF + rest);
            more != "" && !IsDigit(more[0]) && (if os == [] then more == CRLF + rest else more[0] == ' ')
  {
  }

  lemma RepeatContent(r: Repeat, rest: string)
    requires ValidRepeat(r) && PlainRepeat(r)
    ensures ParseRepeat(RepeatLine(r)[2..] + (CRLF + rest)) == Ok(r, CRLF + rest)
  {
    var tail := OffsetsText(r.offsets) + (CRLF + rest);
    var more := Decimal(r.duration) + tail;
    hide ScanNumber, Offsets, RepeatLine, Decimal, OffsetsText, IsSpace, IsDigit, SkipWs;
    RepeatTextIs(r, rest);
    OffsetsEnd(r.offsets, rest);
    OffsetsRead([], r.offsets, rest);
    assert [] + r.offsets == r.offsets;
    assert !IsDigit(' ') by { BlankIsNoDigit(); }
    DurationReads(r.duration, tail, more);
    ScanDecimal(r.interval, I64_MAX, " " + more);
  }

  lemma BlankIsNoDigit()
    ensures !IsDigit(' ')
  {
  }

  lemma DurationReads(n: nat, tail: string, more: string)
    requires n <= I64_MAX && more == Decimal(n) + tail && tail != "" && !IsDigit(tail[0])
    ensures ScanNumber(I64_MAX, more) == Ok(n, tail) && SkipWs(" " + more) == more
  {
    ScanDecimal(n, I64_MAX, tail);
    DecimalValue(n);
    assert more[0] == Decimal(n)[0];
    SpanIs(IsSpace, " ", more);
  }

  lemma RepeatTextIs(r: Repeat, rest: string)
    requires PlainRepeat(r)
    ensures RepeatLine(r)[2..] + (CRLF + rest)
         == Decimal(r.interval) + (" " + (Decimal(r.duration) + (OffsetsText(r.offsets) + (CRLF + rest))))
  {
    hide Decimal, OffsetsText;
  }

  lemma RepeatLineStarts(r: Repeat)
    ensures var line := RepeatLine(r); |line| >= 2 && line[0] == 'r' && line[1] == '='
  {
    hide SignedText, OffsetsText;
  }

  lemma RepeatReads(d: Sdp, r: Repeat)
    requires ValidRepeat(r) && PlainRepeat(r) && d.time != []
    ensures Reads(d, [RepeatLine(r)], WithRepeat(d, r))
  {
    hide Content, ParseRepeat, RepeatLine, ValidRepeat, PlainRepeat, Reads, WithRepeat;
    var line, e := RepeatLine(r), WithRepeat(d, r);
    RepeatLineStarts(r);
    forall rest ensures Content(d, line[0], line[2..] + (CRLF + rest)) == Ok(e, CRLF + rest) {
      RepeatContent(r, rest);
      ContentIs(d, line[2..] + (CRLF + rest));
    }
    LineReads(d, line, e);
  }

  lemma {:induction false} FormatsRead(done: seq<string>, fs: seq<string>, rest: string)
    requires forall i :: 0 <= i < |fs| ==> All(IsToken, fs[i])
    ensures Formats(done, FormatsText(fs) + (CRLF + rest)) == (done + fs, CRLF + rest)
    decreases |fs|
  {
    var s := FormatsText(fs) + (CRLF + rest);
    if fs == [] {
      assert s == CRLF + rest && done + fs == done;
    } else {
      var more := FormatsText(fs[1..]) + (CRLF + rest);
      assert s[1..] == fs[0] + more;
      FormatsEnd(fs[1..], rest);
      SpanIs(IsToken, fs[0], more);
      hide IsToken;
      assert done + [fs[0]] + fs[1..] == done + fs;
      if fs[1..] == [] {
        assert done + [fs[0]] == done + fs;
      } else {
        FormatsRead(done + [fs[0]], fs[1..], rest);
      }
    }
  }

  lemma FormatsEnd(fs: seq<string>, rest: string)
    ensures var more := FormatsText(fs) + (CRLF + rest);
            more != "" && !IsToken(more[0]) && (if fs == [] then more == CRLF + rest else more[0] == ' ')
  {
  }

  lemma KindReads(k: MediaType, more: string)
    requires k != Application
    ensures var s := KindText(k) + (" " + more);
            Span(IsToken, s) == |KindText(k)| && s[..|KindText(k)|] == KindText(k) && s[|KindText(k)|..] == " " + more
            && KindFrom(KindText(k)) == Some(k)
  {
    SpanIs(IsToken, KindText(k), " " + more);
  }

  lemma ProtoReads(p: SdpTransport, more: string)
    requires Starts(more, ' ')
    ensures ParseProto(ProtoText(p) + more) == Ok(p, more) && !IsSpace((ProtoText(p) + more)[0])
  {
    SpanIs(NotBlank, ProtoText(p), more);
  }

  predicate PlainLine(m: Media) { m.kind != Application && m.portCount.None? && m.formats != [] }

  lemma MediaTextIs(m: Media, rest: string)
    requires m.portCount.None?
    ensures MediaLine(m)[2..] + (CRLF + rest)
         == KindText(m.kind) + (" " + (Decimal(m.port) + (" " + (ProtoText(m.proto) + (FormatsText(m.formats) + (CRLF + rest))))))
  {
    hide KindText, Decimal, ProtoText, FormatsText;
  }

  lemma MediaContent(m: Media, rest: string)
    requires ValidMedia(m) && PlainLine(m)
    ensures ParseMedia(MediaLine(m)[2..] + (CRLF + rest)) == Ok(BareMedia(m.kind, m.port, m.proto, m.formats), CRLF + rest)
  {
    var s3 := FormatsText(m.formats) + (CRLF + rest);
    var s2 := ProtoText(m.proto) + s3;
    var s1 := Decimal(m.port) + (" " + s2);
    hide Formats, ParseProto, ScanNumber, KindText, ProtoText, FormatsText, Decimal, MediaLine, IsToken, Span, SkipWs, KindFrom;
    MediaTextIs(m, rest);
    FormatsEnd(m.formats, rest);
    FormatsRead([], m.formats, rest);
    assert [] + m.formats == m.formats;
    hide ValidMedia;
    ProtoReads(m.proto, s3);
    NumberReads(m.port, 0xFFFF, s2);
    KindReads(m.kind, s1);
    SkipOneBlank(s1);
  }

  lemma MediaLineStarts(m: Media)
    ensures var line := MediaLine(m); |line| >= 2 && line[0] == 'm' && line[1] == '='
  {
    hide KindText, Decimal, ProtoText, FormatsText;
  }

  lemma MediaLineReads(d: Sdp, m: Media)
    requires ValidMedia(m) && PlainLine(m)
    ensures Reads(d, [MediaLine(m)], d.(media := d.media + [BareMedia(m.kind, m.port, m.proto, m.formats)]))
  {
    hide Content, ParseMedia, MediaLine, ValidMedia, PlainLine, Reads, BareMedia;
    var line, e := MediaLine(m), d.(media := d.media + [BareMedia(m.kind, m.port, m.proto, m.formats)]);
    MediaLineStarts(m);
    forall rest ensures Content(d, line[0], line[2..] + (CRLF + rest)) == Ok(e, CRLF + rest) {
      MediaContent(m, rest);
      ContentIs(d, line[2..] + (CRLF + rest));
    }
    LineReads(d, line, e);
  }
}
