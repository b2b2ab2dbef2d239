/** Reading back a written session description: exactly when it gives the same value. */
module SdpRoundTrip {
  import opened Wrappers
  import opened Text
  import opened Parsing
  import opened Writing
  import opened SipValues
  import opened SdpValues
  import opened SdpGrammar
  import opened SdpReading

  predicate PlainMedia(m: Media) { PlainLine(m) && m.title.None? && m.bandwidth == [] && PlainConnection(m.connection) }

  /**
   * The caller's check: no bandwidth, no negative repeat times, no net type that would be taken for `IN` or for nothing, and
   * in each media description no title, no number of ports, at least one format and not the application type.
   */
  predicate Plain(d: Sdp) {
    && PlainOrigin(d.origin) && PlainConnection(d.connection) && d.bandwidth == []
    && (forall i :: 0 <= i < |d.time| ==> PlainTime(d.time[i]))
    && forall i :: 0 <= i < |d.media| ==> PlainMedia(d.media[i])
  }

  lemma {:induction false} SessionAttributesRead(d: Sdp, xs: seq<Attribute>)
    requires d.media == [] && forall i :: 0 <= i < |xs| ==> ValidAttribute(xs[i])
    ensures Reads(d, AttributeLines(xs), d.(attributes := d.attributes + xs))
    decreases |xs|
  {
    hide Reads, ValidAttribute, AttributeLine;
    if xs == [] {
      ReadsNothing(d);
      assert d.attributes + xs == d.attributes;
    } else {
      var e := WithAttribute(d, xs[0]);
      AttributeReads(d, xs[0]);
      SessionAttributesRead(e, xs[1..]);
      assert e.attributes + xs[1..] == d.attributes + xs;
      ReadsBoth(d, [AttributeLine(xs[0])], e, AttributeLines(xs[1..]), d.(attributes := d.attributes + xs));
    }
  }

  /** Attributes behind a media description belong to it. */
  lemma {:induction false} MediaAttributesRead(d: Sdp, m: Media, xs: seq<Attribute>)
    requires forall i :: 0 <= i < |xs| ==> ValidAttribute(xs[i])
    ensures Reads(d.(media := d.media + [m]), AttributeLines(xs), d.(media := d.media + [m.(attributes := m.attributes + xs)]))
    decreases |xs|
  {
    hide Reads, ValidAttribute, AttributeLine;
    var d0 := d.(media := d.media + [m]);
    if xs == [] {
      ReadsNothing(d0);
      assert m.attributes + xs == m.attributes;
    } else {
      var n := m.(attributes := m.attributes + [xs[0]]);
      AttributeReads(d0, xs[0]);
      LastOfMedia(d, m, n);
      assert WithAttribute(d0, xs[0]) == d.(media := d.media + [n]);
      MediaAttributesRead(d, n, xs[1..]);
      assert n.attributes + xs[1..] == m.attributes + xs;
      ReadsBoth(d0, [AttributeLine(xs[0])], d.(media := d.media + [n]), AttributeLines(xs[1..]),
        d.(media := d.media + [m.(attributes := m.attributes + xs)]));
    }
  }

  lemma LastOfMedia(d: Sdp, m: Media, n: Media)
    ensures Last(d.media + [m]) == m && SetLast(d.media + [m], n) == d.media + [n]
  {
  }

  /** Repeat times behind a time description belong to it. */
  lemma {:induction false} RepeatsRead(d: Sdp, t: Time, rs: seq<Repeat>)
    requires forall i :: 0 <= i < |rs| ==> ValidRepeat(rs[i]) && PlainRepeat(rs[i])
    ensures Reads(d.(time := d.time + [t]), RepeatLines(rs), d.(time := d.time + [t.(repeats := t.repeats + rs)]))
    decreases |rs|
  {
    hide Reads, ValidRepeat, PlainRepeat, RepeatLine;
    var d0 := d.(time := d.time + [t]);
    if rs == [] {
      ReadsNothing(d0);
      assert t.repeats + rs == t.repeats;
    } else {
      var u := t.(repeats := t.repeats + [rs[0]]);
      RepeatReads(d0, rs[0]);
      assert SetLast(d.time + [t], u) == d.time + [u];
      assert WithRepeat(d0, rs[0]) == d.(time := d.time + [u]);
      RepeatsRead(d, u, rs[1..]);
      assert u.repeats + rs[1..] == t.repeats + rs;
      ReadsBoth(d0, [RepeatLine(rs[0])], d.(time := d.time + [u]), RepeatLines(rs[1..]),
        d.(time := d.time + [t.(repeats := t.repeats + rs)]));
    }
  }

  lemma OneTimeReads(d: Sdp, t: Time)
    requires ValidTime(t) && PlainTime(t)
    ensures Reads(d, [TimeLine(t)] + RepeatLines(t.repeats), d.(time := d.time + [t]))
  {
    hide Reads, ValidRepeat, PlainRepeat, TimeLine, RepeatLines;
    var bare := Time(t.start, t.stop, []);
    TimeReads(d, t);
    RepeatsRead(d, bare, t.repeats);
    assert [] + t.repeats == t.repeats;
    ReadsBoth(d, [TimeLine(t)], d.(time := d.time + [bare]), RepeatLines(t.repeats), d.(time := d.time + [t]));
  }

  lemma {:induction false} TimesRead(d: Sdp, ts: seq<Time>)
    requires forall i :: 0 <= i < |ts| ==> ValidTime(ts[i]) && PlainTime(ts[i])
    ensures Reads(d, TimeLines(ts), d.(time := d.time + ts))
    decreases |ts|
  {
    hide Reads, ValidTime, PlainTime, TimeLine, RepeatLines;
    if ts == [] {
      ReadsNothing(d);
      assert d.time + ts == d.time;
    } else {
      var e := d.(time := d.time + [ts[0]]);
      OneTimeReads(d, ts[0]);
      TimesRead(e, ts[1..]);
      assert e.time + ts[1..] == d.time + ts;
      assert TimeLines(ts) == ([TimeLine(ts[0])] + RepeatLines(ts[0].repeats)) + TimeLines(ts[1..]);
      ReadsBoth(d, [TimeLine(ts[0])] + RepeatLines(ts[0].repeats), e, TimeLines(ts[1..]), d.(time := d.time + ts));
    }
  }

  lemma MediaConnectionReads(d: Sdp, m: Media, c: Option<Connection>)
    requires ValidConnection(c) && PlainConnection(c) && m.connection.None?
    ensures Reads(d.(media := d.media + [m]), ConnectionLines(c), d.(media := d.media + [m.(connection := c)]))
  {
    hide Reads, ValidConnection, PlainConnection, ConnectionLines;
    var d0 := d.(media := d.media + [m]);
    ConnectionReads(d0, c);
    LastOfMedia(d, m, m.(connection := c));
  }

  lemma MediaBlockReads(d: Sdp, m: Media)
    requires ValidMedia(m) && PlainMedia(m)
    ensures Reads(d, MediaBlock(m), d.(media := d.media + [m]))
  {
    hide Reads, MediaLine, ConnectionLines, AttributeLines, ValidConnection, PlainConnection, ValidAttribute;
    var bare := BareMedia(m.kind, m.port, m.proto, m.formats);
    var d1 := d.(media := d.media + [bare]);
    var d2 := d.(media := d.media + [bare.(connection := m.connection)]);
    var d3 := d.(media := d.media + [m]);
    MediaLineReads(d, m);
    MediaConnectionReads(d, bare, m.connection);
    MediaAttributesRead(d, bare.(connection := m.connection), m.attributes);
    assert [] + m.attributes == m.attributes;
    ReadsBoth(d1, ConnectionLines(m.connection), d2, AttributeLines(m.attributes), d3);
    ReadsBoth(d, [MediaLine(m)], d1, ConnectionLines(m.connection) + AttributeLines(m.attributes), d3);
    BlockIs(m);
  }

  lemma BlockIs(m: Media)
    requires m.title.None? && m.bandwidth == []
    ensures MediaBlock(m) == [MediaLine(m)] + (ConnectionLines(m.connection) + AttributeLines(m.attributes))
  {
    hide MediaLine, ConnectionLines, AttributeLines;
  }

  lemma {:induction false} AllMediaRead(d: Sdp, ms: seq<Media>)
    requires forall i :: 0 <= i < |ms| ==> ValidMedia(ms[i]) && PlainMedia(ms[i])
    ensures Reads(d, MediaLines(ms), d.(media := d.media + ms))
    decreases |ms|
  {
    hide Reads, ValidMedia, PlainMedia, MediaBlock;
    if ms == [] {
      ReadsNothing(d);
      assert d.media + ms == d.media;
    } else {
      var e := d.(media := d.media + [ms[0]]);
      MediaBlockReads(d, ms[0]);
      AllMediaRead(e, ms[1..]);
      assert e.media + ms[1..] == d.media + ms;
      ReadsBoth(d, MediaBlock(ms[0]), e, MediaLines(ms[1..]), d.(media := d.media + ms));
    }
  }

  /** Everything in front of the media descriptions. */
  function SessionLines(d: Sdp): seq<string> {
    ["v=0"] + ([OriginLine(d.origin)] + (["s=" + d.name] + (OptionalLine("i=", d.information) + (OptionalLine("u=", d.uri)
    + (OptionalLine("e=", d.email) + (OptionalLine("p=", d.phone) + (ConnectionLines(d.connection)
    + (TimeLines(d.time) + AttributeLines(d.attributes)))))))))
  }

  lemma SessionReads(local: Ip, d: Sdp)
    requires ValidSdp(d) && PlainOrigin(d.origin) && PlainConnection(d.connection) && d.bandwidth == []
    requires forall i :: 0 <= i < |d.time| ==> PlainTime(d.time[i])
    ensures Reads(Empty(local), SessionLines(d), d.(media := []))
  {
    hide Reads, OriginLine, ConnectionLines, TimeLines, AttributeLines, ValidOrigin, PlainOrigin, ValidConnection,
      PlainConnection, ValidTime, PlainTime, ValidAttribute, CleanText, ValidMedia;
    var d0 := Empty(local);
    var d1 := d0.(origin := d.origin);
    var d2 := d1.(name := d.name);
    var d3 := d2.(information := d.information);
    var d4 := d3.(uri := d.uri);
    var d5 := d4.(email := d.email);
    var d6 := d5.(phone := d.phone);
    var d7 := d6.(connection := d.connection);
    var d8 := d7.(time := d.time);
    var d9 := d8.(attributes := d.attributes);
    VersionReads(d0);
    OriginReads(d0, d.origin);
    NameReads(d1, d.name);
    OptionalReads(d2, 'i', d.information);
    OptionalReads(d3, 'u', d.uri);
    OptionalReads(d4, 'e', d.email);
    OptionalReads(d5, 'p', d.phone);
    ConnectionReads(d6, d.connection);
    TimesRead(d7, d.time);
    assert [] + d.time == d.time && [] + d.attributes == d.attributes;
    SessionAttributesRead(d8, d.attributes);
    hide OptionalLine, ValidSdp;
    var t, a := TimeLines(d.time), AttributeLines(d.attributes);
    var c, p, e := ConnectionLines(d.connection), OptionalLine("p=", d.phone), OptionalLine("e=", d.email);
    var u, i := OptionalLine("u=", d.uri), OptionalLine("i=", d.information);
    ReadsBoth(d7, t, d8, a, d9);
    ReadsBoth(d6, c, d7, t + a, d9);
    ReadsBoth(d5, p, d6, c + (t + a), d9);
    ReadsBoth(d4, e, d5, p + (c + (t + a)), d9);
    ReadsBoth(d3, u, d4, e + (p + (c + (t + a))), d9);
    ReadsBoth(d2, i, d3, u + (e + (p + (c + (t + a)))), d9);
    ReadsBoth(d1, ["s=" + d.name], d2, i + (u + (e + (p + (c + (t + a))))), d9);
    ReadsBoth(d0, [OriginLine(d.origin)], d1, ["s=" + d.name] + (i + (u + (e + (p + (c + (t + a)))))), d9);
    ReadsBoth(d0, ["v=0"], d0, [OriginLine(d.origin)] + (["s=" + d.name] + (i + (u + (e + (p + (c + (t + a))))))), d9);
  }

  lemma SdpLinesAre(d: Sdp)
    requires d.bandwidth == []
    ensures SdpLines(d) == SessionLines(d) + MediaLines(d.media)
  {
    hide OriginLine, ConnectionLines, TimeLines, AttributeLines, OptionalLine, MediaLines;
  }

  lemma SdpReads(local: Ip, d: Sdp)
    requires ValidSdp(d) && Plain(d)
    ensures ParseSdp(local, SdpText(d)) == Ok(d, "")
  {
    SessionReads(local, d);
    AllMediaRead(d.(media := []), d.media);
    assert [] + d.media == d.media;
    SdpLinesAre(d);
    ReadsBoth(Empty(local), SessionLines(d), d.(media := []), MediaLines(d.media), d);
    assert SdpText(d) + "" == SdpText(d);
  }

  predicate ReadableMedia(m: Media) {
    m.kind != Application && m.portCount.None? && m.bandwidth == [] && PlainConnection(m.connection)
  }

  /** What every description has that was read from any text. */
  predicate Readable(d: Sdp) {
    && PlainOrigin(d.origin) && PlainConnection(d.connection) && d.bandwidth == []
    && (forall i :: 0 <= i < |d.time| ==> PlainTime(d.time[i]))
    && forall i :: 0 <= i < |d.media| ==> ReadableMedia(d.media[i])
  }

  /** No bandwidth line is ever read: where the number should be, there is the colon. */
  lemma BandwidthNeverReads(s: string)
    ensures ParseBandwidth(s).Err?
  {
    var t := s[Span(NotColon, s)..];
    assert t != "" ==> t[0] == ':';
    SpanIs(IsDigit, "", t);
    assert "" + t == t;
  }

  lemma OriginIsPlain(s: string)
    ensures ParseOrigin(s).Ok? ==> PlainOrigin(ParseOrigin(s).value)
  {
    hide ScanNumber, ParseAddress, ParseOriginNet, ParseAddrType, SkipWs, TextWhile;
    if ParseOrigin(s).Ok? {
      var user := TextWhile(NotWhite, s);
      var id := ScanNumber(U64_MAX, SkipWs(user.rest));
      var version := ScanNumber(U64_MAX, SkipWs(id.rest));
      OriginNetIsPlain(version.rest);
    }
  }

  /** An empty net type could only be followed by nothing. */
  lemma OriginNetIsPlain(t: string)
    ensures var p := ParseOriginNet(SkipWs(t));
            p.Ok? && ParseAddrType(SkipWs(p.rest)).Ok? ==> p.value.OtherNet? ==> p.value.name != "" && p.value.name != "IN"
  {
    var u := SkipWs(t);
    assert u != "" ==> !IsSpace(u[0]);
    if Span(NotSpace, u) == 0 {
      assert u == "";
      assert SkipWs("") == "";
    }
  }

  lemma ConnectionIsPlain(s: string)
    ensures ParseConnection(s).Ok? ==> PlainConnection(Some(ParseConnection(s).value))
  {
    NetIsPlain(s);
    hide ParseConnectionNet, PeekAddrType, ParseAddress, SkipWs;
  }

  lemma NetIsPlain(s: string)
    ensures var p := ParseConnectionNet(s); p.Ok? && p.value.OtherNet? ==> !("IN" <= p.value.name)
  {
    hide ValidUtf8;
  }

  lemma {:induction false} OffsetsArePlain(os: seq<int>, s: string)
    requires forall i :: 0 <= i < |os| ==> os[i] >= 0
    ensures var p := Offsets(os, s); p.Ok? ==> forall i :: 0 <= i < |p.value| ==> p.value[i] >= 0
    decreases |s|
  {
    hide ScanNumber;
    if s != "" && IsSpace(s[0]) {
      var p := ScanNumber(I64_MAX, s[1..]);
      if p.Ok? && !AtLineEnd(p.rest) { OffsetsArePlain(os + [p.value], p.rest); }
    }
  }

  lemma RepeatIsPlain(s: string)
    ensures ParseRepeat(s).Ok? ==> PlainRepeat(ParseRepeat(s).value)
  {
    hide ScanNumber, Offsets, SkipWs;
    forall t ensures Offsets([], t).Ok? ==> forall i :: 0 <= i < |Offsets([], t).value| ==> Offsets([], t).value[i] >= 0 {
      OffsetsArePlain([], t);
    }
  }

  lemma MediaIsReadable(s: string)
    ensures ParseMedia(s).Ok? ==> ReadableMedia(ParseMedia(s).value)
  {
    hide ScanNumber, Formats, SkipWs, ParseProto, IsToken, Span;
  }

  lemma ContentKeeps(d: Sdp, field: char, s: string)
    requires Readable(d)
    ensures var p := Content(d, field, s); p.Ok? ==> Readable(p.value) && |p.value.time| >= |d.time|
  {
    if field == 'b' {
      BandwidthNeverReads(s);
    } else if field == 'o' {
      OriginIsPlain(s);
    } else if field == 'c' {
      ConnectionIsPlain(s);
    } else if field == 'r' {
      RepeatIsPlain(s);
    } else if field == 'm' {
      MediaIsReadable(s);
    }
    hide ParseAttribute, ParseOrigin, ParseConnection, ParseMedia, ParseRepeat, ParseBandwidth, ReadLine, PlainOrigin,
      PlainConnection, PlainRepeat, ScanNumber, MustRead;
  }

  lemma {:induction false} FieldsKeep(d: Sdp, s: string)
    requires Readable(d)
    ensures var p := Fields(d, s); p.Ok? ==> Readable(p.value) && |p.value.time| >= |d.time|
    decreases |s|
  {
    hide Readable, Content;
    if s != "" {
      var name := FieldName(s);
      if name.Ok? {
        ContentKeeps(d, name.value, name.rest);
        var p := Field(d, s);
        if p.Ok? { FieldsKeep(p.value, SkipNewlines(p.rest)); }
      }
    }
  }

  /** A media line without formats is not read: the line break is taken as part of the protocol. */
  lemma NoFormatsMisread(d: Sdp, m: Media, rest: string)
    requires ValidMedia(m) && ReadableMedia(m) && m.formats == []
    ensures Fields(d, Lines([MediaLine(m)]) + rest).Err?
  {
    var line := MediaLine(m);
    var s2 := ProtoText(m.proto) + (FormatsText(m.formats) + (CRLF + rest));
    MediaLineStarts(m);
    MediaTextIs(m, rest);
    NoProto(m.proto, rest);
    assert FormatsText(m.formats) + (CRLF + rest) == CRLF + rest;
    hide MediaLine, ParseMedia, Content, ParseProto, FormatsText, ProtoText, ValidMedia;
    assert m.port <= 0xFFFF by { PortFits(m); }
    NoProtoMedia(m, line[2..] + (CRLF + rest), s2);
    FieldsOnLine(d, line, rest);
    ContentIs(d, line[2..] + (CRLF + rest));
  }

  lemma PortFits(m: Media)
    ensures ValidMedia(m) ==> m.port <= 0xFFFF
  {
  }

  lemma NoProto(p: SdpTransport, rest: string)
    ensures var s := ProtoText(p) + (CRLF + rest); ParseProto(s).Err? && s != "" && !IsSpace(s[0])
  {
    var s := ProtoText(p) + (CRLF + rest);
    var n := Span(NotBlank, s);
    var k := |ProtoText(p)|;
    assert s[k] == '\r';
    assert forall i :: 0 <= i < k ==> s[i] == ProtoText(p)[i];
    ProtoChars(p);
    assert forall i :: 0 <= i <= k ==> NotBlank(s[i]);
    assert n < |s| ==> !NotBlank(s[n]);
    assert n > k;
    assert s[..n][k] == '\r';
    NoProtoWith(s[..n], k);
  }

  lemma ProtoChars(p: SdpTransport)
    ensures All(NotBlank, ProtoText(p))
  {
  }

  lemma NoProtoWith(word: string, k: nat)
    requires k < |word| && word[k] == '\r'
    ensures ProtoFrom(word).None?
  {
  }

  lemma NoProtoMedia(m: Media, body: string, s2: string)
    requires m.kind != Application && m.port <= 0xFFFF
    requires body == KindText(m.kind) + (" " + (Decimal(m.port) + (" " + s2))) && s2 != "" && !IsSpace(s2[0])
    requires ParseProto(s2).Err?
    ensures ParseMedia(body).Err?
  {
    hide ParseProto, ScanNumber, KindText, Decimal, IsToken, Span, SkipWs, KindFrom, Formats;
    var s1 := Decimal(m.port) + (" " + s2);
    NumberReads(m.port, 0xFFFF, s2);
    KindReads(m.kind, s1);
    SkipOneBlank(s1);
  }

  /** The line of a title is either not read or read as one more time description. */
  lemma TitleMisread(d: Sdp, title: string, rest: string)
    requires Readable(d)
    ensures var p := Fields(d, Lines(["t=" + title]) + rest); p.Ok? ==> |p.value.time| > |d.time|
  {
    hide Content, ParseTime;
    var body := ("t=" + title)[2..] + (CRLF + rest);
    FieldsOnLine(d, "t=" + title, rest);
    ContentIs(d, body);
    var p := Content(d, 't', body);
    if p.Ok? {
      ContentKeeps(d, 't', body);
      hide Readable;
      FieldsKeep(p.value, SkipNewlines(p.rest));
    }
  }

  lemma MediaBegins(ms: seq<Media>)
    ensures Begins(Lines(MediaLines(ms)))
  {
    if ms != [] { MediaLineStarts(ms[0]); }
  }

  lemma {:induction false} MediaMisread(d: Sdp, ms: seq<Media>)
    requires Readable(d) && (forall i :: 0 <= i < |ms| ==> ValidMedia(ms[i]) && ReadableMedia(ms[i]))
    requires exists i :: 0 <= i < |ms| && !PlainMedia(ms[i])
    ensures var p := Fields(d, Lines(MediaLines(ms))); p.Ok? ==> |p.value.time| > |d.time|
    decreases |ms|
  {
    hide ValidMedia, PlainMedia, ReadableMedia, MediaBlock, Fields, Lines;
    var m, more := ms[0], MediaLines(ms[1..]);
    LinesConcat(MediaBlock(m), more);
    MediaBegins(ms[1..]);
    if PlainMedia(m) {
      var e := d.(media := d.media + [m]);
      MediaBlockReads(d, m);
      assert Fields(d, Lines(MediaBlock(m)) + Lines(more)) == Fields(e, Lines(more));
      MediaMisread(e, ms[1..]);
    } else {
      BlockMisread(d, m, Lines(more));
    }
  }

  lemma BlockMisread(d: Sdp, m: Media, rest: string)
    requires Readable(d) && ValidMedia(m) && ReadableMedia(m) && !PlainMedia(m) && Begins(rest)
    ensures var p := Fields(d, Lines(MediaBlock(m)) + rest); p.Ok? ==> |p.value.time| > |d.time|
  {
    hide Fields, MediaLine, ConnectionLines, BandwidthLines, AttributeLines, ValidMedia, Lines;
    var after := ConnectionLines(m.connection) + (BandwidthLines(m.bandwidth) + AttributeLines(m.attributes));
    var tail := OptionalLine("t=", m.title) + after;
    LinesConcat([MediaLine(m)], tail);
    Regroup(Lines([MediaLine(m)]), Lines(tail), rest);
    if m.formats == [] {
      NoFormatsMisread(d, m, Lines(tail) + rest);
    } else {
      var e := d.(media := d.media + [BareMedia(m.kind, m.port, m.proto, m.formats)]);
      MediaLineReads(d, m);
      TitleLine(m.title.value, after, rest);
      assert Fields(d, Lines([MediaLine(m)]) + (Lines(tail) + rest)) == Fields(e, Lines(tail) + rest);
      TitleMisread(e, m.title.value, Lines(after) + rest);
    }
  }

  lemma TitleLine(title: string, after: seq<string>, rest: string)
    ensures Lines(["t=" + title] + after) + rest == Lines(["t=" + title]) + (Lines(after) + rest)
    ensures Begins(Lines(["t=" + title] + after) + rest)
  {
    LinesConcat(["t=" + title], after);
    assert Lines(["t=" + title]) == "t=" + title + CRLF + Lines([]);
  }

  lemma SdpMisread(local: Ip, d: Sdp)
    requires ValidSdp(d) && !Plain(d)
    ensures ParseSdp(local, SdpText(d)) != Ok(d, "")
  {
    FieldsKeep(Empty(local), SdpText(d));
    if Readable(d) {
      SessionReads(local, d);
      SdpLinesAre(d);
      LinesConcat(SessionLines(d), MediaLines(d.media));
      MediaBegins(d.media);
      UnplainMedia(d);
      hide Reads, ValidSdp, Plain, Lines, SessionLines, SdpLines, MediaLines, Fields, PlainMedia, ValidMedia, ReadableMedia;
      ReadsOn(Empty(local), SessionLines(d), d.(media := []), Lines(MediaLines(d.media)));
      MediaMisread(d.(media := []), d.media);
    }
  }

  lemma UnplainMedia(d: Sdp)
    requires ValidSdp(d) && Readable(d) && !Plain(d)
    ensures Readable(d.(media := [])) && forall i :: 0 <= i < |d.media| ==> ValidMedia(d.media[i]) && ReadableMedia(d.media[i])
    ensures exists i :: 0 <= i < |d.media| && !PlainMedia(d.media[i])
  {
    hide PlainMedia, ReadableMedia, ValidMedia, PlainTime, PlainOrigin, PlainConnection;
  }

  /** A written session description reads back as the same value exactly if it is plain. */
  lemma SdpRoundTrips(local: Ip, d: Sdp)
    requires ValidSdp(d)
    ensures ParseSdp(local, SdpText(d)) == Ok(d, "") <==> Plain(d)
  {
    hide ParseSdp, SdpText, ValidSdp, Plain;
    if Plain(d) { SdpReads(local, d); } else { SdpMisread(local, d); }
  }
}
