/** What is in an offer and in an answer: whose address, which streams, and what is said of their codecs. */
module OfferContent {
  import opened Wrappers
  import opened Text
  import opened SipValues
  import opened SdpValues
  import opened Negotiation

  /** An offer speaks for the address it is made with, and has one stream for each one asked for, in order. */
  lemma OfferMeans(p: OfferParams, id: nat, version: nat)
    ensures var d := Offer(p, id, version);
            && d.origin.sessionId == id && d.origin.sessionVersion == version
            && d.origin.unicast == p.ip && d.connection.Some? && d.connection.value.address == p.ip
            && (d.origin.addrType.IP4? <==> p.ip.V4?) && (d.connection.value.addrType.IP4? <==> p.ip.V4?)
            && d.origin.netType == IN && d.connection.value.netType == IN
            && d.time == [Time(0, 0, [])] && d.attributes == []
            && |d.media| == |p.streams|
            && forall i :: 0 <= i < |p.streams| ==> OffersStream(d.media[i], p.streams[i])
  {
    var ms := OfferStreams(p.streams);
    if ms != [] {
      assert forall i :: 0 <= i < |ms| - 1 ==> WithClosing(ms, p.direction)[i] == ms[i];
    }
  }

  /** The stream is offered under its port, with the payload types of its codecs in their order of preference. */
  predicate OffersStream(m: Media, s: MediaStream) {
    && m.kind == s.kind && m.proto == s.proto && m.port == s.port && m.connection == None
    && |m.formats| == |s.codecs| && forall i :: 0 <= i < |m.formats| ==> m.formats[i] == Decimal(s.codecs[i].payloadType)
  }

  /** The attributes of the offered streams are those of their codecs in order; only the last stream has a direction. */
  lemma OfferAttributesAre(p: OfferParams, id: nat, version: nat, i: nat)
    requires i < |p.streams|
    ensures var a := Offer(p, id, version).media[i].attributes;
            a == OfferAttributes(p.streams[i].codecs)
                 + if i < |p.streams| - 1 then []
                   else [Attribute("ptime", Some("20")), Attribute("maxptime", Some("150")), Attribute(DirectionText(p.direction), None)]
  {
    var ms := OfferStreams(p.streams);
    hide OfferAttributes;
    assert ms[i].attributes == OfferAttributes(p.streams[i].codecs);
    assert ms[i].attributes + [] == ms[i].attributes;
  }

  lemma {:induction false} AttributesConcat(a: seq<Codec>, b: seq<Codec>)
    ensures OfferAttributes(a + b) == OfferAttributes(a) + OfferAttributes(b)
  {
    if a == [] {
      assert a + b == b;
    } else {
      assert (a + b)[1..] == a[1..] + b;
      AttributesConcat(a[1..], b);
    }
  }

  /** The codecs for which the source has fixed texts, as it defines them. */
  predicate IsStandard(c: Codec) {
    || (c.name == "PCMU" && c.payloadType == 0 && c.clockRate == 8000 && c.channels <= 1)
    || (c.name == "PCMA" && c.payloadType == 8 && c.clockRate == 8000 && c.channels <= 1)
    || (c.name == "opus" && c.payloadType == 96 && c.clockRate == 48000 && c.channels == 2)
    || (c.name == "telephone-event" && c.payloadType == 101 && c.clockRate == 8000 && c.channels <= 1)
  }

  /** How section 6 of RFC 4566 describes a codec. */
  function Described(c: Codec): string {
    Decimal(c.payloadType) + (" " + (c.name + ("/" + (Decimal(c.clockRate) + if c.channels > 1 then "/" + Decimal(c.channels) else ""))))
  }

  lemma Small()
    ensures Decimal(0) == "0" && Decimal(8) == "8" && Decimal(96) == "96" && Decimal(101) == "101" && Decimal(2) == "2"
    ensures Decimal(8000) == "8000" && Decimal(48000) == "48000"
  {
    assert Decimal(10) == "10" && Decimal(9) == "9" && Decimal(1) == "1" && Decimal(4) == "4";
    assert Decimal(80) == "80" && Decimal(48) == "48";
    assert Decimal(800) == "800" && Decimal(480) == "480";
    assert Decimal(4800) == "4800";
  }

  /** Two numbers with something else behind them are equal if their texts are. */
  lemma NumbersEqual(m: nat, n: nat, s: string, t: string)
    requires Decimal(m) + s == Decimal(n) + t
    requires (s == "" || !IsDigit(s[0])) && (t == "" || !IsDigit(t[0]))
    ensures m == n && s == t
  {
    DecimalValue(m);
    DecimalValue(n);
    hide Decimal, Value, All, Span;
    SpanIs(IsDigit, Decimal(m), s);
    SpanIs(IsDigit, Decimal(n), t);
  }

  lemma NameBehindBlank(a: string, b: string)
    requires " " + a == " " + b
    ensures a == b
  {
    assert (" " + a)[1..] == a && (" " + b)[1..] == b;
  }

  lemma BehindName(name: string, a: string, b: string)
    requires name + a == name + b
    ensures a == b
  {
    assert (name + a)[|name|..] == a && (name + b)[|name|..] == b;
  }

  /** What is behind the name of a codec. */
  function Rate(c: Codec): string { Decimal(c.clockRate) + if c.channels > 1 then "/" + Decimal(c.channels) else "" }

  lemma SameRate(c: Codec, rate: nat, channels: string)
    requires channels == "" || channels == "/2"
    requires Rate(c) == Decimal(rate) + channels
    ensures c.clockRate == rate && (if channels == "" then c.channels <= 1 else c.channels == 2)
  {
    Small();
    hide Decimal;
    var own := if c.channels > 1 then "/" + Decimal(c.channels) else "";
    NumbersEqual(c.clockRate, rate, own, channels);
    if channels == "/2" && c.channels > 1 {
      BehindName("/", Decimal(c.channels), Decimal(2));
      assert Decimal(c.channels) + "" == Decimal(2) + "";
      NumbersEqual(c.channels, 2, "", "");
    }
  }

  /** When the fixed text for a codec of that name describes it. */
  lemma FixedText(c: Codec, pt: nat, rate: nat, channels: string)
    requires channels == "" || channels == "/2"
    ensures Described(c) == Decimal(pt) + (" " + (c.name + ("/" + (Decimal(rate) + channels))))
       <==> c.payloadType == pt && c.clockRate == rate && (if channels == "" then c.channels <= 1 else c.channels == 2)
  {
    TwoIs();
    hide Decimal;
    var a, b := Rate(c), Decimal(rate) + channels;
    assert Described(c) == Decimal(c.payloadType) + (" " + (c.name + ("/" + a)));
    if Described(c) == Decimal(pt) + (" " + (c.name + ("/" + b))) {
      hide Rate, Described;
      NumbersEqual(c.payloadType, pt, " " + (c.name + ("/" + a)), " " + (c.name + ("/" + b)));
      NameBehindBlank(c.name + ("/" + a), c.name + ("/" + b));
      BehindName(c.name, "/" + a, "/" + b);
      BehindName("/", a, b);
      SameRate(c, rate, channels);
    }
  }

  lemma TwoIs()
    ensures "/" + Decimal(2) == "/2"
  {
    Small();
    hide Decimal;
  }

  lemma FixedTexts()
    ensures "0 PCMU/8000" == Decimal(0) + (" " + ("PCMU" + ("/" + (Decimal(8000) + ""))))
    ensures "8 PCMA/8000" == Decimal(8) + (" " + ("PCMA" + ("/" + (Decimal(8000) + ""))))
    ensures "96 opus/48000/2" == Decimal(96) + (" " + ("opus" + ("/" + (Decimal(48000) + "/2"))))
    ensures "101 telephone-event/8000" == Decimal(101) + (" " + ("telephone-event" + ("/" + (Decimal(8000) + ""))))
  {
    Small();
    hide Decimal;
  }

  /** The text that is made for any other codec has a slash where the blank belongs. */
  lemma OtherText(c: Codec, more: string)
    ensures Described(c) != Decimal(c.payloadType) + ("/" + more)
  {
    hide Decimal;
    var behind := " " + (c.name + ("/" + (Decimal(c.clockRate) + if c.channels > 1 then "/" + Decimal(c.channels) else "")));
    assert behind[0] == ' ' && ("/" + more)[0] == '/';
    if Described(c) == Decimal(c.payloadType) + ("/" + more) {
      BehindName(Decimal(c.payloadType), behind, "/" + more);
    }
  }

  /** An offer describes a codec correctly exactly if it is one of the standard ones. */
  lemma CodecsDescribed(c: Codec)
    ensures CodecAttributes(c)[0] == Attribute("rtpmap", Some(Described(c))) <==> IsStandard(c)
    ensures c.name == "telephone-event" ==> CodecAttributes(c)[1..] == [Attribute("fmtp", Some("101 0-16"))]
    ensures c.name != "telephone-event" ==> |CodecAttributes(c)| == 1
  {
    FixedTexts();
    hide Decimal, Described;
    FixedText(c, 0, 8000, "");
    FixedText(c, 8, 8000, "");
    FixedText(c, 96, 48000, "/2");
    FixedText(c, 101, 8000, "");
    OtherText(c, c.name + ("/" + (Decimal(c.clockRate) + ("/" + (Decimal(c.channels) + "/")))));
  }

  /** An answer keeps the session of the answerer, with its address and name; only the times are those of the offer. */
  lemma AnswerMeans(local: Sdp, remote: Sdp)
    requires Answer(local, remote).Done?
    ensures var d := Answer(local, remote).value;
            && d.origin == local.origin && d.connection == local.connection && d.name == local.name && d.attributes == local.attributes
            && d.information == local.information && d.uri == local.uri && d.email == local.email && d.phone == local.phone
            && d.bandwidth == local.bandwidth && d.time == remote.time
            && AnswerStreams(local.media, remote.media) == Done(d.media)
  {
    hide AnswerStreams;
  }
}
