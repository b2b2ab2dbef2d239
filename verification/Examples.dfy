/** What some values look like on the wire. */
module Examples {
  import opened Wrappers
  import opened Text
  import opened Writing
  import opened Messages
  import opened SipValues
  import opened SdpValues
  import opened Headers
  import opened MessageRoundTrip
  import W = Wire

  lemma Numbers()
    ensures Decimal(0) == "0" && Decimal(1) == "1" && Decimal(2) == "2" && Decimal(8) == "8"
    ensures Decimal(15) == "15" && Decimal(70) == "70" && Decimal(192) == "192" && Decimal(200) == "200"
    ensures Decimal(5060) == "5060" && Decimal(4000) == "4000"
  {
    assert Decimal(5) == "5" && Decimal(7) == "7" && Decimal(4) == "4";
    assert Decimal(19) == "19" && Decimal(20) == "20" && Decimal(50) == "50" && Decimal(40) == "40";
    assert Decimal(506) == "506" && Decimal(400) == "400";
  }

  const IP := V4(192, 0, 2, 1)

  lemma IpExample()
    ensures IpText(IP) == "192" + "." + ("0" + "." + ("2" + "." + "1"))
  {
    Numbers();
    hide Decimal;
  }

  function Params8(): seq<Param> {
    [Param("user", Some("phone")), Param("method", Some("INVITE")), Param("maddr", Some(IpText(IP))), Param("transport", Some("tcp")),
     Param("ttl", Some("15")), Param("lr", None), Param("x", Some("y")), Param("z", None)]
  }

  function Alice(): Uri {
    Uri(Scheme.Sips, Some(UserInfo("alice", Some("secret"))), HostPort(HostName("example.com"), Some(5060)),
        Some("phone"), Some(Invite), Some(Tcp), Some(15), true, Some(IpAddr(IP)),
        [Param("x", Some("y")), Param("z", None)], Some([Param("subject", Some("hi")), Param("to", Some("bob"))]))
  }

  function Bob(): Uri {
    Uri(Scheme.Sip, Some(UserInfo("bob", None)), HostPort(HostName("b.com"), None), None, None, None, None, false, None, [], None)
  }

  lemma AliceList()
    ensures UriParamList(Alice()) == Params8()
  {
    Numbers();
    hide Decimal, IpText;
  }

  lemma ParamsUnfold(ps: seq<Param>)
    requires ps != []
    ensures ParamsText(ps) == ParamText(ps[0]) + ParamsText(ps[1..])
  {
  }

  /** Each parameter has a semicolon in front, and its value behind an equals sign. */
  lemma ParamExample()
    ensures ParamText(Param("x", Some("y"))) == ";" + "x" + ("=" + "y") && ParamText(Param("z", None)) == ";" + "z" + ""
    ensures forall p: Param :: ParamsText([p]) == ParamText(p) + ""
    ensures forall p: Param, q: Param :: ParamsText([p, q]) == ParamText(p) + (ParamText(q) + "")
  {
    hide ParamText;
    assert ParamsText([]) == "";
    forall p: Param ensures ParamsText([p]) == ParamText(p) + "" {
      ParamsUnfold([p]);
      assert [p][1..] == [];
    }
    forall p: Param, q: Param ensures ParamsText([p, q]) == ParamText(p) + (ParamText(q) + "") {
      ParamsUnfold([p, q]);
      assert [p, q][1..] == [q];
    }
    assert ParamText(Param("x", Some("y"))) == ";" + "x" + ("=" + "y") by { ParamIs(Param("x", Some("y"))); }
    ParamIs(Param("z", None));
  }

  lemma ParamIs(p: Param)
    ensures ParamText(p) == ";" + p.name + if p.value.Some? then "=" + p.value.value else ""
  {
  }

  /** All parts of a URI in their order. */
  lemma UriExample()
    ensures UriText(Alice())
         == "sips" + (":" + (("alice" + (":" + "secret") + "@") + (("example.com" + (":" + "5060")) + (ParamsText(Params8())
            + ("?" + (("subject" + "=" + "hi") + "&" + ("to" + "=" + "bob")))))))
  {
    Numbers();
    AliceList();
    hide Decimal, ParamsText, UriParamList, Params8;
    TwoHeaders(Param("subject", Some("hi")), Param("to", Some("bob")));
    hide HeadersText;
  }

  lemma TwoHeaders(h: Param, k: Param)
    ensures HeadersText([h, k]) == HeaderText(h) + "&" + HeaderText(k)
  {
    hide HeaderText;
    assert [h, k][1..] == [k];
  }

  lemma NoParamsText()
    ensures UriParamList(Bob()) == [] && ParamsText([]) == ""
  {
  }

  lemma BobExample()
    ensures UriText(Bob()) == "sip" + (":" + (("bob" + "" + "@") + (("b.com" + "") + ("" + ""))))
  {
    NoParamsText();
    hide UriParamList, ParamsText;
  }

  lemma NameAddrExample()
    ensures NameAddrText(NameAddr(Some("Bob B"), Bob())) == ("\"" + "Bob B" + "\" ") + ("<" + (UriText(Bob()) + ">"))
    ensures NameAddrText(NameAddr(None, Bob())) == "" + ("<" + (UriText(Bob()) + ">"))
  {
    hide UriText;
  }

  function Stamped(): Via {
    Via(Udp, HostPort(HostName("a.com"), Some(5060)), Some(15), None, Some(IP), Some("z9hG4bKx"), Some(None), Some("c"), [Param("p", None)])
  }

  function Params5(): seq<Param> {
    [Param("rport", None), Param("received", Some(IpText(IP))), Param("ttl", Some("15")), Param("branch", Some("z9hG4bKx")), Param("p", None)]
  }

  lemma StampedList()
    ensures ViaParamList(Stamped()) == Params5()
  {
    Numbers();
    hide Decimal, IpText;
  }

  lemma ViaExample()
    ensures ViaText(Stamped())
         == "SIP/2.0/" + ("UDP" + (" " + (("a.com" + (":" + "5060")) + (ParamsText(Params5()) + (" (" + "c" + ")")))))
  {
    Numbers();
    StampedList();
    hide Decimal, ParamsText, ViaParamList, Params5;
  }

  /** One line for each kind of header. */
  lemma HeaderExamples(p: Party, addr: NameAddr, v: Via)
    ensures HeaderLine(ViaHeader(v)) == "Via" + (": " + ViaText(v))
    ensures HeaderLine(FromHeader(p)) == "From" + (": " + PartyText(p)) && HeaderLine(ToHeader(p)) == "To" + (": " + PartyText(p))
    ensures HeaderLine(CallIdHeader("id@h")) == "Call-ID" + (": " + "id@h")
    ensures HeaderLine(CSeqHeader(CSeq(70, Ack))) == "CSeq" + (": " + ("70" + (" " + "ACK")))
    ensures HeaderLine(RecordRoute(addr, [])) == "Record-Route" + (": " + (NameAddrText(addr) + ParamsText([])))
    ensures HeaderLine(ContentLength(0)) == "Content-Length" + (": " + "0")
    ensures HeaderLine(RawHeader("X-Y", "z")) == "X-Y" + (": " + "z")
    ensures HeaderLine(OtherHeader("Allow", ["ACK", "BYE"])) == "Allow" + (": " + ("ACK" + (", " + "BYE")))
  {
    Numbers();
    hide Decimal, PartyText, ViaText, NameAddrText, ParamsText;
    assert ["ACK", "BYE"][1..] == ["BYE"];
  }

  lemma PartyExample()
    ensures PartyText(Party(PlainUri(Bob()), Some("1"), [Param("q", None)])) == UriText(Bob()) + (ParamText(Param("tag", Some("1"))) + (ParamText(Param("q", None)) + ""))
  {
    ParamExample();
    hide ParamText, ParamsText, UriText;
    assert Optional("tag", Some("1")) + [Param("q", None)] == [Param("tag", Some("1")), Param("q", None)];
  }

  /** A message: its first line, its header lines, the length of its body, an empty line and the body. */
  lemma MessageExample(headers: seq<Header>)
    ensures W.Bytes(SipMessage(RequestLine(Bye, Bob()), headers, Some("hi")))
         == Lines(["BYE" + " " + UriText(Bob()) + " SIP/2.0"] + HeaderLines(headers)) + ("Content-Length: " + "2") + "\r\n\r\n" + "hi"
    ensures W.Bytes(SipMessage(StatusLine(200, "OK"), headers, None))
         == Lines(["SIP/2.0 " + "200" + " " + "OK"] + HeaderLines(headers)) + ("Content-Length: " + "0") + "\r\n\r\n" + ""
  {
    Numbers();
    hide Decimal, UriText, HeaderLines, Lines;
  }

  lemma LinesExample(a: string, b: string)
    ensures Lines([a, b]) == a + "\r\n" + (b + "\r\n" + "")
  {
    assert [a, b][1..] == [b] && [b][1..] == [];
    assert Lines([]) == "";
  }

  lemma SdpLineExamples()
    ensures OriginLine(Origin("-", 1, 2, IN, IP4, IP))
         == "o=" + ("-" + (" " + ("1" + (" " + ("2" + (" " + ("IN" + (" " + ("IP4" + (" " + IpText(IP)))))))))))
    ensures ConnectionLine(Connection(IN, IP4, IP)) == "c=" + ("IN" + (" " + ("IP4" + (" " + IpText(IP)))))
    ensures TimeLine(Time(0, 70, [])) == "t=" + ("0" + (" " + "70"))
    ensures AttributeLine(Attribute("rtpmap", Some("0 PCMU/8000"))) == "a=" + ("rtpmap" + (":" + "0 PCMU/8000"))
    ensures AttributeLine(Attribute("sendrecv", None)) == "a=" + ("sendrecv" + "")
  {
    Numbers();
    hide Decimal, IpText;
  }

  lemma RepeatExample()
    ensures RepeatLine(Repeat(8, 2, [0, 15])) == "r=" + ("8" + (" " + ("2" + (" " + ("0" + (" " + ("15" + "")))))))
  {
    Numbers();
    hide Decimal;
    assert [0, 15][1..] == [15] && [15][1..] == [];
    assert OffsetsText([]) == "";
    assert OffsetsText([15]) == " " + ("15" + "");
    hide OffsetsText;
    OffsetsExample();
  }

  lemma OffsetsExample()
    ensures OffsetsText([0, 15]) == " " + ("0" + (" " + ("15" + "")))
  {
    Numbers();
    hide Decimal;
    assert [0, 15][1..] == [15] && [15][1..] == [];
    assert OffsetsText([]) == "";
  }

  lemma MediaExample()
    ensures MediaLine(Media(Audio, RtpAvp, 4000, None, ["0", "8"], None, None, [], []))
         == "m=" + ("audio" + (" " + ("4000" + ("" + (" " + ("RTP/AVP" + (" " + ("0" + (" " + ("8" + ""))))))))))
  {
    Numbers();
    hide Decimal;
    assert ["0", "8"][1..] == ["8"] && ["8"][1..] == [];
    assert FormatsText([]) == "";
    assert FormatsText(["8"]) == " " + ("8" + "");
  }

  /** The lines of a description, from the session to its streams: `c` and `a` lines of a stream come behind its `m` line. */
  lemma SdpOrderExample(o: Origin, c: Connection, r: Repeat, m: Media)
    requires m.title == None && m.connection == Some(c) && m.bandwidth == [] && m.attributes == [Attribute("y", None)]
    ensures SdpLines(Sdp(o, "n", Some("i"), Some("u"), Some("e"), Some("p"), Some(c), [], [Attribute("x", None)], [Time(0, 0, [r])], [m]))
         == ["v=0", OriginLine(o), "s=" + "n", "i=" + "i", "u=" + "u", "e=" + "e", "p=" + "p", ConnectionLine(c), TimeLine(Time(0, 0, [r])),
             RepeatLine(r), AttributeLine(Attribute("x", None)), MediaLine(m), ConnectionLine(c), AttributeLine(Attribute("y", None))]
  {
    hide OriginLine, ConnectionLine, TimeLine, RepeatLine, AttributeLine, MediaLine;
    OneAttribute(Attribute("x", None));
    OneAttribute(Attribute("y", None));
    OneTime(Time(0, 0, [r]), r);
    OneMedia(m);
    assert BandwidthLines([]) == [];
    hide TimeLines, AttributeLines, MediaLines, BandwidthLines;
  }

  lemma OneAttribute(a: Attribute)
    ensures AttributeLines([a]) == [AttributeLine(a)]
  {
    hide AttributeLine;
    assert [a][1..] == [];
  }

  lemma OneTime(t: Time, r: Repeat)
    requires t.repeats == [r]
    ensures TimeLines([t]) == [TimeLine(t), RepeatLine(r)]
  {
    hide TimeLine, RepeatLine;
    assert [t][1..] == [] && [r][1..] == [];
    assert RepeatLines([]) == [] && TimeLines([]) == [];
    assert RepeatLines([r]) == [RepeatLine(r)];
    assert TimeLines([t]) == [TimeLine(t)] + (RepeatLines(t.repeats) + []);
  }

  lemma OneMedia(m: Media)
    requires m.title == None && m.connection.Some? && m.bandwidth == [] && |m.attributes| == 1
    ensures MediaLines([m]) == [MediaLine(m), ConnectionLine(m.connection.value), AttributeLine(m.attributes[0])]
  {
    hide MediaLine, ConnectionLine, AttributeLine;
    OneAttribute(m.attributes[0]);
    assert m.attributes == [m.attributes[0]] && [m][1..] == [];
    assert BandwidthLines([]) == [];
    hide AttributeLines, BandwidthLines;
  }
}
