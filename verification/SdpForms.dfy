/** What the parser makes of session descriptions that are written otherwise than here. */
module SdpForms {
  import opened Wrappers
  import opened Text
  import opened Writing
  import opened Parsing
  import opened SipValues
  import opened SdpValues
  import opened SdpGrammar
  import SipGrammar

  /** One field is read, and then what is behind the line breaks. */
  lemma FieldsStep(d: Sdp, field: char, s: string, e: Sdp, t: string)
    requires Content(d, field, s) == Ok(e, t)
    ensures Fields(d, [field] + ("=" + s)) == Fields(e, SkipNewlines(t))
  {
    var u := [field] + ("=" + s);
    assert u != "" && u[0] == field && u[1..] == "=" + s && ("=" + s)[1..] == s;
    hide Content, SkipNewlines;
  }

  /** The content of a field with an unknown letter is not skipped: it is read as the next field. */
  lemma UnknownFieldReadsOn(d: Sdp, field: char, s: string)
    requires field !in "vosiuepcbtrma"
    ensures Fields(d, [field] + ("=" + s)) == Fields(d, SkipNewlines(s))
  {
    hide Content, Fields, SkipNewlines;
    UnknownContent(d, field, s);
    FieldsStep(d, field, s, d, s);
  }

  lemma UnknownContent(d: Sdp, field: char, s: string)
    requires field !in "vosiuepcbtrma"
    ensures Content(d, field, s) == Ok(d, s)
  {
    NotKnown(field);
    hide ParseAttribute, ParseOrigin, ParseConnection, ParseBandwidth, ParseTime, ParseRepeat, ParseMedia, ReadLine;
  }

  lemma NotKnown(field: char)
    requires field !in "vosiuepcbtrma"
    ensures field != 'v' && field != 'o' && field != 's' && field != 'i' && field != 'u' && field != 'e' && field != 'p'
         && field != 'c' && field != 'b' && field != 't' && field != 'r' && field != 'm' && field != 'a'
  {
    var known := "vosiuepcbtrma";
    assert known[0] == 'v' && known[1] == 'o' && known[2] == 's' && known[3] == 'i' && known[4] == 'u' && known[5] == 'e';
    assert known[6] == 'p' && known[7] == 'c' && known[8] == 'b' && known[9] == 't' && known[10] == 'r' && known[11] == 'm';
    assert known[12] == 'a';
  }

  lemma NameContent(d: Sdp, s: string, name: string, t: string)
    requires ReadLine(s) == Ok(name, t)
    ensures Content(d, 's', s) == Ok(d.(name := name), t)
  {
    hide ParseAttribute, ParseOrigin, ParseConnection, ParseBandwidth, ParseTime, ParseRepeat, ParseMedia, ReadLine;
  }

  /** Lines may end in any line breaks, and there may be any number of them. */
  lemma AnyLineBreaks(d: Sdp, name: string, breaks: string, rest: string)
    requires CleanText(name) && breaks != "" && All(IsNewline, breaks) && Begins(rest)
    ensures Fields(d, "s=" + (name + (breaks + rest))) == Fields(d.(name := name), rest)
  {
    hide ReadLine, SkipNewlines, CleanText, Content, Fields, All;
    var s := name + (breaks + rest);
    BreaksSkipped(breaks, rest);
    ReadLineReads(name, breaks + rest);
    NameContent(d, s, name, breaks + rest);
    FieldsStep(d, 's', s, d.(name := name), breaks + rest);
    assert "s=" + s == ['s'] + ("=" + s) by { Regroup(['s'], "=", s); }
  }

  lemma BreaksSkipped(breaks: string, rest: string)
    requires breaks != "" && All(IsNewline, breaks) && Begins(rest)
    ensures SkipNewlines(breaks + rest) == rest && AtLineEnd(breaks + rest)
  {
    SpanIs(IsNewline, breaks, rest);
    assert (breaks + rest)[0] == breaks[0];
  }

  /** The protocol of plain UDP is known in both cases of its letters. */
  lemma UdpInBothCases()
    ensures ProtoFrom("UDP") == ProtoFrom("udp") == Some(UDP)
  {
  }

  /** A media line with a number of ports is never read, because the slash is taken for the protocol. */
  lemma PortCountMisread(kind: MediaType, port: nat, more: string)
    requires kind != Application && port <= 0xFFFF
    ensures ParseMedia(KindText(kind) + (" " + (Decimal(port) + ("/" + more)))).Err?
  {
    hide Decimal, KindText, KindFrom, ParseProto, ParseMedia, ScanNumber, SkipWs, Span, IsDigit, IsSpace;
    NumberIsDark(port, "/" + more);
    KindWord(kind, " " + (Decimal(port) + ("/" + more)));
    SkipOneBlank(Decimal(port) + ("/" + more));
    ScanDecimal(port, 0xFFFF, "/" + more);
    SlashIsNoProto("/" + more);
    SlashIsDark("/" + more);
    MediaFails(KindText(kind) + (" " + (Decimal(port) + ("/" + more))), KindText(kind), " " + (Decimal(port) + ("/" + more)),
      port, "/" + more);
  }

  lemma NumberIsDark(n: nat, tail: string)
    requires tail != "" && tail[0] == '/'
    ensures var s := Decimal(n) + tail; s != "" && !IsSpace(s[0]) && !IsDigit(tail[0])
  {
    DecimalValue(n);
    assert (Decimal(n) + tail)[0] == Decimal(n)[0];
  }

  lemma SlashIsDark(s: string)
    requires s != "" && s[0] == '/'
    ensures SkipWs(s) == s
  {
    SkipNoWs(s);
  }

  lemma MediaFails(s: string, word: string, t: string, port: nat, u: string)
    requires var n := Span(IsToken, s); s[..n] == word && s[n..] == t && KindFrom(word).Some?
    requires ScanNumber(0xFFFF, SkipWs(t)) == Ok(port, u) && ParseProto(SkipWs(u)).Err?
    ensures ParseMedia(s).Err?
  {
    hide Span, KindFrom, ScanNumber, SkipWs, ParseProto, Formats;
  }

  lemma KindWord(kind: MediaType, tail: string)
    requires kind != Application && tail != "" && tail[0] == ' '
    ensures var s := KindText(kind) + tail; var n := Span(IsToken, s); s[..n] == KindText(kind) && s[n..] == tail && KindFrom(s[..n]) == Some(kind)
  {
    SpanIs(IsToken, KindText(kind), tail);
  }

  lemma SlashIsNoProto(s: string)
    requires s != "" && s[0] == '/'
    ensures ParseProto(s).Err?
  {
    var w := s[..Span(NotBlank, s)];
    assert w == "" || w[0] == '/';
  }

  lemma {:induction false} SplitCovers(sep: char, s: string, k: nat) returns (i: nat, j: nat)
    requires k < |s| && s[k] != sep
    ensures i < |Split(sep, s)| && j < |Split(sep, s)[i]| && Split(sep, s)[i][j] == s[k]
  {
    if k == 0 {
      i, j := 0, 0;
    } else {
      i, j := SplitCovers(sep, s[1..], k - 1);
      if s[0] == sep {
        i := i + 1;
      } else if i == 0 {
        j := j + 1;
      }
    }
  }

  lemma OctetIsDigits(s: string, j: nat)
    requires SipGrammar.ParseOctet(s).Some? && j < |s|
    ensures IsDigit(s[j])
  {
    assert s[..|s|] == s;
  }

  lemma SlashIsNoV6(s: string, k: nat)
    requires k < |s| && s[k] == '/'
    ensures !SipGrammar.IsV6Text(s)
  {
    assert !SipGrammar.IsHexGroup(s[k]);
  }

  /** An address with a slash in it is none. */
  lemma SlashIsNoAddress(s: string, k: nat)
    requires k < |s| && s[k] == '/'
    ensures SipGrammar.ParseIp(s).None?
  {
    if SipGrammar.ParseV4(s).Some? {
      var i, j := SplitCovers('.', s, k);
      OctetIsDigits(Split('.', s)[i], j);
      assert false;
    }
    SlashIsNoV6(s, k);
  }

  /** A connection line with a time to live behind its address is never read. */
  lemma TimeToLiveMisread(address: string, ttl: nat, rest: string)
    requires CleanText(address) && address != "" && !IsSpace(address[0])
    ensures ParseConnection("IN IP4 " + (address + ("/" + Decimal(ttl)) + (CRLF + rest))).Err?
  {
    var text := address + ("/" + Decimal(ttl));
    DecimalValue(ttl);
    DecimalAscii("/" + Decimal(ttl));
    Utf8Append(address, "/" + Decimal(ttl));
    assert CleanText(text) by {
      assert '\r' !in Decimal(ttl) && '\n' !in Decimal(ttl) by { assert !IsDigit('\r') && !IsDigit('\n'); }
    }
    ReadLineReads(text, CRLF + rest);
    assert text[|address|] == '/';
    SlashIsNoAddress(text, |address|);
    ConnectionFront(text + (CRLF + rest));
    hide CleanText, SipGrammar.ParseIp, Decimal, SkipWs;
    assert ReadLine(text + (CRLF + rest)) == TextWhile(InLine, text + (CRLF + rest));
    hide TextWhile, ReadLine;
  }

  lemma DecimalAscii(s: string)
    requires s != "" && s[0] == '/' && All(IsDigit, s[1..])
    ensures ValidUtf8(s)
  {
    assert forall i :: 1 <= i < |s| ==> s[i] == s[1..][i - 1];
    AsciiUtf8(s);
  }

  lemma NetIs(s: string)
    ensures ParseConnectionNet("IN" + s) == Ok(IN, s)
  {
    assert ("IN" + s)[..2] == "IN" && ("IN" + s)[2..] == s;
  }

  lemma AddrTypeIs(s: string)
    ensures PeekAddrType("IP4" + s) == Ok(IP4, s)
  {
    assert ("IP4" + s)[..3] == "IP4" && ("IP4" + s)[3..] == s;
  }

  lemma ConnectionFront(s: string)
    requires s != "" && !IsSpace(s[0])
    ensures ParseAddress(InLine, s).Err? ==> ParseConnection("IN IP4 " + s).Err?
  {
    hide ParseAddress, SkipWs, ParseConnectionNet, PeekAddrType;
    var t := "IP4" + (" " + s);
    assert "IN IP4 " + s == "IN" + (" " + t);
    NetIs(" " + t);
    assert t[0] == 'I' && !IsSpace('I');
    SkipOneBlank(t);
    AddrTypeIs(" " + s);
    SkipOneBlank(s);
  }

  /** Only version 0 is accepted. */
  lemma OtherVersionsFail(d: Sdp, s: string)
    requires s == "" || s[0] != '0'
    ensures Content(d, 'v', s).Err? && Content(d, 'v', s).kind == VersionKind
  {
    hide ParseAttribute, ParseOrigin, ParseConnection, ParseBandwidth, ParseTime, ParseRepeat, ParseMedia, ReadLine;
  }

  /** Repeat times without a time line in front of them are an error, whatever they are. */
  lemma RepeatNeedsTime(d: Sdp, s: string)
    requires d.time == []
    ensures Content(d, 'r', s).Err?
  {
    hide ParseAttribute, ParseOrigin, ParseConnection, ParseBandwidth, ParseTime, ParseRepeat, ParseMedia, ReadLine;
  }

  /** An empty text is a description without a name or a stream, whose origin is this machine. */
  lemma EmptyTextReads(local: Ip)
    ensures var r := ParseSdp(local, "");
            r.Ok? && r.value.origin.unicast == local && r.value.name == "" && r.value.media == [] && r.value.time == []
            && r.value.connection == None && r.value.attributes == []
  {
  }
}
