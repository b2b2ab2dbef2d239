/** The parser for session descriptions over its scanner; each method does to the scanner what `SdpGrammar` says of the text. */
module SdpParsers {
  import opened Wrappers
  import opened Text
  import opened Parsing
  import opened Scanners
  import opened SipValues
  import opened SdpValues
  import SipGrammar
  import G = SdpGrammar

  class SdpParser {
    const scanner: Scanner

    constructor (buffer: string)
      ensures scanner.Valid() && fresh(scanner) && scanner.Rest() == buffer
    {
      scanner := new Scanner(buffer);
    }

    /** The whole description, read into a new object. */
    method ParseSdp(local: Ip) returns (r: Result<SessionDescription, Kind>)
      requires scanner.Valid()
      modifies scanner
      ensures r.Success? <==> G.ParseSdp(local, old(scanner.Rest())).Ok?
      ensures r.Success? ==> fresh(r.value) && r.value.Value() == G.ParseSdp(local, old(scanner.Rest())).value
      ensures r.Failure? ==> r.error == G.ParseSdp(local, old(scanner.Rest())).kind
    {
      hide G.Content, Scanner.Rest;
      var sdp := new SessionDescription(local);
      ghost var all := scanner.Rest();
      while scanner.Peek().Some?
        invariant scanner.Valid() && fresh(sdp)
        invariant G.ParseSdp(local, all) == G.Fields(sdp.Value(), scanner.Rest())
        decreases |scanner.Rest()|
      {
        var field := ReadField();
        if field.Failure? {
          return Failure(field.error);
        }
        var content := ParseContent(sdp, field.value);
        if content.Failure? {
          return Failure(content.error);
        }
        HandleNewLine();
      }
      r := Success(sdp);
    }

    method ReadField() returns (r: Result<char, Kind>)
      requires scanner.Valid()
      modifies scanner
      ensures scanner.Did(G.FieldName(old(scanner.Rest())), r)
    {
      hide Scanner.Rest;
      var field :- scanner.NextByte();
      var _ :- scanner.MustRead('=');
      r := Success(field);
    }

    method HandleNewLine()
      requires scanner.Valid()
      modifies scanner
      ensures scanner.Valid() && scanner.Rest() == Parsing.SkipNewlines(old(scanner.Rest()))
    {
      hide Scanner.Rest;
      var _ := scanner.ScanWhile(IsNewline);
    }

    /** The content of one field is put into the description. */
    method ParseContent(sdp: SessionDescription, field: char) returns (r: Result<(), Kind>)
      requires scanner.Valid()
      modifies scanner, sdp
      ensures var p := G.Content(old(sdp.Value()), field, old(scanner.Rest()));
              scanner.Valid() && scanner.Rest() == p.rest && r == (if p.Ok? then Success(()) else Failure(p.kind))
              && (p.Ok? ==> sdp.Value() == p.value)
    {
      hide G.ParseAttribute, G.ParseOrigin, G.ParseConnection, G.ParseBandwidth, G.ParseTime, G.ParseRepeat, G.ParseMedia, Parsing.ReadLine, Scanner.Rest;
      match field {
        case 'a' =>
          var attr :- ParseAttribute();
          sdp.SetAttr(attr);
        case 'v' =>
          var _ :- ParseVersion();
        case 'o' =>
          var origin :- ParseOrigin();
          sdp.SetOrigin(origin);
        case 's' =>
          var name :- ReadLine();
          sdp.SetName(name);
        case 'c' =>
          var conn :- ParseConnectionInfo();
          sdp.SetConnection(conn);
        case 'i' =>
          var info :- ReadLine();
          sdp.SetInformation(info);
        case 'u' =>
          var uri :- ReadLine();
          sdp.SetUri(uri);
        case 'e' =>
          var email :- ReadLine();
          sdp.SetEmailAddr(email);
        case 'p' =>
          var phone :- ReadLine();
          sdp.SetPhone(phone);
        case 'b' =>
          var bandwidth :- ParseBandwidth();
          sdp.SetBandwidthInformation(bandwidth);
        case 't' =>
          var timing :- ParseTime();
          sdp.SetTimeDesc(timing);
        case 'r' =>
          var repeat :- ParseRepeatTimes();
          var ok := sdp.SetRepeatTimes(repeat);
          if !ok {
            return Failure(NoTimeKind);
          }
        case 'm' =>
          var media :- ParseMediaDescription();
          sdp.SetMediaDescription(media);
        case _ =>
      }
      r := Success(());
    }

    method ParseVersion() returns (r: Result<(), Kind>)
      requires scanner.Valid()
      modifies scanner
      ensures scanner.Did(MustRead('0', old(scanner.Rest())).As(VersionKind), r)
    {
      hide Scanner.Rest;
      var zero := scanner.MustRead('0');
      r := if zero.Success? then zero else Failure(VersionKind);
    }

    method ReadLine() returns (r: Result<string, Kind>)
      requires scanner.Valid()
      modifies scanner
      ensures scanner.Did(Parsing.ReadLine(old(scanner.Rest())), r)
    {
      hide Scanner.Rest;
      r := scanner.ScanLine();
    }

    method ParseAddress(func: char -> bool) returns (r: Result<Ip, Kind>)
      requires scanner.Valid()
      modifies scanner
      ensures scanner.Did(G.ParseAddress(func, old(scanner.Rest())), r)
    {
      hide Scanner.Rest;
      var text :- scanner.ScanWhileAsStr(func);
      var ip := SipGrammar.ParseIp(text);
      if ip.None? {
        return Failure(SyntaxKind);
      }
      scanner.SkipWs();
      r := Success(ip.value);
    }

    method ParseOriginNet() returns (r: Result<NetType, Kind>)
      requires scanner.Valid()
      modifies scanner
      ensures scanner.Did(G.ParseOriginNet(old(scanner.Rest())), r)
    {
      hide Scanner.Rest;
      var text :- scanner.ScanWhileAsStr(G.NotSpace);
      r := Success(if text == "IN" then IN else OtherNet(text));
    }

    method ParseAddrType() returns (r: Result<AddrType, Kind>)
      requires scanner.Valid()
      modifies scanner
      ensures scanner.Did(G.ParseAddrType(old(scanner.Rest())), r)
    {
      hide Scanner.Rest;
      var text :- scanner.ScanWhileAsStr(G.NotSpace);
      r := if text == "IP4" then Success(IP4) else if text == "IP6" then Success(IP6) else Failure(AddrTypeKind);
    }

    method ParseOrigin() returns (r: Result<Origin, Kind>)
      requires scanner.Valid()
      modifies scanner
      ensures scanner.Did(G.ParseOrigin(old(scanner.Rest())), r)
    {
      hide TextWhile, ScanNumber, SkipWs, G.ParseOriginNet, G.ParseAddrType, G.ParseAddress, After, Scanner.Rest;
      var user :- scanner.ScanWhileAsStr(G.NotWhite);
      scanner.SkipWs();
      var sessionId :- scanner.ScanNumber(G.U64_MAX);
      scanner.SkipWs();
      var sessionVersion :- scanner.ScanNumber(G.U64_MAX);
      scanner.SkipWs();
      var netType :- ParseOriginNet();
      scanner.SkipWs();
      var addrType :- ParseAddrType();
      scanner.SkipWs();
      var unicast :- ParseAddress(G.InAddress);
      r := Success(Origin(user, sessionId, sessionVersion, netType, addrType, unicast));
    }

    method ParseConnectionNet() returns (r: Result<NetType, Kind>)
      requires scanner.Valid()
      modifies scanner
      ensures scanner.Did(G.ParseConnectionNet(old(scanner.Rest())), r)
    {
      hide Scanner.Rest;
      if "IN" <= scanner.Rest() {
        scanner.AdvanceN(2);
        r := Success(IN);
      } else {
        var other :- scanner.ScanWhileAsStr(G.NotBlank);
        r := Success(OtherNet(other));
      }
    }

    method PeekAddrType() returns (r: Result<AddrType, Kind>)
      requires scanner.Valid()
      modifies scanner
      ensures scanner.Did(G.PeekAddrType(old(scanner.Rest())), r)
    {
      hide Scanner.Rest;
      if "IP4" <= scanner.Rest() {
        r := Success(IP4);
      } else if "IP6" <= scanner.Rest() {
        r := Success(IP6);
      } else {
        return Failure(SyntaxKind);
      }
      scanner.AdvanceN(3);
    }

    method ParseConnectionInfo() returns (r: Result<Connection, Kind>)
      requires scanner.Valid()
      modifies scanner
      ensures scanner.Did(G.ParseConnection(old(scanner.Rest())), r)
    {
      hide SkipWs, G.ParseConnectionNet, G.PeekAddrType, G.ParseAddress, After, Scanner.Rest;
      var netType :- ParseConnectionNet();
      scanner.SkipWs();
      var addrType :- PeekAddrType();
      scanner.SkipWs();
      var address :- ParseAddress(Parsing.InLine);
      r := Success(Connection(netType, addrType, address));
    }

    method ParseProto() returns (r: Result<SdpTransport, Kind>)
      requires scanner.Valid()
      modifies scanner
      ensures scanner.Did(G.ParseProto(old(scanner.Rest())), r)
    {
      hide Scanner.Rest;
      var bytes := scanner.ScanWhile(G.NotBlank);
      var proto := G.ProtoFrom(bytes);
      r := if proto.Some? then Success(proto.value) else Failure(ProtoKind);
    }

    method ParseFormats() returns (formats: seq<string>)
      requires scanner.Valid()
      modifies scanner
      ensures scanner.Valid() && (formats, scanner.Rest()) == G.Formats([], old(scanner.Rest()))
    {
      hide After, Scanner.Rest;
      formats := [];
      ghost var all := scanner.Rest();
      while scanner.Peek().Some? && IsSpace(scanner.Peek().value)
        invariant scanner.Valid()
        invariant G.Formats([], all) == G.Formats(formats, scanner.Rest())
        decreases |scanner.Rest()|
      {
        scanner.Bump(scanner.Peek().value);
        var format := scanner.ScanWhile(G.IsToken);
        formats := formats + [format];
        if Parsing.AtLineEnd(scanner.Rest()) {
          return;
        }
      }
    }

    method ParseMediaDescription() returns (r: Result<Media, Kind>)
      requires scanner.Valid()
      modifies scanner
      ensures scanner.Did(G.ParseMedia(old(scanner.Rest())), r)
    {
      hide SkipWs, G.ParseProto, G.Formats, G.IsToken, After, ScanNumber, Scanner.Rest;
      var word := scanner.ScanWhile(G.IsToken);
      var kind := G.KindFrom(word);
      if kind.None? {
        return Failure(MediaTypeKind);
      }
      scanner.SkipWs();
      var port :- scanner.ScanNumber(0xFFFF);
      scanner.SkipWs();
      var proto :- ParseProto();
      var formats := ParseFormats();
      r := Success(G.BareMedia(kind.value, port, proto, formats));
    }

    method ParseTime() returns (r: Result<Time, Kind>)
      requires scanner.Valid()
      modifies scanner
      ensures scanner.Did(G.ParseTime(old(scanner.Rest())), r)
    {
      hide Scanner.Rest;
      var start :- scanner.ScanNumber(G.U64_MAX);
      var _ :- scanner.MustRead(' ');
      var stop :- scanner.ScanNumber(G.U64_MAX);
      r := Success(Time(start, stop, []));
    }

    method ParseOffsets() returns (r: Result<seq<int>, Kind>)
      requires scanner.Valid()
      modifies scanner
      ensures scanner.Did(G.Offsets([], old(scanner.Rest())), r)
    {
      hide After, ScanNumber, Scanner.Rest;
      var offsets: seq<int> := [];
      ghost var all := scanner.Rest();
      while scanner.Peek().Some? && IsSpace(scanner.Peek().value)
        invariant scanner.Valid()
        invariant G.Offsets([], all) == G.Offsets(offsets, scanner.Rest())
        decreases |scanner.Rest()|
      {
        scanner.Bump(scanner.Peek().value);
        var offset :- scanner.ScanNumber(G.I64_MAX);
        offsets := offsets + [offset];
        if Parsing.AtLineEnd(scanner.Rest()) {
          return Success(offsets);
        }
      }
      r := Success(offsets);
    }

    method ParseRepeatTimes() returns (r: Result<Repeat, Kind>)
      requires scanner.Valid()
      modifies scanner
      ensures scanner.Did(G.ParseRepeat(old(scanner.Rest())), r)
    {
      hide Scanner.Rest;
      var interval :- scanner.ScanNumber(G.I64_MAX);
      scanner.SkipWs();
      var duration :- scanner.ScanNumber(G.I64_MAX);
      var offsets :- ParseOffsets();
      r := Success(Repeat(interval, duration, offsets));
    }

    method ParseBandwidth() returns (r: Result<Bandwidth, Kind>)
      requires scanner.Valid()
      modifies scanner
      ensures scanner.Did(G.ParseBandwidth(old(scanner.Rest())), r)
    {
      hide TextWhile, ScanNumber, Scanner.Rest;
      var kind :- scanner.ScanWhileAsStr(G.NotColon);
      var bandwidth :- scanner.ScanNumber(G.U64_MAX);
      r := Success(Bandwidth(G.BwFrom(kind), bandwidth));
    }

    method ParseAttribute() returns (r: Result<Attribute, Kind>)
      requires scanner.Valid()
      modifies scanner
      ensures scanner.Did(G.ParseAttribute(old(scanner.Rest())), r)
    {
      hide Scanner.Rest;
      var name := scanner.ScanWhile(G.IsToken);
      var colon := scanner.ScanIfEq(':');
      if !colon {
        return Success(Attribute(name, None));
      }
      var value :- ReadLine();
      r := Success(Attribute(name, Some(value)));
    }
  }
}
