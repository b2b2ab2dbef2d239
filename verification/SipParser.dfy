/** The SIP parser over its scanner. Each method does to the scanner exactly what `SipGrammar` says of the text. */
module SipParsers {
  import opened Wrappers
  import opened Text
  import opened Parsing
  import opened Scanners
  import opened Messages
  import opened SipValues
  import opened Headers
  import G = SipGrammar
  import H = MessageGrammar
  import A = Auth

  class SipParser {
    const scanner: Scanner
    const readers: H.Readers

    constructor (buffer: string, readers: H.Readers)
      ensures scanner.Valid() && fresh(scanner) && scanner.Rest() == buffer && this.readers == readers
    {
      scanner := new Scanner(buffer);
      this.readers := readers;
    }

    method ParseScheme() returns (r: Result<Scheme, Kind>)
      requires scanner.Valid()
      modifies scanner
      ensures scanner.Did(G.ParseScheme(old(scanner.Rest())), r)
    {
      hide Scanner.Rest;
      var token := scanner.PeekWhile(G.IsToken);
      var scheme;
      if token == "sip" {
        scheme := Sip;
      } else if token == "sips" {
        scheme := Sips;
      } else {
        return Failure(SchemeKind);
      }
      scanner.AdvanceN(|token|);
      var _ :- scanner.MustRead(':');
      r := Success(scheme);
    }

    method ParsePassword() returns (pass: Option<string>)
      requires scanner.Valid()
      modifies scanner
      ensures scanner.Valid() && (pass, scanner.Rest()) == G.ParsePassword(old(scanner.Rest()))
    {
      hide G.IsPass, After, Scanner.Rest;
      var colon := scanner.ScanIfEq(':');
      if !colon {
        return None;
      }
      var text := scanner.ScanWhile(G.IsPass);
      pass := Some(text);
    }

    method ParseUserInfo() returns (r: Result<Option<UserInfo>, Kind>)
      requires scanner.Valid()
      modifies scanner
      ensures scanner.Did(G.ParseUserInfo(old(scanner.Rest())), r)
    {
      hide G.IsUser, G.ParsePassword, G.ExistsUserPart, After, Scanner.Rest;
      if !G.ExistsUserPart(scanner.Rest()) {
        return Success(None);
      }
      var user := scanner.ScanWhile(G.IsUser);
      var pass := ParsePassword();
      var at := scanner.MustRead('@');
      r := if at.Success? then Success(Some(UserInfo(user, pass))) else Failure(UriKind);
    }

    method ParsePort() returns (r: Result<Option<nat>, Kind>)
      requires scanner.Valid()
      modifies scanner
      ensures scanner.Did(G.ParsePort(old(scanner.Rest())), r)
    {
      hide Scanner.Rest;
      var colon := scanner.ScanIfEq(':');
      if !colon {
        return Success(None);
      }
      var port := scanner.ScanNumber(0xFFFF);
      r := if port.Success? then Success(Some(port.value)) else Failure(HostKind);
    }

    method ParseHost() returns (r: Result<Host, Kind>)
      requires scanner.Valid()
      modifies scanner
      ensures scanner.Did(G.ParseHost(old(scanner.Rest())), r)
    {
      hide G.IsHost, G.HostFrom, G.ParseIp, ValidUtf8, After, Scanner.Rest;
      var bracket := scanner.ScanIfEq('[');
      if bracket {
        var host := scanner.ScanWhile(G.NotBracket);
        if !ValidUtf8(host) {
          return Failure(HostKind);
        }
        var _ :- scanner.NextByte();
        var ip := G.ParseIp(host);
        r := if ip.Some? then Success(IpAddr(ip.value)) else Failure(HostKind);
      } else {
        var host := scanner.ScanWhile(G.IsHost);
        r := if host == "" then Failure(HostKind) else Success(G.HostFrom(host));
      }
    }

    method ParseHostPort() returns (r: Result<HostPort, Kind>)
      requires scanner.Valid()
      modifies scanner
      ensures scanner.Did(G.ParseHostPort(old(scanner.Rest())), r)
    {
      hide Scanner.Rest;
      var host :- ParseHost();
      var port :- ParsePort();
      r := Success(HostPort(host, port));
    }

    /** A parameter whose name and bare value are made of the characters in `func`. */
    method ParamRef(func: char -> bool) returns (r: Result<Param, Kind>)
      requires scanner.Valid()
      modifies scanner
      ensures scanner.Did(G.ParseParam(func, old(scanner.Rest())), r)
    {
      hide G.ParseParamValue, SkipWs, After, Scanner.Rest;
      scanner.SkipWs();
      var name := scanner.ScanWhile(func);
      var equals := scanner.ScanIfEq('=');
      if !equals {
        return Success(Param(name, None));
      }
      var value :- ParamValue(func);
      r := Success(Param(name, Some(value)));
    }

    /** A quoted text, or the characters in `func`. */
    method ParamValue(func: char -> bool) returns (r: Result<string, Kind>)
      requires scanner.Valid()
      modifies scanner
      ensures scanner.Did(G.ParseParamValue(func, old(scanner.Rest())), r)
    {
      hide ValidUtf8, After, Scanner.Rest;
      var quote := scanner.ScanIfEq('"');
      if quote {
        var value := scanner.ScanWhile(G.NotQuote);
        var _ :- scanner.NextByte();
        r := if ValidUtf8(value) then Success(value) else Failure(InvalidUtf8);
      } else {
        var value := scanner.ScanWhile(func);
        r := Success(value);
      }
    }

    /** The loop over parameters; `put` sets the field of a special parameter and pushes any other. */
    method ParseParams<T>(func: char -> bool, put: (T, Param) -> Result<T, Kind>, bare: T) returns (r: Result<T, Kind>)
      requires scanner.Valid()
      modifies scanner
      ensures scanner.Did(G.ParamLoop(func, put, bare, SkipWs(old(scanner.Rest()))), r)
    {
      hide G.ParseParam, SkipWs, After, Scanner.Rest;
      var value := bare;
      scanner.SkipWs();
      ghost var all := scanner.Rest();
      while true
        invariant scanner.Valid() && G.ParamLoop(func, put, bare, all) == G.ParamLoop(func, put, value, scanner.Rest())
        decreases |scanner.Rest()|
      {
        var more := scanner.ScanIfEq(';');
        if !more {
          break;
        }
        var p :- ParamRef(func);
        value :- put(value, p);
        scanner.SkipWs();
      }
      r := Success(value);
    }

    method ParseUriHeaders() returns (r: Result<seq<Param>, Kind>)
      requires scanner.Valid()
      modifies scanner
      ensures scanner.Did(G.UriHeaders([], old(scanner.Rest())), r)
    {
      hide G.ParseParam, G.IsHdrUri, After, Scanner.Rest;
      var headers: seq<Param> := [];
      ghost var all := scanner.Rest();
      while true
        invariant scanner.Valid()
        invariant G.UriHeaders([], all) == G.UriHeaders(headers, scanner.Rest())
        decreases |scanner.Rest()|
      {
        var param :- ParamRef(G.IsHdrUri);
        headers := headers + [param];
        var more := scanner.ScanIfEq('&');
        if !more {
          break;
        }
      }
      r := Success(headers);
    }

    method ParseUri(parseParams: bool) returns (r: Result<Uri, Kind>)
      requires scanner.Valid()
      modifies scanner
      ensures scanner.Did(G.ParseUri(parseParams, old(scanner.Rest())), r)
    {
      hide G.ParseScheme, G.ParseUserInfo, G.ParseHostPort, G.ParamLoop, G.UriHeaders, SkipWs, After, Scanner.Rest;
      var scheme :- ParseScheme();
      var user :- ParseUserInfo();
      var hostPort :- ParseHostPort();
      var uri := G.BareUri(scheme, user, hostPort);
      if !parseParams {
        return Success(uri);
      }
      uri :- ParseParams(G.IsParam, G.SetUriParam, uri);
      var question := scanner.ScanIfEq('?');
      if question {
        var headers :- ParseUriHeaders();
        uri := uri.(headers := Some(headers));
      }
      r := Success(uri);
    }

    method ParseDisplayName() returns (r: Result<Option<string>, Kind>)
      requires scanner.Valid()
      modifies scanner
      ensures scanner.Did(G.ParseDisplayName(old(scanner.Rest())), r)
    {
      hide ValidUtf8, G.IsToken, G.NotQuote, NextByte, SkipWs, After, Scanner.Rest;
      if scanner.Peek() == Some('"') {
        scanner.Bump('"');
        var name := scanner.ScanWhile(G.NotQuote);
        var _ :- scanner.NextByte();
        r := if ValidUtf8(name) then Success(Some(name)) else Failure(InvalidUtf8);
      } else if scanner.Peek() == Some('<') {
        r := Success(None);
      } else {
        var name := scanner.ScanWhile(G.IsToken);
        scanner.SkipWs();
        r := Success(Some(name));
      }
    }

    method ParseNameAddr() returns (r: Result<NameAddr, Kind>)
      requires scanner.Valid()
      modifies scanner
      ensures scanner.Did(G.ParseNameAddr(old(scanner.Rest())), r)
    {
      hide G.ParseDisplayName, G.ParseUri, SkipWs, After, Scanner.Rest;
      scanner.SkipWs();
      var display :- ParseDisplayName();
      scanner.SkipWs();
      var _ :- scanner.MustRead('<');
      var uri :- ParseUri(true);
      var _ :- scanner.MustRead('>');
      r := Success(NameAddr(display, uri));
    }

    method ParseSipUri(params: bool) returns (r: Result<SipUri, Kind>)
      requires scanner.Valid()
      modifies scanner
      ensures scanner.Did(G.ParseSipUri(params, old(scanner.Rest())), r)
    {
      hide G.ParseUri, G.ParseNameAddr, SkipWs, After, Scanner.Rest;
      scanner.SkipWs();
      if scanner.Peek() == Some('"') || scanner.Peek() == Some('<') {
        var nameAddr :- ParseNameAddr();
        r := Success(Named(nameAddr));
      } else {
        var word := scanner.PeekWhile(G.InSchemeOrDisplay);
        if word == "sip" || word == "sips" {
          var uri :- ParseUri(params);
          r := Success(PlainUri(uri));
        } else {
          var nameAddr :- ParseNameAddr();
          r := Success(Named(nameAddr));
        }
      }
    }

    method ParseSipVersion() returns (r: Result<(), Kind>)
      requires scanner.Valid()
      modifies scanner
      ensures scanner.Did(G.ParseSipVersion(old(scanner.Rest())), r)
    {
      hide Scanner.Rest;
      var version := scanner.MustScanSlice("SIP/2.0");
      r := if version.Success? then version else Failure(VersionKind);
    }

    method HeaderName() returns (r: Result<string, Kind>)
      requires scanner.Valid()
      modifies scanner
      ensures scanner.Did(G.ParseHeaderName(old(scanner.Rest())), r)
    {
      hide SkipWs, G.IsToken, After, Scanner.Rest;
      var name := scanner.ScanWhile(G.IsToken);
      scanner.SkipWs();
      var _ :- scanner.MustRead(':');
      scanner.SkipWs();
      r := Success(name);
    }

    method ParseViaTransport() returns (r: Result<Transport, Kind>)
      requires scanner.Valid()
      modifies scanner
      ensures scanner.Did(G.ParseViaTransport(old(scanner.Rest())), r)
    {
      hide Scanner.Rest;
      var token := scanner.ScanWhile(G.IsToken);
      var transport := G.TransportFrom(token);
      r := if transport.Some? then Success(transport.value) else Failure(TransportKind);
    }

    method ParseComment() returns (r: Result<Option<string>, Kind>)
      requires scanner.Valid()
      modifies scanner
      ensures scanner.Did(G.ParseComment(old(scanner.Rest())), r)
    {
      hide Scanner.Rest;
      var open := scanner.ScanIfEq('(');
      if !open {
        return Success(None);
      }
      var comment := scanner.ScanWhile(G.NotParen);
      var _ :- scanner.NextByte();
      r := if ValidUtf8(comment) then Success(Some(comment)) else Failure(InvalidUtf8);
    }

    method ParseVia() returns (r: Result<Via, Kind>)
      requires scanner.Valid()
      modifies scanner
      ensures scanner.Did(G.ParseVia(old(scanner.Rest())), r)
    {
      hide G.ParseSipVersion, G.ParseViaTransport, G.ParseHostPort, G.ParamLoop, G.ParseComment, SkipWs, After, Scanner.Rest;
      var _ :- ParseSipVersion();
      var _ :- scanner.NextByte();
      var transport :- ParseViaTransport();
      scanner.SkipWs();
      var sentBy :- ParseHostPort();
      var via :- ParseParams(G.IsViaParam, G.SetViaParam, G.BareVia(transport, sentBy));
      var comment :- ParseComment();
      r := Success(via.(comment := comment));
    }

    method ParseParty() returns (r: Result<Party, Kind>)
      requires scanner.Valid()
      modifies scanner
      ensures scanner.Did(H.ParseParty(old(scanner.Rest())), r)
    {
      hide G.ParseSipUri, G.ParamLoop, SkipWs, After, Scanner.Rest;
      var uri :- ParseSipUri(false);
      r := ParseParams(G.IsToken, H.PutTag, Party(uri, None, []));
    }

    method ParseRoute() returns (r: Result<Header, Kind>)
      requires scanner.Valid()
      modifies scanner
      ensures scanner.Did(H.ParseRoute(old(scanner.Rest())), r)
    {
      hide G.ParseNameAddr, G.ParamLoop, SkipWs, After, Scanner.Rest;
      var addr :- ParseNameAddr();
      var params :- ParseParams<seq<Param>>(G.IsToken, H.PutParam, []);
      r := Success(RecordRoute(addr, params));
    }

    method ParseCSeq() returns (r: Result<CSeq, Kind>)
      requires scanner.Valid()
      modifies scanner
      ensures scanner.Did(H.ParseCSeq(old(scanner.Rest())), r)
    {
      hide MethodFrom, SkipWs, ScanNumber, After, Scanner.Rest;
      var cseq :- scanner.ScanNumber(H.U32_MAX);
      scanner.SkipWs();
      var word := scanner.ScanWhile(H.IsAlphabetic);
      r := Success(CSeq(cseq, MethodFrom(word)));
    }

    /** Each Via behind a comma is one more header. */
    method ParseVias() returns (r: Result<seq<Header>, Kind>)
      requires scanner.Valid()
      modifies scanner
      ensures scanner.Did(H.Joined(H.ReadVia, [], old(scanner.Rest())), r)
    {
      hide G.ParseVia, After, Scanner.Rest;
      var headers: seq<Header> := [];
      ghost var all := scanner.Rest();
      while true
        invariant scanner.Valid() && H.Joined(H.ReadVia, [], all) == H.Joined(H.ReadVia, headers, scanner.Rest())
        decreases |scanner.Rest()|
      {
        var via :- ParseVia();
        headers := headers + [ViaHeader(via)];
        var more := scanner.ScanIfEq(',');
        if !more {
          break;
        }
      }
      r := Success(headers);
    }

    method ParseRoutes() returns (r: Result<seq<Header>, Kind>)
      requires scanner.Valid()
      modifies scanner
      ensures scanner.Did(H.Joined(H.ParseRoute, [], old(scanner.Rest())), r)
    {
      hide H.ParseRoute, After, Scanner.Rest;
      var headers: seq<Header> := [];
      ghost var all := scanner.Rest();
      while true
        invariant scanner.Valid() && H.Joined(H.ParseRoute, [], all) == H.Joined(H.ParseRoute, headers, scanner.Rest())
        decreases |scanner.Rest()|
      {
        var route :- ParseRoute();
        headers := headers + [route];
        var more := scanner.ScanIfEq(',');
        if !more {
          break;
        }
      }
      r := Success(headers);
    }

    /** The parameters of a challenge or a credential, up to the one behind which there is no comma. */
    method ParseDigest<T>(put: (T, Param) -> T, bare: T) returns (r: Result<T, Kind>)
      requires scanner.Valid()
      modifies scanner
      ensures scanner.Did(A.DigestLoop(put, bare, old(scanner.Rest())), r)
    {
      hide G.ParseParam, SkipWs, After, Scanner.Rest;
      var digest := bare;
      ghost var all := scanner.Rest();
      while true
        invariant scanner.Valid() && A.DigestLoop(put, bare, all) == A.DigestLoop(put, digest, scanner.Rest())
        decreases |scanner.Rest()|
      {
        scanner.SkipWs();
        var param :- ParamRef(G.IsToken);
        digest := put(digest, param);
        var more := scanner.ScanIfEq(',');
        if !more {
          break;
        }
      }
      r := Success(digest);
    }

    /** A challenge or a credential. */
    method ParseAuth<T>(put: (T, Param) -> T, bare: T) returns (r: Result<A.Auth<T>, Kind>)
      requires scanner.Valid()
      modifies scanner
      ensures scanner.Did(A.ParseAuth(put, bare, old(scanner.Rest())), r)
    {
      hide G.ParseParamValue, A.DigestLoop, G.ParamLoop, SkipWs, After, Scanner.Rest;
      var scheme :- ParamValue(G.IsToken);
      if scheme == "Digest" {
        var digest :- ParseDigest(put, bare);
        return Success(A.Digest(digest));
      }
      var params :- ParseParams<seq<Param>>(G.IsToken, H.PutParam, []);
      r := Success(A.OtherScheme(scheme, params));
    }

    method ParseAuthChallenge() returns (r: Result<A.Auth<A.DigestChallenge>, Kind>)
      requires scanner.Valid()
      modifies scanner
      ensures scanner.Did(A.ParseAuth(A.PutChallenge, A.NO_CHALLENGE, old(scanner.Rest())), r)
    {
      hide Scanner.Rest;
      r := ParseAuth(A.PutChallenge, A.NO_CHALLENGE);
    }

    method ParseAuthCredential() returns (r: Result<A.Auth<A.DigestCredential>, Kind>)
      requires scanner.Valid()
      modifies scanner
      ensures scanner.Did(A.ParseAuth(A.PutCredential, A.NO_CREDENTIAL, old(scanner.Rest())), r)
    {
      hide Scanner.Rest;
      r := ParseAuth(A.PutCredential, A.NO_CREDENTIAL);
    }

    /** What a reader of another kind does to the scanner. */
    method Read<T>(read: string -> Parse<T>) returns (r: Result<T, Kind>)
      requires scanner.Valid() && H.Forward(read)
      modifies scanner
      ensures scanner.Did(read(old(scanner.Rest())), r)
    {
      hide Scanner.Rest;
      var p := read(scanner.Rest());
      scanner.AdvanceN(|scanner.Rest()| - |p.rest|);
      r := p.Map();
    }

    /** Elements joined by commas, with blanks in front of each. */
    method CollectElems<T>(read: string -> Parse<T>) returns (r: Result<seq<T>, Kind>)
      requires scanner.Valid() && H.Forward(read)
      modifies scanner
      ensures scanner.Did(H.Joined(H.AfterBlanks(read), [], old(scanner.Rest())), r)
    {
      hide After, Scanner.Rest;
      var elems: seq<T> := [];
      ghost var all := scanner.Rest();
      while true
        invariant scanner.Valid()
        invariant H.Joined(H.AfterBlanks(read), [], all) == H.Joined(H.AfterBlanks(read), elems, scanner.Rest())
        decreases |scanner.Rest()|
      {
        scanner.SkipWs();
        var elem :- Read(read);
        elems := elems + [elem];
        var more := scanner.ScanIfEq(',');
        if !more {
          break;
        }
      }
      r := Success(elems);
    }

    /** Each element behind a comma is one more header of that name. */
    method ParseRepeated(name: string, read: string -> Parse<string>) returns (r: Result<seq<Header>, Kind>)
      requires scanner.Valid() && H.Forward(read)
      modifies scanner
      ensures scanner.Did(H.Joined(H.ReadOther(name, read), [], old(scanner.Rest())), r)
    {
      hide After, Scanner.Rest;
      var headers: seq<Header> := [];
      ghost var all := scanner.Rest();
      while true
        invariant scanner.Valid()
        invariant H.Joined(H.ReadOther(name, read), [], all) == H.Joined(H.ReadOther(name, read), headers, scanner.Rest())
        decreases |scanner.Rest()|
      {
        var value :- Read(read);
        headers := headers + [OtherHeader(name, [value])];
        var more := scanner.ScanIfEq(',');
        if !more {
          break;
        }
      }
      r := Success(headers);
    }

    method ParseOther(name: string, read: string -> Parse<string>) returns (r: Result<seq<Header>, Kind>)
      requires scanner.Valid() && H.Forward(read)
      modifies scanner
      ensures scanner.Did(H.ParseOther(read, name, old(scanner.Rest())), r)
    {
      hide H.IsRepeated, H.IsListed, H.IsSingle, H.Joined, ReadLine, After, Scanner.Rest;
      if H.IsRepeated(name) {
        r := ParseRepeated(name, read);
      } else if H.IsListed(name) {
        var values :- CollectElems(read);
        r := Success([OtherHeader(name, values)]);
      } else if H.IsSingle(name) {
        var value :- Read(read);
        r := Success([OtherHeader(name, [value])]);
      } else {
        var data :- scanner.ScanLine();
        r := Success([RawHeader(name, data)]);
      }
    }

    method ParseHeader(name: string) returns (r: Result<seq<Header>, Kind>)
      requires scanner.Valid() && H.AllForward(readers)
      modifies scanner
      ensures scanner.Did(H.ParseHeader(readers, name, old(scanner.Rest())), r)
    {
      hide H.Joined, H.ParseOther, H.ParseParty, H.ParseCSeq, ReadLine, ScanNumber, After, Scanner.Rest;
      if name == "Via" || name == "v" {
        r := ParseVias();
      } else if name == "Record-Route" {
        r := ParseRoutes();
      } else if name == "From" || name == "f" {
        var party :- ParseParty();
        r := Success([FromHeader(party)]);
      } else if name == "To" || name == "t" {
        var party :- ParseParty();
        r := Success([ToHeader(party)]);
      } else if name == "Call-ID" || name == "i" {
        var id :- scanner.ScanLine();
        r := Success([CallIdHeader(id)]);
      } else if name == "CSeq" {
        var cseq :- ParseCSeq();
        r := Success([CSeqHeader(cseq)]);
      } else if name == "Content-Length" || name == "l" {
        var length :- scanner.ScanNumber(H.U32_MAX);
        r := Success([ContentLength(length)]);
      } else {
        r := ParseOther(name, readers(name));
      }
    }

    /** The header loop. */
    method ParseHeaders() returns (r: Result<seq<Header>, Kind>)
      requires scanner.Valid() && H.AllForward(readers)
      modifies scanner
      ensures scanner.Did(H.HeaderLoop(readers, [], old(scanner.Rest())), r)
    {
      hide G.ParseHeaderName, H.ParseHeader, ScanNewline, After, Scanner.Rest;
      var headers: seq<Header> := [];
      ghost var all := scanner.Rest();
      while true
        invariant scanner.Valid() && H.HeaderLoop(readers, [], all) == H.HeaderLoop(readers, headers, scanner.Rest())
        decreases |scanner.Rest()|
      {
        var name :- HeaderName();
        var more :- ParseHeader(name);
        headers := headers + more;
        var _ :- scanner.ScanNewline();
        if AtLineEnd(scanner.Rest()) {
          break;
        }
      }
      r := Success(headers);
    }

    method ParseStatusCode() returns (r: Result<StatusCode, Kind>)
      requires scanner.Valid()
      modifies scanner
      ensures scanner.Did(H.ParseStatusCode(old(scanner.Rest())), r)
    {
      hide SkipWs, After, Scanner.Rest;
      scanner.SkipWs();
      var digits := scanner.ScanWhile(IsDigit);
      scanner.SkipWs();
      var code := H.CodeFrom(digits);
      r := if code.Some? then Success(code.value) else Failure(StatusCodeKind);
    }

    method ParseStatusLine() returns (r: Result<FirstLine, Kind>)
      requires scanner.Valid()
      modifies scanner
      ensures scanner.Did(H.ParseStatusLine(old(scanner.Rest())), r)
    {
      hide G.ParseSipVersion, H.ParseStatusCode, ReadLine, After, Scanner.Rest;
      var _ :- ParseSipVersion();
      var code :- ParseStatusCode();
      var reason :- scanner.ScanLine();
      var _ := scanner.ScanWhile(IsNewline);
      r := Success(StatusLine(code, reason));
    }

    method ParseRequestLine() returns (r: Result<FirstLine, Kind>)
      requires scanner.Valid()
      modifies scanner
      ensures scanner.Did(H.ParseRequestLine(old(scanner.Rest())), r)
    {
      hide G.ParseSipVersion, G.ParseUri, MethodFrom, SkipWs, G.IsToken, After, Scanner.Rest;
      var token := scanner.ScanWhile(G.IsToken);
      scanner.SkipWs();
      var uri :- ParseUri(true);
      scanner.SkipWs();
      var _ :- ParseSipVersion();
      var _ := scanner.ScanWhile(IsNewline);
      r := Success(RequestLine(MethodFrom(token), uri));
    }

    /** A whole message. */
    method ParseSipMsg() returns (r: Result<SipMessage, Kind>)
      requires scanner.Valid() && H.AllForward(readers)
      modifies scanner
      ensures scanner.Did(H.ParseMessage(readers, old(scanner.Rest())), r)
    {
      hide H.ParseStatusLine, H.ParseRequestLine, H.HeaderLoop, H.HasContentType, After, Scanner.Rest;
      var line;
      if "SIP/2.0" <= scanner.Rest() {
        line :- ParseStatusLine();
      } else {
        line :- ParseRequestLine();
      }
      var headers :- ParseHeaders();
      var body := None;
      if H.HasContentType(headers) {
        var _ := scanner.ScanWhile(IsNewline);
        body := Some(scanner.Rest());
      }
      r := Success(SipMessage(line, headers, body));
    }
  }
}
