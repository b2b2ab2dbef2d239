/**
 * What the parser for session descriptions reads, as functions on the text in front of it; the methods of `SdpParsers` are
 * proved to do exactly this to their scanner.
 */
module SdpGrammar {
  import opened Wrappers
  import opened Text
  import opened Parsing
  import opened SipValues
  import opened SdpValues
  import SipGrammar

  const U64_MAX := 0xFFFF_FFFF_FFFF_FFFF
  const I64_MAX := 0x7FFF_FFFF_FFFF_FFFF

  predicate IsToken(c: char) {
    || IsAlphanumeric(c)
    || c == '!' || c == '#' || c == '$' || c == '%' || c == '&' || c == '\'' || c == '*' || c == '+' || c == '-' || c == '.'
    || c == '^' || c == '_' || c == '`' || c == '{' || c == '|' || c == '}' || c == '~'
  }

  predicate NotWhite(c: char) { !IsSpace(c) && !IsNewline(c) && c as int != 0x0C }

  predicate NotSpace(c: char) { c != ' ' }

  predicate NotBlank(c: char) { !IsSpace(c) }

  predicate InAddress(c: char) { !IsSpace(c) && !IsNewline(c) }

  predicate NotColon(c: char) { c != ':' }

  function ParseAddrType(s: string): (r: Parse<AddrType>)
    ensures |r.rest| <= |s|
  {
    var (text, t) :- TextWhile(NotSpace, s);
    if text == "IP4" then Ok(IP4, t) else if text == "IP6" then Ok(IP6, t) else Err(AddrTypeKind, t)
  }

  function ParseAddress(p: char -> bool, s: string): (r: Parse<Ip>)
    ensures |r.rest| <= |s|
  {
    var (text, t) :- TextWhile(p, s);
    var ip := SipGrammar.ParseIp(text);
    if ip.Some? then Ok(ip.value, SkipWs(t)) else Err(SyntaxKind, t)
  }

  function ParseOriginNet(s: string): (r: Parse<NetType>)
    ensures |r.rest| <= |s|
  {
    var (text, t) :- TextWhile(NotSpace, s);
    Ok(if text == "IN" then IN else OtherNet(text), t)
  }

  function ParseOrigin(s: string): (r: Parse<Origin>)
    ensures |r.rest| <= |s|
  {
    var (user, t) :- TextWhile(NotWhite, s);
    var (id, t) :- ScanNumber(U64_MAX, SkipWs(t));
    var (version, t) :- ScanNumber(U64_MAX, SkipWs(t));
    var (net, t) :- ParseOriginNet(SkipWs(t));
    var (addr, t) :- ParseAddrType(SkipWs(t));
    var (ip, t) :- ParseAddress(InAddress, SkipWs(t));
    Ok(Origin(user, id, version, net, addr, ip), t)
  }

  /** Anything that starts with `IN` is taken for it. */
  function ParseConnectionNet(s: string): (r: Parse<NetType>)
    ensures |r.rest| <= |s|
  {
    if "IN" <= s then Ok(IN, s[2..])
    else
      var (text, t) :- TextWhile(NotBlank, s);
      Ok(OtherNet(text), t)
  }

  function PeekAddrType(s: string): (r: Parse<AddrType>)
    ensures |r.rest| <= |s|
  {
    if "IP4" <= s then Ok(IP4, s[3..]) else if "IP6" <= s then Ok(IP6, s[3..]) else Err(SyntaxKind, s)
  }

  function ParseConnection(s: string): (r: Parse<Connection>)
    ensures |r.rest| <= |s|
  {
    var (net, t) :- ParseConnectionNet(s);
    var (addr, t) :- PeekAddrType(SkipWs(t));
    var (ip, t) :- ParseAddress(InLine, SkipWs(t));
    Ok(Connection(net, addr, ip), t)
  }

  function KindFrom(s: string): Option<MediaType> {
    if s == "audio" then Some(Audio) else if s == "video" then Some(Video) else if s == "text" then Some(TextMedia)
    else if s == "message" then Some(MessageMedia) else None
  }

  function ProtoFrom(s: string): Option<SdpTransport> {
    if s == "UDP" || s == "udp" then Some(UDP) else if s == "RTP/AVP" then Some(RtpAvp) else if s == "RTP/AVPF" then Some(RtpAvpf)
    else if s == "RTP/SAVP" then Some(RtpSavp) else if s == "RTP/SAVPF" then Some(RtpSavpf) else None
  }

  function Formats(fs: seq<string>, s: string): (r: (seq<string>, string))
    ensures |r.1| <= |s|
    decreases |s|
  {
    if s == "" || !IsSpace(s[0]) then (fs, s)
    else
      var n := Span(IsToken, s[1..]);
      var t := s[1..][n..];
      if AtLineEnd(t) then (fs + [s[1..][..n]], t) else Formats(fs + [s[1..][..n]], t)
  }

  function BareMedia(kind: MediaType, port: nat, proto: SdpTransport, formats: seq<string>): Media {
    Media(kind, proto, port, None, formats, None, None, [], [])
  }

  function ParseMedia(s: string): (r: Parse<Media>)
    ensures |r.rest| <= |s|
  {
    var n := Span(IsToken, s);
    if KindFrom(s[..n]).None? then Err(MediaTypeKind, s[n..])
    else
      var (port, t) :- ScanNumber(0xFFFF, SkipWs(s[n..]));
      var (proto, t) :- ParseProto(SkipWs(t));
      var (formats, t) := Formats([], t);
      Ok(BareMedia(KindFrom(s[..n]).value, port, proto, formats), t)
  }

  function ParseProto(s: string): (r: Parse<SdpTransport>)
    ensures |r.rest| <= |s|
  {
    var n := Span(NotBlank, s);
    if ProtoFrom(s[..n]).Some? then Ok(ProtoFrom(s[..n]).value, s[n..]) else Err(ProtoKind, s[n..])
  }

  function ParseTime(s: string): (r: Parse<Time>)
    ensures |r.rest| <= |s|
  {
    var (start, t) :- ScanNumber(U64_MAX, s);
    var (_, t) :- MustRead(' ', t);
    var (stop, t) :- ScanNumber(U64_MAX, t);
    Ok(Time(start, stop, []), t)
  }

  function Offsets(os: seq<int>, s: string): (r: Parse<seq<int>>)
    ensures |r.rest| <= |s|
    decreases |s|
  {
    if s == "" || !IsSpace(s[0]) then Ok(os, s)
    else
      var (offset, t) :- ScanNumber(I64_MAX, s[1..]);
      if AtLineEnd(t) then Ok(os + [offset], t) else Offsets(os + [offset], t)
  }

  /** Numbers are read from digits only, so a minus sign is never accepted. */
  function ParseRepeat(s: string): (r: Parse<Repeat>)
    ensures |r.rest| <= |s|
  {
    var (interval, t) :- ScanNumber(I64_MAX, s);
    var (duration, t) :- ScanNumber(I64_MAX, SkipWs(t));
    var (offsets, t) :- Offsets([], t);
    Ok(Repeat(interval, duration, offsets), t)
  }

  function BwFrom(s: string): Bwtype {
    if s == "CT" then CT else if s == "AS" then AS else if s == "RR" then RR else if s == "RS" then RS
    else if s == "TIAS" then TIAS else OtherBw(s)
  }

  /** The colon behind the type is not read before the number. */
  function ParseBandwidth(s: string): (r: Parse<Bandwidth>)
    ensures |r.rest| <= |s|
  {
    var (kind, t) :- TextWhile(NotColon, s);
    var (bandwidth, t) :- ScanNumber(U64_MAX, t);
    Ok(Bandwidth(BwFrom(kind), bandwidth), t)
  }

  function ParseAttribute(s: string): (r: Parse<Attribute>)
    ensures |r.rest| <= |s|
  {
    var n := Span(IsToken, s);
    if !Starts(s[n..], ':') then Ok(Attribute(s[..n], None), s[n..])
    else
      var (value, t) :- ReadLine(s[n..][1..]);
      Ok(Attribute(s[..n], Some(value)), t)
  }

  /** The content of one field; a field that is not known has none. */
  function Content(d: Sdp, field: char, s: string): (r: Parse<Sdp>)
    ensures |r.rest| <= |s|
  {
    if field == 'a' then var (a, t) :- ParseAttribute(s); Ok(WithAttribute(d, a), t)
    else if field == 'v' then var (_, t) :- MustRead('0', s).As(VersionKind); Ok(d, t)
    else if field == 'o' then var (o, t) :- ParseOrigin(s); Ok(d.(origin := o), t)
    else if field == 's' then var (name, t) :- ReadLine(s); Ok(d.(name := name), t)
    else if field == 'c' then var (c, t) :- ParseConnection(s); Ok(WithConnection(d, c), t)
    else if field == 'i' then var (info, t) :- ReadLine(s); Ok(WithInformation(d, info), t)
    else if field == 'u' then var (uri, t) :- ReadLine(s); Ok(d.(uri := Some(uri)), t)
    else if field == 'e' then var (email, t) :- ReadLine(s); Ok(d.(email := Some(email)), t)
    else if field == 'p' then var (phone, t) :- ReadLine(s); Ok(d.(phone := Some(phone)), t)
    else if field == 'b' then var (b, t) :- ParseBandwidth(s); Ok(d.(bandwidth := d.bandwidth + [b]), t)
    else if field == 't' then var (time, t) :- ParseTime(s); Ok(d.(time := d.time + [time]), t)
    else if field == 'r' then
      var (repeats, t) :- ParseRepeat(s);
      if d.time == [] then Err(NoTimeKind, t) else Ok(WithRepeat(d, repeats), t)
    else if field == 'm' then var (m, t) :- ParseMedia(s); Ok(d.(media := d.media + [m]), t)
    else Ok(d, s)
  }

  function FieldName(s: string): (r: Parse<char>)
    ensures r.Ok? ==> |r.rest| < |s|
  {
    var (field, t) :- NextByte(s);
    var (_, t) :- MustRead('=', t);
    Ok(field, t)
  }

  function Field(d: Sdp, s: string): (r: Parse<Sdp>)
    ensures r.Ok? ==> |r.rest| < |s|
  {
    var (field, t) :- FieldName(s);
    Content(d, field, t)
  }

  /** The loop over fields; between two of them all line breaks are skipped. */
  function Fields(d: Sdp, s: string): Parse<Sdp>
    decreases |s|
  {
    if s == "" then Ok(d, s)
    else
      var (e, t) :- Field(d, s);
      Fields(e, SkipNewlines(t))
  }

  /** `local` is the address of this machine, which is the default origin. */
  function ParseSdp(local: Ip, s: string): Parse<Sdp> { Fields(Empty(local), s) }
}
