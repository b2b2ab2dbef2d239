/** The values of SIP URIs and Via headers, and how `Display` writes them. */
module SipValues {
  import opened Wrappers
  import opened Text
  import opened Messages

  /** An IPv6 address stands for itself as the text that the standard library writes for it. */
  datatype Ip = V4(a: nat, b: nat, c: nat, d: nat) | V6(text: string)

  datatype Host = HostName(name: string) | IpAddr(ip: Ip)

  datatype HostPort = HostPort(host: Host, port: Option<nat>)

  datatype Param = Param(name: string, value: Option<string>)

  datatype Transport = Udp | Tcp | Ws | Wss | Tls | Sctp

  datatype Scheme = Sip | Sips

  datatype UserInfo = UserInfo(user: string, pass: Option<string>)

  datatype Uri = Uri(
    scheme: Scheme, user: Option<UserInfo>, hostPort: HostPort,
    userParam: Option<string>, methodParam: Option<Method>, transportParam: Option<Transport>,
    ttlParam: Option<nat>, lrParam: bool, maddrParam: Option<Host>,
    params: seq<Param>, headers: Option<seq<Param>>)

  datatype NameAddr = NameAddr(display: Option<string>, uri: Uri)

  datatype SipUri = PlainUri(uri: Uri) | Named(nameAddr: NameAddr)

  /** `rport` may be absent, present without a number, or present with one. */
  datatype Via = Via(
    transport: Transport, sentBy: HostPort, ttl: Option<nat>, maddr: Option<Host>, received: Option<Ip>,
    branch: Option<string>, rport: Option<Option<nat>>, comment: Option<string>, params: seq<Param>)

  function IpText(ip: Ip): string {
    match ip
    case V4(a, b, c, d) => Decimal(a) + "." + (Decimal(b) + "." + (Decimal(c) + "." + Decimal(d)))
    case V6(text) => text
  }

  function HostText(h: Host): string { if h.HostName? then h.name else IpText(h.ip) }

  function HostPortText(hp: HostPort): string {
    HostText(hp.host) + if hp.port.Some? then ":" + Decimal(hp.port.value) else ""
  }

  function LowerCase(t: Transport): string {
    match t
    case Udp => "udp"
    case Tcp => "tcp"
    case Ws => "ws"
    case Wss => "wss"
    case Tls => "tls"
    case Sctp => "sctp"
  }

  function UpperCase(t: Transport): string {
    match t
    case Udp => "UDP"
    case Tcp => "TCP"
    case Ws => "WS"
    case Wss => "WSS"
    case Tls => "TLS"
    case Sctp => "SCTP"
  }

  function MethodText(m: Method): string {
    match m
    case Invite => "INVITE"
    case Ack => "ACK"
    case Bye => "BYE"
    case Cancel => "CANCEL"
    case Register => "REGISTER"
    case Options => "OPTIONS"
    case Info => "INFO"
    case Notify => "NOTIFY"
    case Subscribe => "SUBSCRIBE"
    case Update => "UPDATE"
    case Refer => "REFER"
    case Prack => "PRACK"
    case MessageMethod => "MESSAGE"
    case Publish => "PUBLISH"
    case Unknown => "UNKNOWN-SipMethod"
  }

  function MethodFrom(s: string): Method {
    if s == "INVITE" then Invite else if s == "CANCEL" then Cancel else if s == "ACK" then Ack
    else if s == "BYE" then Bye else if s == "REGISTER" then Register else if s == "OPTIONS" then Options
    else if s == "INFO" then Info else if s == "NOTIFY" then Notify else if s == "SUBSCRIBE" then Subscribe
    else if s == "UPDATE" then Update else if s == "REFER" then Refer else if s == "PRACK" then Prack
    else if s == "MESSAGE" then MessageMethod else if s == "PUBLISH" then Publish else Unknown
  }

  function ParamText(p: Param): string {
    ";" + p.name + if p.value.Some? then "=" + p.value.value else ""
  }

  function ParamsText(ps: seq<Param>): string {
    if ps == [] then "" else ParamText(ps[0]) + ParamsText(ps[1..])
  }

  /** A named parameter that is written only if it is there. */
  function Optional(name: string, value: Option<string>): seq<Param> {
    if value.Some? then [Param(name, value)] else []
  }

  function MapText<T>(f: T -> string, v: Option<T>): Option<string> {
    if v.Some? then Some(f(v.value)) else None
  }

  /** All parameters of a URI in the order in which they are written. */
  function UriParamList(u: Uri): seq<Param> {
    Optional("user", u.userParam)
    + (Optional("method", MapText(MethodText, u.methodParam))
    + (Optional("maddr", MapText(HostText, u.maddrParam))
    + (Optional("transport", MapText(LowerCase, u.transportParam))
    + (Optional("ttl", MapText(Decimal, u.ttlParam))
    + ((if u.lrParam then [Param("lr", None)] else [])
    + u.params)))))
  }

  function UserText(u: Option<UserInfo>): string {
    if u.None? then ""
    else u.value.user + (if u.value.pass.Some? then ":" + u.value.pass.value else "") + "@"
  }

  /** URI headers are written with an equals sign even where there is no value. */
  function HeaderText(p: Param): string { p.name + "=" + if p.value.Some? then p.value.value else "" }

  function HeadersText(hs: seq<Param>): string {
    if hs == [] then ""
    else if |hs| == 1 then HeaderText(hs[0])
    else HeaderText(hs[0]) + "&" + HeadersText(hs[1..])
  }

  function SchemeText(s: Scheme): string { if s.Sip? then "sip" else "sips" }

  function UriText(u: Uri): string {
    SchemeText(u.scheme) + (":" + (UserText(u.user) + (HostPortText(u.hostPort) + (ParamsText(UriParamList(u))
    + if u.headers.Some? then "?" + HeadersText(u.headers.value) else ""))))
  }

  function NameAddrText(n: NameAddr): string {
    (if n.display.Some? then "\"" + n.display.value + "\" " else "") + ("<" + (UriText(n.uri) + ">"))
  }

  function SipUriText(u: SipUri): string { if u.PlainUri? then UriText(u.uri) else NameAddrText(u.nameAddr) }

  function RportText(port: Option<nat>): Option<string> { MapText(Decimal, port) }

  /** All parameters of a Via in the order in which they are written. */
  function ViaParamList(v: Via): seq<Param> {
    (if v.rport.Some? then [Param("rport", RportText(v.rport.value))] else [])
    + (Optional("received", MapText(IpText, v.received))
    + (Optional("ttl", MapText(Decimal, v.ttl))
    + (Optional("maddr", MapText(HostText, v.maddr))
    + (Optional("branch", v.branch)
    + v.params))))
  }

  /** The value of a Via header; the header is `Via: ` and this. */
  function ViaText(v: Via): string {
    "SIP/2.0/" + (UpperCase(v.transport) + (" " + (HostPortText(v.sentBy) + (ParamsText(ViaParamList(v))
    + if v.comment.Some? then " (" + v.comment.value + ")" else ""))))
  }
}
