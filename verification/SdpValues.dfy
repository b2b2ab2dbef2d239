/** Session descriptions: their values, the setters that the parser drives, and how `Display` writes them. */
module SdpValues {
  import opened Wrappers
  import opened Text
  import opened Writing
  import opened SipValues

  datatype NetType = IN | OtherNet(name: string)

  datatype AddrType = IP4 | IP6

  datatype Origin = Origin(
    user: string, sessionId: nat, sessionVersion: nat, netType: NetType, addrType: AddrType, unicast: Ip)

  datatype Connection = Connection(netType: NetType, addrType: AddrType, address: Ip)

  datatype Bwtype = CT | AS | RR | RS | TIAS | OtherBw(name: string)

  datatype Bandwidth = Bandwidth(kind: Bwtype, bandwidth: nat)

  datatype Attribute = Attribute(name: string, value: Option<string>)

  /** `r=`: interval, duration and offsets are signed. */
  datatype Repeat = Repeat(interval: int, duration: int, offsets: seq<int>)

  datatype Time = Time(start: nat, stop: nat, repeats: seq<Repeat>)

  datatype MediaType = Audio | Video | TextMedia | Application | MessageMedia

  datatype SdpTransport = UDP | RtpAvp | RtpAvpf | RtpSavp | RtpSavpf

  datatype Media = Media(
    kind: MediaType, proto: SdpTransport, port: nat, portCount: Option<nat>, formats: seq<string>, title: Option<string>,
    connection: Option<Connection>, bandwidth: seq<Bandwidth>, attributes: seq<Attribute>)

  datatype Sdp = Sdp(
    origin: Origin, name: string, information: Option<string>, uri: Option<string>, email: Option<string>,
    phone: Option<string>, connection: Option<Connection>, bandwidth: seq<Bandwidth>, attributes: seq<Attribute>,
    time: seq<Time>, media: seq<Media>)

  /** The default has the address of this machine. */
  function Empty(local: Ip): Sdp {
    Sdp(Origin("", 0, 0, IN, IP4, local), "", None, None, None, None, None, [], [], [], [])
  }

  function Last<T>(s: seq<T>): T
    requires s != []
  {
    s[|s| - 1]
  }

  function SetLast<T>(s: seq<T>, x: T): (r: seq<T>)
    requires s != []
    ensures |r| == |s|
  {
    s[|s| - 1 := x]
  }

  /** Information belongs to the last media description, if there is one already. */
  function WithInformation(d: Sdp, info: string): Sdp {
    if d.media == [] then d.(information := Some(info))
    else d.(media := SetLast(d.media, Last(d.media).(title := Some(info))))
  }

  function WithAttribute(d: Sdp, a: Attribute): Sdp {
    if d.media == [] then d.(attributes := d.attributes + [a])
    else d.(media := SetLast(d.media, Last(d.media).(attributes := Last(d.media).attributes + [a])))
  }

  function WithConnection(d: Sdp, c: Connection): Sdp {
    if d.media == [] then d.(connection := Some(c))
    else d.(media := SetLast(d.media, Last(d.media).(connection := Some(c))))
  }

  /** Repeat times belong to the last time description; there must be one. */
  function WithRepeat(d: Sdp, r: Repeat): Sdp
    requires d.time != []
  {
    d.(time := SetLast(d.time, Last(d.time).(repeats := Last(d.time).repeats + [r])))
  }

  class SessionDescription {
    var origin: Origin
    var sessionName: string
    var sessionInformation: Option<string>
    var uri: Option<string>
    var emailAddress: Option<string>
    var phoneNumber: Option<string>
    var connectionInformation: Option<Connection>
    var bandwidthInformation: seq<Bandwidth>
    var attributes: seq<Attribute>
    var time: seq<Time>
    var media: seq<Media>

    function Value(): Sdp
      reads this
    {
      Sdp(origin, sessionName, sessionInformation, uri, emailAddress, phoneNumber, connectionInformation,
          bandwidthInformation, attributes, time, media)
    }

    constructor (local: Ip)
      ensures Value() == Empty(local)
    {
      origin, sessionName := Origin("", 0, 0, IN, IP4, local), "";
      sessionInformation, uri, emailAddress, phoneNumber, connectionInformation := None, None, None, None, None;
      bandwidthInformation, attributes, time, media := [], [], [], [];
    }

    method SetOrigin(origin: Origin)
      modifies this
      ensures Value() == old(Value()).(origin := origin)
    {
      this.origin := origin;
    }

    method SetName(name: string)
      modifies this
      ensures Value() == old(Value()).(name := name)
    {
      sessionName := name;
    }

    method SetInformation(info: string)
      modifies this
      ensures Value() == WithInformation(old(Value()), info)
    {
      if media != [] {
        media := SetLast(media, Last(media).(title := Some(info)));
      } else {
        sessionInformation := Some(info);
      }
    }

    method SetEmailAddr(email: string)
      modifies this
      ensures Value() == old(Value()).(email := Some(email))
    {
      emailAddress := Some(email);
    }

    method SetUri(uri: string)
      modifies this
      ensures Value() == old(Value()).(uri := Some(uri))
    {
      this.uri := Some(uri);
    }

    method SetAttr(attr: Attribute)
      modifies this
      ensures Value() == WithAttribute(old(Value()), attr)
    {
      if media != [] {
        media := SetLast(media, Last(media).(attributes := Last(media).attributes + [attr]));
      } else {
        attributes := attributes + [attr];
      }
    }

    method SetBandwidthInformation(bandwidth: Bandwidth)
      modifies this
      ensures Value() == old(Value()).(bandwidth := old(bandwidthInformation) + [bandwidth])
    {
      bandwidthInformation := bandwidthInformation + [bandwidth];
    }

    method SetMediaDescription(m: Media)
      modifies this
      ensures Value() == old(Value()).(media := old(media) + [m])
    {
      media := media + [m];
    }

    method SetTimeDesc(t: Time)
      modifies this
      ensures Value() == old(Value()).(time := old(time) + [t])
    {
      time := time + [t];
    }

    /** False: there is no time description yet, and nothing has changed. */
    method SetRepeatTimes(r: Repeat) returns (ok: bool)
      modifies this
      ensures ok == (old(time) != [])
      ensures Value() == if ok then WithRepeat(old(Value()), r) else old(Value())
    {
      ok := time != [];
      if ok {
        time := SetLast(time, Last(time).(repeats := Last(time).repeats + [r]));
      }
    }

    method SetPhone(phone: string)
      modifies this
      ensures Value() == old(Value()).(phone := Some(phone))
    {
      phoneNumber := Some(phone);
    }

    method SetConnection(c: Connection)
      modifies this
      ensures Value() == WithConnection(old(Value()), c)
    {
      if media != [] {
        media := SetLast(media, Last(media).(connection := Some(c)));
      } else {
        connectionInformation := Some(c);
      }
    }

    method Encode() returns (text: string)
      ensures text == SdpText(Value())
    {
      hide OriginLine, OptionalLine, ConnectionLines, BandwidthLines, TimeLines, AttributeLines, MediaLines, Lines;
      var w := new LineWriter();
      w.WriteLine("v=0");
      assert w.lines == ["v=0"];
      w.WriteLine(OriginLine(origin));
      w.WriteLine("s=" + sessionName);
      WriteOptional(w, "i=", sessionInformation);
      WriteOptional(w, "u=", uri);
      WriteOptional(w, "e=", emailAddress);
      WriteOptional(w, "p=", phoneNumber);
      WriteConnection(w, connectionInformation);
      WriteBandwidth(w, bandwidthInformation);
      WriteTime(w, time);
      WriteAttributes(w, attributes);
      WriteMedia(w, media);
      var d := Value();
      Grouped(["v=0"], [OriginLine(origin)], ["s=" + sessionName], OptionalLine("i=", d.information), OptionalLine("u=", d.uri),
        OptionalLine("e=", d.email), OptionalLine("p=", d.phone), ConnectionLines(d.connection), BandwidthLines(d.bandwidth),
        TimeLines(d.time), AttributeLines(d.attributes), MediaLines(d.media));
      text := w.out;
    }
  }

  lemma Grouped(v: seq<string>, o: seq<string>, s: seq<string>, i: seq<string>, u: seq<string>, e: seq<string>, p: seq<string>, c: seq<string>, b: seq<string>, t: seq<string>, a: seq<string>, m: seq<string>)
    ensures v + o + s + i + u + e + p + c + b + t + a + m
         == v + (o + (s + (i + (u + (e + (p + (c + (b + (t + (a + m))))))))))
  {
    Regroup(v + o + s + i + u + e + p + c + b + t, a, m);
    Regroup(v + o + s + i + u + e + p + c + b, t, a + m);
    Regroup(v + o + s + i + u + e + p + c, b, t + (a + m));
    Regroup(v + o + s + i + u + e + p, c, b + (t + (a + m)));
    Regroup(v + o + s + i + u + e, p, c + (b + (t + (a + m))));
    Regroup(v + o + s + i + u, e, p + (c + (b + (t + (a + m)))));
    Regroup(v + o + s + i, u, e + (p + (c + (b + (t + (a + m))))));
    Regroup(v + o + s, i, u + (e + (p + (c + (b + (t + (a + m)))))));
    Regroup(v + o, s, i + (u + (e + (p + (c + (b + (t + (a + m))))))));
    Regroup(v, o, s + (i + (u + (e + (p + (c + (b + (t + (a + m)))))))));
  }

  method WriteOptional(w: LineWriter, start: string, value: Option<string>)
    requires w.Valid()
    modifies w
    ensures w.Valid() && w.lines == old(w.lines) + OptionalLine(start, value)
  {
    if value.Some? {
      w.WriteLine(start + value.value);
    }
  }

  method WriteConnection(w: LineWriter, c: Option<Connection>)
    requires w.Valid()
    modifies w
    ensures w.Valid() && w.lines == old(w.lines) + ConnectionLines(c)
  {
    if c.Some? {
      w.WriteLine(ConnectionLine(c.value));
    }
  }

  method WriteBandwidth(w: LineWriter, bs: seq<Bandwidth>)
    requires w.Valid()
    modifies w
    ensures w.Valid() && w.lines == old(w.lines) + BandwidthLines(bs)
  {
    hide BandwidthLine, Lines;
    for i := 0 to |bs|
      invariant w.Valid() && old(w.lines) + BandwidthLines(bs) == w.lines + BandwidthLines(bs[i..])
    {
      assert bs[i..][1..] == bs[i + 1..];
      w.WriteLine(BandwidthLine(bs[i]));
    }
  }

  method WriteRepeats(w: LineWriter, rs: seq<Repeat>)
    requires w.Valid()
    modifies w
    ensures w.Valid() && w.lines == old(w.lines) + RepeatLines(rs)
  {
    hide RepeatLine, Lines;
    for i := 0 to |rs|
      invariant w.Valid() && old(w.lines) + RepeatLines(rs) == w.lines + RepeatLines(rs[i..])
    {
      assert rs[i..][1..] == rs[i + 1..];
      w.WriteLine(RepeatLine(rs[i]));
    }
  }

  method WriteTime(w: LineWriter, ts: seq<Time>)
    requires w.Valid()
    modifies w
    ensures w.Valid() && w.lines == old(w.lines) + TimeLines(ts)
  {
    hide TimeLine, RepeatLines, Lines;
    for i := 0 to |ts|
      invariant w.Valid() && old(w.lines) + TimeLines(ts) == w.lines + TimeLines(ts[i..])
    {
      assert ts[i..][1..] == ts[i + 1..];
      w.WriteLine(TimeLine(ts[i]));
      WriteRepeats(w, ts[i].repeats);
    }
  }

  method WriteAttributes(w: LineWriter, xs: seq<Attribute>)
    requires w.Valid()
    modifies w
    ensures w.Valid() && w.lines == old(w.lines) + AttributeLines(xs)
  {
    hide AttributeLine, Lines;
    for i := 0 to |xs|
      invariant w.Valid() && old(w.lines) + AttributeLines(xs) == w.lines + AttributeLines(xs[i..])
    {
      assert xs[i..][1..] == xs[i + 1..];
      w.WriteLine(AttributeLine(xs[i]));
    }
  }

  method WriteMedia(w: LineWriter, ms: seq<Media>)
    requires w.Valid()
    modifies w
    ensures w.Valid() && w.lines == old(w.lines) + MediaLines(ms)
  {
    hide MediaBlock, Lines;
    for i := 0 to |ms|
      invariant w.Valid() && old(w.lines) + MediaLines(ms) == w.lines + MediaLines(ms[i..])
    {
      MediaLinesMore(w.lines, ms, i);
      WriteOneMedia(w, ms[i]);
    }
  }

  lemma MediaLinesMore(before: seq<string>, ms: seq<Media>, i: nat)
    requires i < |ms|
    ensures before + MediaLines(ms[i..]) == before + MediaBlock(ms[i]) + MediaLines(ms[i + 1..])
  {
    hide MediaBlock;
    assert ms[i..][1..] == ms[i + 1..];
    Regroup(before, MediaBlock(ms[i]), MediaLines(ms[i + 1..]));
  }

  method WriteOneMedia(w: LineWriter, m: Media)
    requires w.Valid()
    modifies w
    ensures w.Valid() && w.lines == old(w.lines) + MediaBlock(m)
  {
    hide MediaLine, OptionalLine, ConnectionLines, BandwidthLines, AttributeLines, Lines;
    w.WriteLine(MediaLine(m));
    WriteOptional(w, "t=", m.title);
    WriteConnection(w, m.connection);
    WriteBandwidth(w, m.bandwidth);
    WriteAttributes(w, m.attributes);
  }

  function SignedText(n: int): string { if n < 0 then "-" + Decimal(-n) else Decimal(n) }

  function NetText(n: NetType): string { if n.IN? then "IN" else n.name }

  function AddrText(a: AddrType): string { if a.IP4? then "IP4" else "IP6" }

  function BwText(b: Bwtype): string {
    match b
    case CT => "CT"
    case AS => "AS"
    case RR => "RR"
    case RS => "RS"
    case TIAS => "TIAS"
    case OtherBw(name) => name
  }

  function KindText(k: MediaType): string {
    match k
    case Audio => "audio"
    case Video => "video"
    case TextMedia => "text"
    case Application => "application"
    case MessageMedia => "message"
  }

  function ProtoText(p: SdpTransport): string {
    match p
    case UDP => "udp"
    case RtpAvp => "RTP/AVP"
    case RtpAvpf => "RTP/AVPF"
    case RtpSavp => "RTP/SAVP"
    case RtpSavpf => "RTP/SAVPF"
  }

  function OriginLine(o: Origin): string {
    "o=" + (o.user + (" " + (Decimal(o.sessionId) + (" " + (Decimal(o.sessionVersion) + (" " + (NetText(o.netType)
    + (" " + (AddrText(o.addrType) + (" " + IpText(o.unicast)))))))))))
  }

  function OptionalLine(start: string, value: Option<string>): seq<string> {
    if value.Some? then [start + value.value] else []
  }

  function ConnectionLine(c: Connection): string {
    "c=" + (NetText(c.netType) + (" " + (AddrText(c.addrType) + (" " + IpText(c.address)))))
  }

  function ConnectionLines(c: Option<Connection>): seq<string> { if c.Some? then [ConnectionLine(c.value)] else [] }

  function BandwidthLine(b: Bandwidth): string { "b=" + (BwText(b.kind) + (":" + Decimal(b.bandwidth))) }

  function BandwidthLines(bs: seq<Bandwidth>): seq<string> {
    if bs == [] then [] else [BandwidthLine(bs[0])] + BandwidthLines(bs[1..])
  }

  function OffsetsText(os: seq<int>): string { if os == [] then "" else " " + (SignedText(os[0]) + OffsetsText(os[1..])) }

  function RepeatLine(r: Repeat): string {
    "r=" + (SignedText(r.interval) + (" " + (SignedText(r.duration) + OffsetsText(r.offsets))))
  }

  function RepeatLines(rs: seq<Repeat>): seq<string> {
    if rs == [] then [] else [RepeatLine(rs[0])] + RepeatLines(rs[1..])
  }

  function TimeLine(t: Time): string { "t=" + (Decimal(t.start) + (" " + Decimal(t.stop))) }

  function TimeLines(ts: seq<Time>): seq<string> {
    if ts == [] then [] else [TimeLine(ts[0])] + (RepeatLines(ts[0].repeats) + TimeLines(ts[1..]))
  }

  function AttributeLine(a: Attribute): string { "a=" + (a.name + if a.value.Some? then ":" + a.value.value else "") }

  function AttributeLines(xs: seq<Attribute>): seq<string> {
    if xs == [] then [] else [AttributeLine(xs[0])] + AttributeLines(xs[1..])
  }

  function FormatsText(fs: seq<string>): string { if fs == [] then "" else " " + (fs[0] + FormatsText(fs[1..])) }

  function MediaLine(m: Media): string {
    "m=" + (KindText(m.kind) + (" " + (Decimal(m.port) + ((if m.portCount.Some? then "/" + Decimal(m.portCount.value) else "")
    + (" " + (ProtoText(m.proto) + FormatsText(m.formats)))))))
  }

  /** The title is written as a `t=` line. */
  function MediaBlock(m: Media): seq<string> {
    [MediaLine(m)] + (OptionalLine("t=", m.title) + (ConnectionLines(m.connection) + (BandwidthLines(m.bandwidth)
    + AttributeLines(m.attributes))))
  }

  function MediaLines(ms: seq<Media>): seq<string> {
    if ms == [] then [] else MediaBlock(ms[0]) + MediaLines(ms[1..])
  }

  function SdpLines(d: Sdp): seq<string> {
    ["v=0"] + ([OriginLine(d.origin)] + (["s=" + d.name] + (OptionalLine("i=", d.information) + (OptionalLine("u=", d.uri)
    + (OptionalLine("e=", d.email) + (OptionalLine("p=", d.phone) + (ConnectionLines(d.connection)
    + (BandwidthLines(d.bandwidth) + (TimeLines(d.time) + (AttributeLines(d.attributes) + MediaLines(d.media)))))))))))
  }

  function SdpText(d: Sdp): string { Lines(SdpLines(d)) }
}
