/** Making offers and answers of media streams (RFC 3264), and the states of a negotiation. */
module Negotiation {
  import opened Wrappers
  import opened Text
  import opened SipValues
  import opened SdpValues

  datatype Direction = Unspecified | SendRecv | RecvOnly | SendOnly | Inactive

  function DirectionText(d: Direction): string {
    match d
    case SendRecv => "sendrecv"
    case SendOnly => "sendonly"
    case RecvOnly => "recvonly"
    case Inactive => "inactive"
    case Unspecified => "Unspecified"
  }

  datatype Codec = Codec(name: string, clockRate: nat, payloadType: nat, channels: nat)

  datatype MediaStream = MediaStream(proto: SdpTransport, kind: MediaType, codecs: seq<Codec>, port: nat)

  datatype OfferParams = OfferParams(ip: Ip, direction: Direction, streams: seq<MediaStream>)

  datatype State = Initial | LocalOffer | RemoteOffer | Ready | Finished

  datatype Error = InvalidState | NotANumber

  /** `Panic` stands for the cases that the source leaves to do: streams that do not match, and dynamic payload types. */
  datatype Outcome<+T> = Done(value: T) | Failed(error: Error) | Panic {
    predicate IsFailure() { !Done? }

    function PropagateFailure<U>(): Outcome<U>
      requires !Done?
    {
      if Failed? then Failed(error) else Panic
    }

    function Extract(): T
      requires Done?
    {
      value
    }
  }

  function Rtpmap(text: string): Attribute { Attribute("rtpmap", Some(text)) }

  function CodecAttributes(c: Codec): seq<Attribute> {
    if c.name == "PCMU" then [Rtpmap("0 PCMU/8000")]
    else if c.name == "PCMA" then [Rtpmap("8 PCMA/8000")]
    else if c.name == "opus" then [Rtpmap("96 opus/48000/2")]
    else if c.name == "telephone-event" then [Rtpmap("101 telephone-event/8000"), Attribute("fmtp", Some("101 0-16"))]
    else [Rtpmap(Decimal(c.payloadType) + ("/" + (c.name + ("/" + (Decimal(c.clockRate) + ("/" + (Decimal(c.channels) + "/")))))))]
  }

  function OfferAttributes(cs: seq<Codec>): seq<Attribute> {
    if cs == [] then [] else CodecAttributes(cs[0]) + OfferAttributes(cs[1..])
  }

  function OfferFormats(cs: seq<Codec>): (fs: seq<string>)
    ensures |fs| == |cs| && forall i :: 0 <= i < |cs| ==> fs[i] == Decimal(cs[i].payloadType)
  {
    seq(|cs|, i requires 0 <= i < |cs| => Decimal(cs[i].payloadType))
  }

  function OfferStream(s: MediaStream): Media {
    Media(s.kind, s.proto, s.port, None, OfferFormats(s.codecs), None, None, [], OfferAttributes(s.codecs))
  }

  function OfferStreams(ss: seq<MediaStream>): (ms: seq<Media>)
    ensures |ms| == |ss| && forall i :: 0 <= i < |ss| ==> ms[i] == OfferStream(ss[i])
  {
    seq(|ss|, i requires 0 <= i < |ss| => OfferStream(ss[i]))
  }

  /** The packet times and the direction are attributes of the last stream only. */
  function Closing(d: Direction): seq<Attribute> {
    [Attribute("ptime", Some("20")), Attribute("maxptime", Some("150")), Attribute(DirectionText(d), None)]
  }

  function WithClosing(ms: seq<Media>, d: Direction): seq<Media> {
    if ms == [] then ms else SetLast(ms, Last(ms).(attributes := Last(ms).attributes + Closing(d)))
  }

  /** `id` and `version` are random numbers. */
  function Offer(p: OfferParams, id: nat, version: nat): Sdp {
    var addr := if p.ip.V4? then IP4 else IP6;
    Sdp(Origin("-", id, version, IN, addr, p.ip), "-", None, None, None, None, Some(Connection(IN, addr, p.ip)), [], [],
        [Time(0, 0, [])], WithClosing(OfferStreams(p.streams), p.direction))
  }

  predicate IsDirection(name: string) { name == "recvonly" || name == "sendrecv" || name == "sendonly" || name == "inactive" }

  function FirstDirection(xs: seq<Attribute>): (r: Option<string>)
    ensures r.Some? ==> IsDirection(r.value)
  {
    if xs == [] then None else if IsDirection(xs[0].name) then Some(xs[0].name) else FirstDirection(xs[1..])
  }

  function AnswerDirection(local: Option<string>, remote: Option<string>): Option<string> {
    if remote == Some("sendonly") then
      if local == Some("sendrecv") || local == Some("recvonly") then Some("recvonly") else Some("inactive")
    else if remote == Some("inactive") then Some("inactive")
    else if remote == Some("recvonly") then
      if local == Some("sendrecv") || local == Some("sendonly") then Some("sendonly") else Some("inactive")
    else if remote == Some("sendrecv") then Some("sendrecv")
    else None
  }

  function NoDirections(xs: seq<Attribute>): seq<Attribute> {
    if xs == [] then [] else (if IsDirection(xs[0].name) then [] else [xs[0]]) + NoDirections(xs[1..])
  }

  function AnswerAttributes(local: Media, remote: Media): seq<Attribute> {
    var dir := AnswerDirection(FirstDirection(local.attributes), FirstDirection(remote.attributes));
    if dir.Some? then NoDirections(local.attributes) + [Attribute(dir.value, None)] else local.attributes
  }

  /** The local formats that are also remote ones; all of them must be numbers of static payload types. */
  function AnswerFormats(local: seq<string>, remote: seq<string>): Outcome<seq<string>> {
    if local == [] then Done([])
    else
      var pt := ParseUnsigned(local[0], 255);
      if pt.None? then Failed(NotANumber)
      else if pt.value >= 96 then Panic
      else
        var more :- AnswerFormats(local[1..], remote);
        Done((if local[0] in remote then [local[0]] else []) + more)
  }

  function AnswerStreams(local: seq<Media>, remote: seq<Media>): Outcome<seq<Media>>
    decreases |local|
  {
    if local == [] || remote == [] then Done([])
    else if local[0].kind != remote[0].kind || local[0].proto != remote[0].proto then Panic
    else if remote[0].port == 0 || local[0].port == 0 then AnswerStreams(local[1..], remote[1..])
    else
      var formats :- AnswerFormats(local[0].formats, remote[0].formats);
      var more :- AnswerStreams(local[1..], remote[1..]);
      Done([local[0].(formats := formats, attributes := AnswerAttributes(local[0], remote[0]))] + more)
  }

  function Answer(local: Sdp, remote: Sdp): Outcome<Sdp> {
    var media :- AnswerStreams(local.media, remote.media);
    Done(local.(media := media, time := remote.time))
  }

  /** Whether the streams that are paired with each other have the same type and protocol. */
  predicate Matching(local: seq<Media>, remote: seq<Media>) {
    forall i :: 0 <= i < |local| && i < |remote| ==> local[i].kind == remote[i].kind && local[i].proto == remote[i].proto
  }

  class Negotiator {
    var remoteOffer: Option<Sdp>
    var localOffer: Option<Sdp>
    var answer: Option<Sdp>
    var state: State

    /** The offers that each state needs are there. */
    predicate Valid()
      reads this
    {
      && (state.LocalOffer? || state.Ready? ==> localOffer.Some?)
      && (state.RemoteOffer? || state.Ready? ==> remoteOffer.Some?)
      && (answer.Some? <==> state.Finished?)
    }

    constructor ()
      ensures Valid() && state == Initial && localOffer == None && remoteOffer == None
    {
      remoteOffer, localOffer, answer, state := None, None, None, Initial;
    }

    constructor WithLocal(local: Sdp)
      ensures Valid() && state == LocalOffer && localOffer == Some(local) && remoteOffer == None
    {
      remoteOffer, localOffer, answer, state := None, Some(local), None, LocalOffer;
    }

    constructor WithRemote(remote: Sdp)
      ensures Valid() && state == RemoteOffer && remoteOffer == Some(remote) && localOffer == None
    {
      remoteOffer, localOffer, answer, state := Some(remote), None, None, RemoteOffer;
    }

    method SetRemoteOffer(remote: Sdp) returns (r: Outcome<()>)
      requires Valid()
      modifies this`state, this`remoteOffer
      ensures Valid()
      ensures if old(state).Initial? || old(state).LocalOffer?
              then r == Done(()) && remoteOffer == Some(remote) && state == (if old(state).Initial? then RemoteOffer else Ready)
              else r == Failed(InvalidState) && remoteOffer == old(remoteOffer) && state == old(state)
    {
      match state {
        case Initial => state := RemoteOffer;
        case LocalOffer => state := Ready;
        case _ => return Failed(InvalidState);
      }
      remoteOffer := Some(remote);
      r := Done(());
    }

    method SetLocalOffer(local: Sdp) returns (r: Outcome<()>)
      requires Valid()
      modifies this`state, this`localOffer
      ensures Valid()
      ensures if old(state).Initial? || old(state).RemoteOffer?
              then r == Done(()) && localOffer == Some(local) && state == (if old(state).Initial? then LocalOffer else Ready)
              else r == Failed(InvalidState) && localOffer == old(localOffer) && state == old(state)
    {
      match state {
        case Initial => state := LocalOffer;
        case RemoteOffer => state := Ready;
        case _ => return Failed(InvalidState);
      }
      localOffer := Some(local);
      r := Done(());
    }

    /** The negotiator itself does not change. */
    method CreateOffer(p: OfferParams, id: nat, version: nat) returns (r: Outcome<Sdp>)
      ensures r == if state.Initial? || state.RemoteOffer? then Done(Offer(p, id, version)) else Failed(InvalidState)
    {
      if !state.Initial? && !state.RemoteOffer? {
        return Failed(InvalidState);
      }
      var media: seq<Media> := [];
      for i := 0 to |p.streams|
        invariant media == OfferStreams(p.streams)[..i]
      {
        var m := CreateStream(p.streams[i]);
        media := media + [m];
      }
      assert media == OfferStreams(p.streams);
      if media != [] {
        var attributes := Last(media).attributes;
        attributes := attributes + [Attribute("ptime", Some("20"))];
        attributes := attributes + [Attribute("maxptime", Some("150"))];
        attributes := attributes + [Attribute(DirectionText(p.direction), None)];
        assert attributes == Last(media).attributes + Closing(p.direction);
        media := SetLast(media, Last(media).(attributes := attributes));
      }
      var addr := if p.ip.V4? then IP4 else IP6;
      r := Done(Sdp(Origin("-", id, version, IN, addr, p.ip), "-", None, None, None, None, Some(Connection(IN, addr, p.ip)), [], [],
                    [Time(0, 0, [])], media));
    }

    method CreateStream(s: MediaStream) returns (m: Media)
      ensures m == OfferStream(s)
    {
      hide CodecAttributes;
      var formats: seq<string> := [];
      var attributes: seq<Attribute> := [];
      for i := 0 to |s.codecs|
        invariant formats == OfferFormats(s.codecs)[..i]
        invariant attributes + OfferAttributes(s.codecs[i..]) == OfferAttributes(s.codecs)
      {
        assert s.codecs[i..][1..] == s.codecs[i + 1..];
        attributes := attributes + CodecAttributes(s.codecs[i]);
        formats := formats + [Decimal(s.codecs[i].payloadType)];
      }
      assert formats == OfferFormats(s.codecs);
      m := Media(s.kind, s.proto, s.port, None, formats, None, None, [], attributes);
    }

    /** An answer is made from two offers only; after a failure everything is as before. */
    method CreateAnswer() returns (r: Outcome<Sdp>)
      requires Valid()
      modifies this`state, this`answer
      ensures Valid()
      ensures r == if old(state).Ready? then Answer(localOffer.value, remoteOffer.value) else Failed(InvalidState)
      ensures r.Done? ==> state == Finished && answer == Some(r.value)
      ensures !r.Done? ==> state == old(state) && answer == old(answer)
    {
      if !state.Ready? {
        return Failed(InvalidState);
      }
      var local, remote := localOffer.value.media, remoteOffer.value.media;
      var media: seq<Media> := [];
      var i := 0;
      assert local[0..] == local && remote[0..] == remote;
      PrefixedNone(AnswerStreams(local, remote));
      while i < |local| && i < |remote|
        invariant 0 <= i <= |local| && i <= |remote|
        invariant Valid() && state.Ready? && answer == old(answer)
        invariant AnswerStreams(local, remote) == Prefixed(media, AnswerStreams(local[i..], remote[i..]))
      {
        var l, m := local[i], remote[i];
        assert local[i..][1..] == local[i + 1..] && remote[i..][1..] == remote[i + 1..];
        i := i + 1;
        if l.kind != m.kind || l.proto != m.proto {
          return Panic;
        }
        if m.port == 0 || l.port == 0 {
          continue;
        }
        var formats :- CommonFormats(l.formats, m.formats);
        ghost var stream := l.(formats := formats, attributes := AnswerAttributes(l, m));
        PrefixedBoth(media, [stream], AnswerStreams(local[i..], remote[i..]));
        media := media + [l.(formats := formats, attributes := AnswerAttributes(l, m))];
      }
      assert media + [] == media;
      var result := localOffer.value.(media := media, time := remoteOffer.value.time);
      answer := Some(result);
      state := Finished;
      r := Done(result);
    }

    method CommonFormats(local: seq<string>, remote: seq<string>) returns (r: Outcome<seq<string>>)
      ensures r == AnswerFormats(local, remote)
    {
      var formats: seq<string> := [];
      var i := 0;
      assert local[0..] == local;
      PrefixedNone(AnswerFormats(local, remote));
      while i < |local|
        invariant 0 <= i <= |local|
        invariant AnswerFormats(local, remote) == Prefixed(formats, AnswerFormats(local[i..], remote))
      {
        assert local[i..][1..] == local[i + 1..];
        var payloadType := ParseUnsigned(local[i], 255);
        if payloadType.None? {
          return Failed(NotANumber);
        }
        if payloadType.value >= 96 {
          return Panic;
        }
        PrefixedBoth(formats, if local[i] in remote then [local[i]] else [], AnswerFormats(local[i + 1..], remote));
        assert formats + [] == formats;
        if local[i] in remote {
          formats := formats + [local[i]];
        }
        i := i + 1;
      }
      assert formats + [] == formats;
      r := Done(formats);
    }

    /** The answer to the local offer ends the negotiation. */
    method ProcessAnswer(theirs: Sdp) returns (r: Outcome<()>)
      requires Valid()
      modifies this`state, this`answer
      ensures Valid()
      ensures r == if !old(state).LocalOffer? then Failed(InvalidState)
                   else if Matching(localOffer.value.media, theirs.media) then Done(()) else Panic
      ensures r.Done? ==> state == Finished && answer == Some(theirs)
      ensures !r.Done? ==> state == old(state) && answer == old(answer)
    {
      if !state.LocalOffer? {
        return Failed(InvalidState);
      }
      var local, remote := localOffer.value.media, theirs.media;
      var i := 0;
      while i < |local| && i < |remote|
        invariant 0 <= i <= |local| && i <= |remote|
        invariant Valid() && state.LocalOffer? && answer == old(answer)
        invariant Matching(local[..i], remote[..i])
      {
        if local[i].kind != remote[i].kind || local[i].proto != remote[i].proto {
          return Panic;
        }
        i := i + 1;
      }
      answer := Some(theirs);
      state := Finished;
      r := Done(());
    }
  }

  function Prefixed<T>(front: seq<T>, r: Outcome<seq<T>>): Outcome<seq<T>> { if r.Done? then Done(front + r.value) else r }

  lemma PrefixedNone<T>(r: Outcome<seq<T>>)
    ensures Prefixed([], r) == r
  {
    if r.Done? { assert [] + r.value == r.value; }
  }

  lemma PrefixedBoth<T>(a: seq<T>, b: seq<T>, r: Outcome<seq<T>>)
    ensures Prefixed(a, Prefixed(b, r)) == Prefixed(a + b, r)
  {
    if r.Done? { assert a + (b + r.value) == (a + b) + r.value; }
  }
}
