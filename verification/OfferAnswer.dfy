/** What offers and answers promise: compatibility with the other side, and survival on the wire. */
module OfferAnswer {
  import opened Wrappers
  import opened Text
  import opened Parsing
  import opened SipValues
  import opened SdpValues
  import opened SdpGrammar
  import opened SdpReading
  import opened SdpRoundTrip
  import opened Negotiation
  import SipReading

  predicate Increasing(ks: seq<nat>) { forall i, j :: 0 <= i < j < |ks| ==> ks[i] < ks[j] }

  /** The elements of `xs` at the indices `ks`. */
  predicate Picks<T(==)>(ks: seq<nat>, xs: seq<T>, ys: seq<T>) {
    |ks| == |ys| && Increasing(ks) && forall i :: 0 <= i < |ks| ==> ks[i] < |xs| && ys[i] == xs[ks[i]]
  }

  /** The indices behind a new first element, and its own if it is to be in. */
  function Grown(first: bool, ks: seq<nat>): seq<nat> {
    (if first then [0] else []) + seq(|ks|, i requires 0 <= i < |ks| => ks[i] + 1)
  }

  lemma GrownHas(first: bool, ks: seq<nat>, k: nat)
    ensures k in Grown(first, ks) <==> if k == 0 then first else k - 1 in ks
  {
    var r, d := Grown(first, ks), if first then 1 else 0;
    assert forall i :: 0 <= i < |ks| ==> r[d + i] == ks[i] + 1;
    if k > 0 && k - 1 in ks {
      var i :| 0 <= i < |ks| && ks[i] == k - 1;
      assert r[d + i] == k;
    }
  }

  lemma GrownPicks<T>(first: bool, ks: seq<nat>, xs: seq<T>, ys: seq<T>)
    requires xs != [] && Picks(ks, xs[1..], ys)
    ensures Picks(Grown(first, ks), xs, (if first then [xs[0]] else []) + ys)
  {
    var r, d := Grown(first, ks), if first then 1 else 0;
    assert forall i :: d <= i < |r| ==> r[i] == ks[i - d] + 1;
  }

  lemma GrownIncreasing(first: bool, ks: seq<nat>)
    requires Increasing(ks)
    ensures Increasing(Grown(first, ks))
  {
    var r, d := Grown(first, ks), if first then 1 else 0;
    assert forall i :: d <= i < |r| ==> r[i] == ks[i - d] + 1;
  }

  predicate Static(format: string) { ParseUnsigned(format, 255).Some? && ParseUnsigned(format, 255).value < 96 }

  /** The formats of an answer are exactly the local ones that were also offered, in the local order. */
  lemma {:induction false} FormatsAreCommon(local: seq<string>, remote: seq<string>) returns (ks: seq<nat>)
    requires AnswerFormats(local, remote).Done?
    ensures var fs := AnswerFormats(local, remote).value;
            Picks(ks, local, fs) && forall k :: 0 <= k < |local| ==> (local[k] in remote <==> k in ks)
    decreases |local|
  {
    if local == [] {
      ks := [];
    } else {
      var first := local[0] in remote;
      assert AnswerFormats(local[1..], remote).Done?;
      var more := FormatsAreCommon(local[1..], remote);
      ks := Grown(first, more);
      GrownPicks(first, more, local, AnswerFormats(local[1..], remote).value);
      assert AnswerFormats(local, remote).value == (if first then [local[0]] else []) + AnswerFormats(local[1..], remote).value;
      hide AnswerFormats, Grown, Picks;
      forall k | 0 <= k < |local| ensures local[k] in remote <==> k in ks {
        GrownHas(first, more, k);
        if k > 0 { assert local[k] == local[1..][k - 1]; }
      }
    }
  }

  lemma {:induction false} FormatsMadeIff(local: seq<string>, remote: seq<string>)
    ensures AnswerFormats(local, remote).Done? <==> forall f :: f in local ==> Static(f)
    decreases |local|
  {
    if local != [] {
      assert local[0] in local;
      assert local == [local[0]] + local[1..];
      FormatsMadeIff(local[1..], remote);
    }
  }

  /** A pair of streams that is answered: neither side has refused it by its port. */
  predicate Live(local: seq<Media>, remote: seq<Media>, k: nat) {
    k < |local| && k < |remote| && local[k].port != 0 && remote[k].port != 0
  }

  /** The stream `a` of an answer is the local stream with the common formats and the negotiated direction. */
  predicate Answers(a: Media, local: Media, remote: Media) {
    && a == local.(formats := a.formats, attributes := a.attributes)
    && local.kind == remote.kind && local.proto == remote.proto
    && AnswerFormats(local.formats, remote.formats) == Done(a.formats)
    && a.attributes == AnswerAttributes(local, remote)
  }

  /** The places of the pairs that are answered. */
  function LivePlaces(local: seq<Media>, remote: seq<Media>): (ks: seq<nat>)
    decreases |local|
  {
    if local == [] || remote == [] then [] else Grown(Live(local, remote, 0), LivePlaces(local[1..], remote[1..]))
  }

  lemma {:induction false} LivePlacesAre(local: seq<Media>, remote: seq<Media>)
    ensures Increasing(LivePlaces(local, remote))
    ensures forall k: nat :: k in LivePlaces(local, remote) <==> Live(local, remote, k)
    decreases |local|
  {
    if local != [] && remote != [] {
      var first, more := Live(local, remote, 0), LivePlaces(local[1..], remote[1..]);
      LivePlacesAre(local[1..], remote[1..]);
      GrownIncreasing(first, more);
      hide LivePlaces, Grown;
      forall k: nat ensures k in Grown(first, more) <==> Live(local, remote, k) {
        GrownHas(first, more, k);
        if k > 0 { assert Live(local, remote, k) <==> Live(local[1..], remote[1..], k - 1); }
      }
      PlacesUnfold(local, remote);
    }
  }

  lemma PlacesUnfold(local: seq<Media>, remote: seq<Media>)
    requires local != [] && remote != []
    ensures LivePlaces(local, remote) == Grown(Live(local, remote, 0), LivePlaces(local[1..], remote[1..]))
  {
  }

  /** The streams of an answer correspond, in order, to exactly the pairs of streams of which neither port is zero. */
  lemma {:induction false} StreamsAnswerPairs(local: seq<Media>, remote: seq<Media>)
    requires AnswerStreams(local, remote).Done?
    ensures var ms, ks := AnswerStreams(local, remote).value, LivePlaces(local, remote);
            |ks| == |ms| && forall i :: 0 <= i < |ks| ==> Live(local, remote, ks[i]) && Answers(ms[i], local[ks[i]], remote[ks[i]])
    decreases |local|
  {
    if local != [] && remote != [] {
      var first, more := Live(local, remote, 0), LivePlaces(local[1..], remote[1..]);
      hide AnswerFormats, AnswerAttributes;
      assert AnswerStreams(local[1..], remote[1..]).Done?;
      StreamsAnswerPairs(local[1..], remote[1..]);
      var ms, ns := AnswerStreams(local, remote).value, AnswerStreams(local[1..], remote[1..]).value;
      var a := if first then ms[0] else local[0];
      assert first ==> Answers(a, local[0], remote[0]);
      assert ms == (if first then [a] else []) + ns;
      hide AnswerStreams, Answers;
      PairsGrow(first, a, more, local, remote, ms, ns);
    }
  }

  lemma PairsGrow(first: bool, a: Media, more: seq<nat>, local: seq<Media>, remote: seq<Media>, ms: seq<Media>, ns: seq<Media>)
    requires local != [] && remote != [] && |more| == |ns| && ms == (if first then [a] else []) + ns
    requires first ==> Live(local, remote, 0) && Answers(a, local[0], remote[0])
    requires forall i :: 0 <= i < |more| ==>
               Live(local[1..], remote[1..], more[i]) && Answers(ns[i], local[1..][more[i]], remote[1..][more[i]])
    ensures var ks := Grown(first, more);
            |ks| == |ms| && forall i :: 0 <= i < |ks| ==> Live(local, remote, ks[i]) && Answers(ms[i], local[ks[i]], remote[ks[i]])
  {
    hide Answers;
    var ks, d := Grown(first, more), if first then 1 else 0;
    forall i | 0 <= i < |ks| ensures Live(local, remote, ks[i]) && Answers(ms[i], local[ks[i]], remote[ks[i]]) {
      if i >= d { assert ks[i] == more[i - d] + 1 && ms[i] == ns[i - d]; }
    }
  }

  /** When there is an answer: paired streams match, and the formats of the pairs that are answered are static. */
  lemma {:induction false} AnswerMadeIff(local: seq<Media>, remote: seq<Media>)
    ensures AnswerStreams(local, remote).Done?
       <==> Matching(local, remote)
            && forall k: nat :: Live(local, remote, k) ==> forall f :: f in local[k].formats ==> Static(f)
    decreases |local|
  {
    hide Static, AnswerFormats;
    if local != [] && remote != [] {
      AnswerMadeIff(local[1..], remote[1..]);
      FormatsMadeIff(local[0].formats, remote[0].formats);
      assert Matching(local, remote) <==>
        local[0].kind == remote[0].kind && local[0].proto == remote[0].proto && Matching(local[1..], remote[1..]) by {
        assert forall i :: 1 <= i < |local| ==> local[i] == local[1..][i - 1];
        assert forall i :: 1 <= i < |remote| ==> remote[i] == remote[1..][i - 1];
        assert forall i :: 0 <= i < |local[1..]| ==> local[1..][i] == local[i + 1];
      }
      assert forall k: nat :: k >= 1 ==> (Live(local, remote, k) <==> Live(local[1..], remote[1..], k - 1));
      assert forall k: nat :: Live(local[1..], remote[1..], k) ==> Live(local, remote, k + 1) && local[1..][k] == local[k + 1];
    }
  }

  /** The direction of a stream: that of its first direction attribute, both ways if there is none. */
  function DirectionOf(m: Media): string {
    if FirstDirection(m.attributes).Some? then FirstDirection(m.attributes).value else "sendrecv"
  }

  predicate Sends(dir: string) { dir == "sendrecv" || dir == "sendonly" }

  predicate Receives(dir: string) { dir == "sendrecv" || dir == "recvonly" }

  function Directions(xs: seq<Attribute>): nat {
    if xs == [] then 0 else (if IsDirection(xs[0].name) then 1 else 0) + Directions(xs[1..])
  }

  lemma {:induction false} OneDirection(xs: seq<Attribute>, dir: string)
    requires IsDirection(dir)
    ensures Directions(NoDirections(xs) + [Attribute(dir, None)]) == 1
    ensures FirstDirection(NoDirections(xs) + [Attribute(dir, None)]) == Some(dir)
    decreases |xs|
  {
    if xs == [] {
      assert ([] + [Attribute(dir, None)])[1..] == [];
    } else {
      OneDirection(xs[1..], dir);
      var tail := NoDirections(xs[1..]) + [Attribute(dir, None)];
      if IsDirection(xs[0].name) {
        assert NoDirections(xs) == NoDirections(xs[1..]);
      } else {
        assert NoDirections(xs) + [Attribute(dir, None)] == [xs[0]] + tail;
      }
    }
  }

  /**
   * An answered stream does not send where the offer does not receive, nor receive where the offer does not send; if the
   * offer has a direction, the answer has exactly one, and all its other attributes are the local ones.
   */
  lemma DirectionsFit(a: Media, local: Media, remote: Media)
    requires Answers(a, local, remote)
    ensures Sends(DirectionOf(a)) ==> Receives(DirectionOf(remote))
    ensures Receives(DirectionOf(a)) ==> Sends(DirectionOf(remote))
    ensures FirstDirection(remote.attributes).Some? ==> Directions(a.attributes) == 1
    ensures FirstDirection(remote.attributes).Some? ==> NoDirections(a.attributes) == NoDirections(local.attributes)
  {
    var dir := AnswerDirection(FirstDirection(local.attributes), FirstDirection(remote.attributes));
    if dir.Some? {
      OneDirection(local.attributes, dir.value);
      DirectionsDropped(local.attributes, Attribute(dir.value, None));
    }
  }

  predicate IsDirectionText(name: string) { name in {"sendrecv", "sendonly", "recvonly", "inactive"} }

  /** The direction that counts is that of the first attribute with one of the four names. */
  lemma {:induction false} FirstDirectionIs(xs: seq<Attribute>) returns (k: nat)
    ensures k <= |xs| && forall i :: 0 <= i < k ==> !IsDirectionText(xs[i].name)
    ensures FirstDirection(xs) == if k < |xs| then Some(xs[k].name) else None
    ensures k < |xs| ==> IsDirectionText(xs[k].name)
  {
    if xs == [] || IsDirection(xs[0].name) {
      k := 0;
    } else {
      k := FirstDirectionIs(xs[1..]);
      k := k + 1;
      assert forall i :: 1 <= i < |xs| ==> xs[i] == xs[1..][i - 1];
    }
  }

  /**
   * The direction of an answered stream, exactly: it sends if the offer receives, and the answerer sends itself or the offer goes
   * both ways, and likewise the other way round; without a direction in the offer its attributes are the local ones.
   */
  lemma DirectionIs(a: Media, local: Media, remote: Media)
    requires Answers(a, local, remote)
    ensures FirstDirection(remote.attributes).None? ==> a.attributes == local.attributes
    ensures FirstDirection(remote.attributes).Some? ==>
              var here, there := FirstDirection(local.attributes), DirectionOf(remote);
              && (Sends(DirectionOf(a)) <==> Receives(there) && (there == "sendrecv" || (here.Some? && Sends(here.value))))
              && (Receives(DirectionOf(a)) <==> Sends(there) && (there == "sendrecv" || (here.Some? && Receives(here.value))))
              && IsDirectionText(DirectionOf(a))
  {
    var here, there := FirstDirection(local.attributes), FirstDirection(remote.attributes);
    var dir := AnswerDirection(here, there);
    if dir.Some? { OneDirection(local.attributes, dir.value); }
  }

  lemma {:induction false} DirectionsDropped(xs: seq<Attribute>, a: Attribute)
    requires IsDirection(a.name)
    ensures NoDirections(NoDirections(xs) + [a]) == NoDirections(xs)
    decreases |xs|
  {
    if xs == [] {
      assert ([] + [a])[1..] == [];
    } else {
      DirectionsDropped(xs[1..], a);
      if IsDirection(xs[0].name) {
        assert NoDirections(xs) == NoDirections(xs[1..]);
      } else {
        assert (NoDirections(xs) + [a])[1..] == NoDirections(xs[1..]) + [a];
      }
    }
  }

  lemma {:induction false} PlaceBounds(ks: seq<nat>, i: nat)
    requires Increasing(ks) && i < |ks|
    ensures i <= ks[i]
    decreases i
  {
    if i > 0 { PlaceBounds(ks, i - 1); }
  }

  /** The streams at the places `ks` of the offer have, in order, the types and protocols of its first streams. */
  predicate KeepsKinds(offer: seq<Media>, ks: seq<nat>) {
    forall i :: 0 <= i < |ks| ==>
      i <= ks[i] < |offer| && offer[i].kind == offer[ks[i]].kind && offer[i].proto == offer[ks[i]].proto
  }

  lemma PlacesFit(local: seq<Media>, offer: seq<Media>)
    ensures var ks := LivePlaces(local, offer); forall i :: 0 <= i < |ks| ==> i <= ks[i] < |offer| && ks[i] < |local|
  {
    hide LivePlaces;
    LivePlacesAre(local, offer);
    var ks := LivePlaces(local, offer);
    forall i | 0 <= i < |ks| ensures i <= ks[i] < |offer| && ks[i] < |local| {
      PlaceBounds(ks, i);
      assert ks[i] in ks;
    }
  }

  /**
   * When the other side takes the answer: exactly if the stream at each place of its offer has the type and protocol of the
   * stream of the offer that is answered there. A stream that was refused by port zero is passed over in the answer, so that
   * the streams behind it move up.
   */
  lemma OffererTakesAnswerIff(offer: seq<Media>, local: seq<Media>)
    requires AnswerStreams(local, offer).Done?
    ensures Matching(offer, AnswerStreams(local, offer).value) <==> KeepsKinds(offer, LivePlaces(local, offer))
  {
    hide AnswerStreams, LivePlaces;
    var ms, ks := AnswerStreams(local, offer).value, LivePlaces(local, offer);
    StreamsAnswerPairs(local, offer);
    PlacesFit(local, offer);
    assert forall i :: 0 <= i < |ms| ==> ms[i].kind == offer[ks[i]].kind && ms[i].proto == offer[ks[i]].proto;
  }

  /** If no stream of a pair was refused, the answer is always taken. */
  lemma OffererTakesAnswer(offer: seq<Media>, local: seq<Media>)
    requires AnswerStreams(local, offer).Done?
    requires forall k: nat :: k < |local| && k < |offer| ==> Live(local, offer, k)
    ensures Matching(offer, AnswerStreams(local, offer).value)
  {
    hide AnswerStreams, LivePlaces;
    var ks := LivePlaces(local, offer);
    LivePlacesAre(local, offer);
    forall i | 0 <= i < |ks| ensures ks[i] == i {
      assert forall j :: 0 <= j < |ks| ==> ks[j] in ks;
      EveryIndex(ks, Min(|local|, |offer|), i);
    }
    PlacesFit(local, offer);
    OffererTakesAnswerIff(offer, local);
  }

  lemma {:induction false} EveryIndex(ks: seq<nat>, n: nat, i: nat)
    requires Increasing(ks) && (forall k: nat :: k < n ==> k in ks) && (forall j :: 0 <= j < |ks| ==> ks[j] < n) && i < |ks|
    ensures ks[i] == i
    decreases i
  {
    if i > 0 { EveryIndex(ks, n, i - 1); }
    assert i <= ks[i] && i < n && i in ks;
    var j :| 0 <= j < |ks| && ks[j] == i;
    if i < j { assert ks[i] < ks[j]; }
    if j < i { EveryIndex(ks, n, j); }
  }

  function Plainest(kind: MediaType, port: nat): Media { Media(kind, RtpAvp, port, None, ["0"], None, None, [], []) }

  /**
   * With a stream that was refused by port zero the other side may fail to process the answer, here because a video stream
   * moves up to the place of an audio stream; a refused stream of the same type does no harm.
   */
  lemma RefusedStreamBreaksOfferer(first: MediaType)
    ensures var offer := [Plainest(first, 0), Plainest(Video, 4000)];
            var local := [Plainest(first, 5000), Plainest(Video, 5002)];
            AnswerStreams(local, offer) == Done([Plainest(Video, 5002)])
            && (Matching(offer, AnswerStreams(local, offer).value) <==> first == Video)
  {
    var offer := [Plainest(first, 0), Plainest(Video, 4000)];
    var local := [Plainest(first, 5000), Plainest(Video, 5002)];
    assert local[1..] == [Plainest(Video, 5002)] && offer[1..] == [Plainest(Video, 4000)];
    assert local[1..][1..] == [] && offer[1..][1..] == [];
    ParseDecimal(0, 255);
    assert Decimal(0) == "0";
    assert ["0"][1..] == [];
    assert ["0"] + [] == ["0"];
    assert AnswerFormats(["0"], ["0"]) == Done(["0"]);
    assert [Plainest(Video, 5002)] + [] == [Plainest(Video, 5002)];
    assert offer[0].kind == first;
  }

  predicate ValidStream(s: MediaStream) { s.port <= 0xFFFF && forall c :: c in s.codecs ==> CleanText(c.name) }

  lemma DecimalIsClean(n: nat)
    ensures CleanText(Decimal(n)) && All(SdpGrammar.IsToken, Decimal(n))
  {
    DecimalValue(n);
    AsciiUtf8(Decimal(n));
  }

  lemma CleanConcat(a: string, b: string)
    requires CleanText(a) && CleanText(b)
    ensures CleanText(a + b)
  {
    Utf8Append(a, b);
  }

  lemma OtherCodecIsClean(pt: string, name: string, rate: string, channels: string)
    requires CleanText(pt) && CleanText(name) && CleanText(rate) && CleanText(channels)
    ensures CleanText(pt + ("/" + (name + ("/" + (rate + ("/" + (channels + "/")))))))
  {
    AsciiUtf8("/");
    assert CleanText("/");
    hide CleanText;
    CleanConcat(channels, "/");
    CleanConcat("/", channels + "/");
    CleanConcat(rate, "/" + (channels + "/"));
    CleanConcat("/", rate + ("/" + (channels + "/")));
    CleanConcat(name, "/" + (rate + ("/" + (channels + "/"))));
    CleanConcat("/", name + ("/" + (rate + ("/" + (channels + "/")))));
    CleanConcat(pt, "/" + (name + ("/" + (rate + ("/" + (channels + "/"))))));
  }

  lemma AsciiIsClean(s: string)
    requires forall i :: 0 <= i < |s| ==> ' ' <= s[i] < 128 as char
    ensures CleanText(s)
  {
    AsciiUtf8(s);
  }

  lemma KnownCodecsAreClean()
    ensures CleanText("0 PCMU/8000") && CleanText("8 PCMA/8000") && CleanText("96 opus/48000/2")
    ensures CleanText("101 telephone-event/8000") && CleanText("101 0-16")
  {
    hide CleanText, ValidUtf8;
    AsciiIsClean("0 PCMU/8000");
    AsciiIsClean("8 PCMA/8000");
    AsciiIsClean("96 opus/48000/2");
    AsciiIsClean("101 telephone-event/8000");
    AsciiIsClean("101 0-16");
  }

  lemma CodecIsValid(c: Codec)
    requires CleanText(c.name)
    ensures forall a :: a in CodecAttributes(c) ==> ValidAttribute(a)
  {
    KnownCodecsAreClean();
    DecimalIsClean(c.payloadType);
    DecimalIsClean(c.clockRate);
    DecimalIsClean(c.channels);
    hide CleanText, Decimal;
    OtherCodecIsClean(Decimal(c.payloadType), c.name, Decimal(c.clockRate), Decimal(c.channels));
  }

  lemma {:induction false} CodecsAreValid(cs: seq<Codec>)
    requires forall c :: c in cs ==> CleanText(c.name)
    ensures forall a :: a in OfferAttributes(cs) ==> ValidAttribute(a)
    decreases |cs|
  {
    hide CleanText, ValidAttribute, CodecAttributes;
    if cs != [] {
      assert cs[0] in cs;
      CodecIsValid(cs[0]);
      CodecsAreValid(cs[1..]);
    }
  }

  lemma ClosingIsValid(d: Direction)
    ensures forall a :: a in Closing(d) ==> ValidAttribute(a)
  {
    ClosingNames(d);
    AsciiIsClean("20");
    AsciiIsClean("150");
    hide CleanText, All, DirectionText, SdpGrammar.IsToken;
  }

  lemma ClosingNames(d: Direction)
    ensures All(SdpGrammar.IsToken, "ptime") && All(SdpGrammar.IsToken, "maxptime") && All(SdpGrammar.IsToken, DirectionText(d))
  {
  }

  lemma OfferedStreamIsValid(s: MediaStream)
    requires ValidStream(s)
    ensures ValidMedia(OfferStream(s))
  {
    forall i | 0 <= i < |s.codecs| ensures All(SdpGrammar.IsToken, OfferFormats(s.codecs)[i]) {
      DecimalIsClean(s.codecs[i].payloadType);
    }
    CodecsAreValid(s.codecs);
  }

  lemma ClosedIsValid(m: Media, d: Direction)
    requires ValidMedia(m)
    ensures ValidMedia(m.(attributes := m.attributes + Closing(d)))
  {
    ClosingIsValid(d);
    hide ValidAttribute, Closing;
  }

  /** The media descriptions of an offer are those of its streams, but for the attributes of the last one. */
  lemma OfferedMediaAreValid(ss: seq<MediaStream>, d: Direction, i: nat)
    requires i < |ss| && ValidStream(ss[i])
    ensures var ms := WithClosing(OfferStreams(ss), d);
            |ms| == |ss| && ValidMedia(ms[i]) && ms[i] == OfferStream(ss[i]).(attributes := ms[i].attributes)
  {
    OfferedStreamIsValid(ss[i]);
    ClosedIsValid(OfferStream(ss[i]), d);
    hide ValidMedia, OfferStream, Closing;
  }

  lemma OfferIsValid(p: OfferParams, id: nat, version: nat)
    requires SipReading.ValidIp(p.ip) && id <= U64_MAX && version <= U64_MAX && forall s :: s in p.streams ==> ValidStream(s)
    ensures ValidSdp(Offer(p, id, version))
  {
    var media := WithClosing(OfferStreams(p.streams), p.direction);
    AsciiIsClean("-");
    forall i | 0 <= i < |media| ensures ValidMedia(media[i]) {
      assert p.streams[i] in p.streams;
      OfferedMediaAreValid(p.streams, p.direction, i);
    }
    hide ValidMedia, WithClosing, SipReading.ValidIp, OfferStreams, ValidStream;
  }

  lemma OfferIsPlainIff(p: OfferParams, id: nat, version: nat)
    requires forall s :: s in p.streams ==> ValidStream(s)
    ensures Plain(Offer(p, id, version))
       <==> forall i :: 0 <= i < |p.streams| ==> p.streams[i].kind != Application && p.streams[i].codecs != []
  {
    var media := WithClosing(OfferStreams(p.streams), p.direction);
    assert |media| == |p.streams|;
    hide WithClosing, OfferStreams, ValidStream;
    forall i | 0 <= i < |p.streams|
      ensures PlainMedia(media[i]) <==> p.streams[i].kind != Application && p.streams[i].codecs != []
    {
      assert p.streams[i] in p.streams;
      OfferedMediaAreValid(p.streams, p.direction, i);
    }
    hide PlainMedia;
  }

  /**
   * An offer that was made from valid streams reads back from the wire as the same offer exactly if none of its streams is of
   * the application type and each has a codec.
   */
  lemma OfferRoundTrips(local: Ip, p: OfferParams, id: nat, version: nat)
    requires SipReading.ValidIp(p.ip) && id <= U64_MAX && version <= U64_MAX && forall s :: s in p.streams ==> ValidStream(s)
    ensures var offer := Offer(p, id, version);
            ParseSdp(local, SdpText(offer)) == Ok(offer, "")
            <==> forall i :: 0 <= i < |p.streams| ==> p.streams[i].kind != Application && p.streams[i].codecs != []
  {
    hide Offer, ParseSdp, SdpText, ValidSdp, Plain, ValidStream, SipReading.ValidIp;
    OfferIsValid(p, id, version);
    OfferIsPlainIff(p, id, version);
    SdpRoundTrips(local, Offer(p, id, version));
  }
}
