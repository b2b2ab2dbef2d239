/**
 * What the parser reads that is never written: display names without quotes, hosts in brackets, values in quotes, blanks where
 * they may stand, compact header names, and headers joined by commas.
 */
module OtherForms {
  import opened Wrappers
  import opened Text
  import opened Writing
  import opened Parsing
  import opened Messages
  import opened SipValues
  import opened SipGrammar
  import opened SipReading
  import opened Headers
  import opened MessageGrammar
  import opened MessageRoundTrip
  import opened Auth
  import opened ParamMeaning
  import U = UriRoundTrip
  import V = ViaRoundTrip

  lemma BlanksSkipped(blanks: string, s: string)
    requires All(IsSpace, blanks) && (s == "" || !IsSpace(s[0]))
    ensures SkipWs(blanks + s) == s && (blanks + s != s ==> blanks != "")
  {
    SpanIs(IsSpace, blanks, s);
    if blanks == "" { assert blanks + s == s; }
  }

  /** A name-addr whose display name is a bare word. */
  function BareNamed(name: string, blanks: string, u: Uri): string { name + blanks + ("<" + (UriText(u) + ">")) }

  /** A word is followed by blanks or by what is behind them. */
  lemma WordEnds(name: string, blanks: string, tail: string)
    requires name != "" && All(IsToken, name) && All(IsSpace, blanks) && Starts(tail, '<')
    ensures var t := blanks + tail;
            var s := name + blanks + tail;
            && t != "" && !IsToken(t[0]) && s == name + t && s[0] == name[0] && IsToken(s[0]) && !IsSpace(s[0])
            && s[0] != '"' && s[0] != '<'
  {
    var t := blanks + tail;
    assert blanks != "" ==> t[0] == blanks[0] && IsSpace(blanks[0]);
    assert blanks == "" ==> t == tail;
    assert name + blanks + tail == name + t;
    assert IsToken(name[0]);
  }

  lemma BareDisplayIs(s: string, name: string, t: string)
    requires s != "" && s[0] != '"' && s[0] != '<' && Span(IsToken, s) == |name| && s[..|name|] == name && s[|name|..] == t
    ensures ParseDisplayName(s) == Ok(Some(name), SkipWs(t))
  {
    hide SkipWs, Span, IsToken;
  }

  lemma BareNameReads(name: string, blanks: string, tail: string)
    requires name != "" && All(IsToken, name) && All(IsSpace, blanks) && Starts(tail, '<')
    ensures var s := name + blanks + tail;
            SkipWs(s) == s && ParseDisplayName(s) == Ok(Some(name), tail) && !Starts(s, '"') && !Starts(s, '<')
  {
    hide SkipWs, Span, All, IsToken, IsSpace, ParseDisplayName;
    var s := name + blanks + tail;
    WordEnds(name, blanks, tail);
    SkipNoWs(s);
    SpanIs(IsToken, name, blanks + tail);
    BracketIsDark(tail);
    BlanksSkipped(blanks, tail);
    BareDisplayIs(s, name, blanks + tail);
  }

  lemma BracketIsDark(tail: string)
    requires Starts(tail, '<')
    ensures !IsSpace(tail[0])
  {
  }

  lemma BareNamedIs(name: string, blanks: string, u: Uri, more: string)
    ensures var tail := "<" + (UriText(u) + (">" + more));
            BareNamed(name, blanks, u) + more == name + blanks + tail && tail[1..] == UriText(u) + (">" + more)
  {
    hide UriText;
    Regroup(name + blanks, "<" + (UriText(u) + ">"), more);
    Regroup("<", UriText(u) + ">", more);
    Regroup(UriText(u), ">", more);
  }

  /**
   * A display name without quotes: it is the word in front of the bracket, and the value is read exactly if the URI comes back
   * from the wire.
   */
  lemma BareNameAddrReads(name: string, blanks: string, u: Uri, more: string)
    requires name != "" && All(IsToken, name) && All(IsSpace, blanks) && U.ValidUri(u)
    ensures var r := ParseNameAddr(BareNamed(name, blanks, u) + more);
            && (r == Ok(NameAddr(Some(name), u), more) <==> !IsV6Host(u.hostPort.host) && U.PlainHeaders(u))
            && (r.Ok? ==> r.value.display == Some(name))
  {
    hide U.ValidUri, U.PlainHeaders, ParseUri, UriText, ParseDisplayName, SkipWs, BareNamed, All;
    var tail := "<" + (UriText(u) + (">" + more));
    BareNamedIs(name, blanks, u, more);
    BareNameReads(name, blanks, tail);
    SkipNoWs(tail);
    U.UriRoundTrips(u, ">" + more);
    U.BracketEnds(more);
  }

  /** Up to the bracket the word is a display name, unless it is the name of a scheme with the bracket right behind it. */
  lemma WordIs(name: string, blanks: string, tail: string)
    requires name != "" && All(IsToken, name) && All(IsSpace, blanks) && Starts(tail, '<')
    ensures var s := name + blanks + tail; s[..Span(InSchemeOrDisplay, s)] == name + blanks
    ensures name + blanks == "sip" || name + blanks == "sips" <==> blanks == "" && (name == "sip" || name == "sips")
  {
    var word := name + blanks;
    assert forall i :: 0 <= i < |word| ==> InSchemeOrDisplay(word[i]) by {
      assert forall i :: 0 <= i < |word| ==> word[i] == if i < |name| then name[i] else blanks[i - |name|];
      assert forall c :: IsToken(c) || IsSpace(c) ==> InSchemeOrDisplay(c);
    }
    SpanIs(InSchemeOrDisplay, word, tail);
    if blanks == "" { assert word == name; } else { assert word[|word| - 1] == blanks[|blanks| - 1] && IsSpace(blanks[|blanks| - 1]); }
  }

  /** In front of a colon the word `sip` is a scheme; in front of a bracket, without a blank between, it is an error. */
  lemma SchemeWordFails(withParams: bool, name: string, tail: string)
    requires (name == "sip" || name == "sips") && Starts(tail, '<')
    ensures ParseUri(withParams, name + tail).Err?
  {
    SpanIs(IsToken, name, tail);
    hide ParseUserInfo, ParseHostPort, ParamLoop, UriHeaders;
  }

  /** The same where a bare URI could stand as well, as in From, To and Contact. */
  lemma BareNameSipUriReads(withParams: bool, name: string, blanks: string, u: Uri, more: string)
    requires name != "" && All(IsToken, name) && All(IsSpace, blanks) && U.ValidUri(u)
    ensures ParseSipUri(withParams, BareNamed(name, blanks, u) + more) == Ok(Named(NameAddr(Some(name), u)), more)
       <==> !IsV6Host(u.hostPort.host) && U.PlainHeaders(u) && !(blanks == "" && (name == "sip" || name == "sips"))
  {
    hide U.ValidUri, U.PlainHeaders, ParseUri, UriText, ParseNameAddr, SkipWs, BareNamed, All;
    var tail := "<" + (UriText(u) + (">" + more));
    BareNamedIs(name, blanks, u, more);
    BareNameReads(name, blanks, tail);
    WordIs(name, blanks, tail);
    BareNameAddrReads(name, blanks, u, more);
    if blanks == "" && (name == "sip" || name == "sips") {
      assert name + blanks + tail == name + tail;
      SchemeWordFails(withParams, name, tail);
    }
  }

  /** A From or To value with such a display name, and with its tag and parameters. */
  lemma BareNamePartyReads(name: string, blanks: string, u: Uri, tag: Option<string>, params: seq<Param>, rest: string)
    requires name != "" && All(IsToken, name) && All(IsSpace, blanks) && U.ValidUri(u)
    requires !IsV6Host(u.hostPort.host) && U.PlainHeaders(u) && !(blanks == "" && (name == "sip" || name == "sips"))
    requires ValidParty(Party(Named(NameAddr(Some(name), u)), tag, params))
    ensures ParseParty(BareNamed(name, blanks, u) + (ParamsText(Optional("tag", tag) + params) + (CRLF + rest)))
         == Ok(Party(Named(NameAddr(Some(name), u)), tag, params), CRLF + rest)
  {
    hide U.ValidUri, U.PlainHeaders, ValidParty, ParseSipUri, BareNamed, ParamsText, Optional, ParamLoop, PutTag, PutAll, SkipWs, Written,
      Separates, EndsParams, ParseParty, All;
    var p := Party(Named(NameAddr(Some(name), u)), tag, params);
    var ps := Optional("tag", tag) + params;
    BareNameSipUriReads(false, name, blanks, u, ParamsText(ps) + (CRLF + rest));
    ParsePartyIs(BareNamed(name, blanks, u) + (ParamsText(ps) + (CRLF + rest)));
    PartyListWritten(p);
    PartyTagsDiffer(p);
    PutPartyList(p);
    TokenSeparates();
    LineStopsParams(rest);
    ParamLoopReads(IsToken, PutTag, Party(p.uri, None, []), ps, CRLF + rest);
  }

  function PortText(port: Option<nat>): string { if port.Some? then ":" + Decimal(port.value) else "" }

  /** An address in brackets, IPv6 or IPv4, is read as that address, with or without a port; anything else in them is an error. */
  lemma BracketReads(text: string, port: Option<nat>, more: string)
    requires ']' !in text && ValidUtf8(text) && ValidPort(port) && EndsHost(more)
    ensures ParseHostPort("[" + text + "]" + PortText(port) + more)
         == if ParseIp(text).Some? then Ok(HostPort(IpAddr(ParseIp(text).value), port), more)
            else Err(HostKind, PortText(port) + more)
  {
    hide ParseIp, ParsePort, ValidUtf8, PortText, EndsHost;
    var tail := PortText(port) + more;
    var s := "[" + text + "]" + PortText(port) + more;
    assert s[0] == '[' && s[1..] == text + ("]" + tail);
    SpanIs(NotBracket, text, "]" + tail);
    assert ("]" + tail)[1..] == tail;
    PortTextReads(port, more);
  }

  lemma PortTextReads(port: Option<nat>, more: string)
    requires ValidPort(port) && EndsHost(more)
    ensures ParsePort(PortText(port) + more) == Ok(port, more)
  {
    hide ParsePort, EndsHost;
    PortReads(port, more);
  }

  /** So an IPv6 host comes back where it is written with the brackets that `Display` leaves out. */
  lemma V6Reads(ip: Ip, port: Option<nat>, more: string)
    requires ValidIp(ip) && ip.V6? && ValidPort(port) && EndsHost(more)
    ensures ParseHostPort("[" + IpText(ip) + "]" + PortText(port) + more) == Ok(HostPort(IpAddr(ip), port), more)
  {
    V6Chars(ip.text);
    hide ParseHostPort, ParseIp, PortText, EndsHost, ValidUtf8;
    BracketReads(ip.text, port, more);
  }

  lemma V6Chars(text: string)
    requires ParseIp(text) == Some(V6(text))
    ensures ']' !in text && ValidUtf8(text)
  {
    assert ParseV4(text).None? by { V4IsNotV6(text); }
    hide ParseV4;
    assert text[..Span(IsHexGroup, text)] == text;
    assert forall i :: 0 <= i < |text| ==> IsHexGroup(text[i]);
    AsciiUtf8(text);
  }

  lemma ValuedIs(p: char -> bool, s: string, name: string, t: string, value: string, more: string)
    requires Span(p, SkipWs(s)) == |name| && SkipWs(s)[..|name|] == name && SkipWs(s)[|name|..] == "=" + t
    requires ParseParamValue(p, t) == Ok(value, more)
    ensures ParseParam(p, s) == Ok(Param(name, Some(value)), more)
  {
    assert ("=" + t)[1..] == t;
    hide SkipWs, Span, ParseParamValue;
  }

  lemma QuotesRead(p: char -> bool, value: string, more: string)
    requires '"' !in value && ValidUtf8(value)
    ensures ParseParamValue(p, "\"" + (value + ("\"" + more))) == Ok(value, more)
  {
    hide ValidUtf8;
    var s := "\"" + (value + ("\"" + more));
    assert s[1..] == value + ("\"" + more);
    SpanIs(NotQuote, value, "\"" + more);
    assert ("\"" + more)[1..] == more;
  }

  lemma QuoteTail(t: string)
    ensures "=\"" + t == "=" + ("\"" + t)
  {
    Regroup("=", "\"", t);
  }

  lemma QuotedTail(p: char -> bool, blanks: string, name: string, t: string)
    requires Separates(p) && All(p, name) && All(IsSpace, blanks)
    ensures var u := name + ("=" + t);
            SkipWs(blanks + u) == u && Span(p, u) == |name| && u[..|name|] == name && u[|name|..] == "=" + t
  {
    hide All, SkipWs, Span;
    StartsDark(p, name, "=" + t);
    BlanksSkipped(blanks, name + ("=" + t));
    SpanIs(p, name, "=" + t);
  }

  /** A value in quotes may have any characters but a quote. */
  lemma QuotedValueReads(p: char -> bool, blanks: string, name: string, value: string, more: string)
    requires Separates(p) && All(p, name) && All(IsSpace, blanks) && '"' !in value && ValidUtf8(value)
    ensures ParseParam(p, blanks + (name + ("=\"" + (value + ("\"" + more))))) == Ok(Param(name, Some(value)), more)
  {
    hide ValidUtf8, SkipWs, All, Span, ParseParam, ParseParamValue, Separates;
    var quoted := "\"" + (value + ("\"" + more));
    QuoteTail(value + ("\"" + more));
    QuotedTail(p, blanks, name, quoted);
    QuotesRead(p, value, more);
    ValuedIs(p, blanks + (name + ("=" + quoted)), name, quoted, value, more);
  }

  lemma StartsDark(p: char -> bool, name: string, tail: string)
    requires Separates(p) && All(p, name) && tail != "" && !IsSpace(tail[0])
    ensures name + tail != "" && !IsSpace((name + tail)[0])
  {
    assert name != "" ==> (name + tail)[0] == name[0];
  }

  /** Blanks in front of a parameter make no difference. */
  lemma BlanksBeforeParam(p: char -> bool, blanks: string, s: string)
    requires All(IsSpace, blanks) && (s == "" || !IsSpace(s[0]))
    ensures ParseParam(p, blanks + s) == ParseParam(p, s)
  {
    BlanksSkipped(blanks, s);
    SkipNoWs(s);
    hide SkipWs;
  }

  /** One parameter as it may come: blanks around it, and its value in quotes or not. */
  datatype Loose = Loose(before: string, param: Param, quoted: bool, after: string)

  function LooseText(x: Loose): string {
    ";" + x.before + (x.param.name + if x.param.value.None? then "" else if x.quoted then "=\"" + x.param.value.value + "\"" else "=" + x.param.value.value) + x.after
  }

  function LooseTexts(xs: seq<Loose>): string { if xs == [] then "" else LooseText(xs[0]) + LooseTexts(xs[1..]) }

  function Params(xs: seq<Loose>): seq<Param> { if xs == [] then [] else [xs[0].param] + Params(xs[1..]) }

  ghost predicate ValidLoose(p: char -> bool, x: Loose) {
    && All(IsSpace, x.before) && All(IsSpace, x.after) && All(p, x.param.name) && x.param.name != ""
    && (x.param.value.Some? ==> if x.quoted then '"' !in x.param.value.value && ValidUtf8(x.param.value.value)
                                else All(p, x.param.value.value))
  }

  lemma LooseIs(x: Loose, tail: string)
    ensures LooseText(x) + tail
         == ";" + (x.before + (x.param.name + ((if x.param.value.None? then "" else if x.quoted then "=\"" + (x.param.value.value + "\"") else "=" + x.param.value.value) + (x.after + tail))))
  {
  }

  lemma LooseParamReads(p: char -> bool, x: Loose, tail: string)
    requires Separates(p) && ValidLoose(p, x) && Ends(p, x.after + tail)
    ensures LooseText(x) + tail != "" && (LooseText(x) + tail)[0] == ';'
    ensures ParseParam(p, (LooseText(x) + tail)[1..]) == Ok(x.param, x.after + tail)
  {
    var more := x.after + tail;
    LooseIs(x, tail);
    hide LooseText, ParseParam, SkipWs, Ends, Separates, All;
    if x.param.value.Some? && x.quoted {
      var v := x.param.value.value;
      assert ("=\"" + (v + "\"")) + more == "=\"" + (v + ("\"" + more));
      QuotedValueReads(p, x.before, x.param.name, v, more);
    } else {
      LooseBareReads(p, x, more);
    }
  }

  lemma LooseBareReads(p: char -> bool, x: Loose, more: string)
    requires Separates(p) && ValidLoose(p, x) && Ends(p, more) && (x.param.value.Some? ==> !x.quoted)
    ensures ParseParam(p, x.before + (x.param.name + ((if x.param.value.None? then "" else "=" + x.param.value.value) + more)))
         == Ok(x.param, more)
  {
    hide ParseParam, Ends;
    var s := Bare(x.param) + more;
    assert s == x.param.name + ((if x.param.value.None? then "" else "=" + x.param.value.value) + more);
    assert s[0] == x.param.name[0] && !IsSpace(s[0]);
    BlanksBeforeParam(p, x.before, s);
    ParamReads(p, x.param, more);
  }

  /** Behind the blanks after a parameter. */
  lemma LooseEnds(p: char -> bool, blanks: string, tail: string)
    requires Separates(p) && All(IsSpace, blanks) && Ends(p, tail) && (tail == "" || !IsSpace(tail[0]))
    ensures Ends(p, blanks + tail) && SkipWs(blanks + tail) == tail
  {
    BlanksSkipped(blanks, tail);
    if blanks == "" { assert blanks + tail == tail; } else { assert (blanks + tail)[0] == blanks[0]; }
    assert blanks != "" ==> blanks[0] == ' ' || blanks[0] == '\t';
    hide SkipWs;
  }

  /** The loop over parameters reads them with blanks around them and with values in quotes, in any set of characters. */
  lemma {:induction false} LooseParamsRead<T>(p: char -> bool, put: (T, Param) -> Result<T, Kind>, v: T, xs: seq<Loose>, more: string)
    requires Separates(p) && (forall x :: x in xs ==> ValidLoose(p, x))
    requires Ends(p, more) && (more == "" || (!IsSpace(more[0]) && more[0] != ';'))
    requires PutAll(put, v, Params(xs)).Success?
    ensures ParamLoop(p, put, v, LooseTexts(xs) + more) == Ok(PutAll(put, v, Params(xs)).value, more)
    decreases |xs|
  {
    if xs == [] {
      assert LooseTexts(xs) + more == more;
    } else {
      hide Separates, Ends, ParamLoop, SkipWs, ValidLoose, PutAll, LooseText, All, LooseTexts, Params;
      assert xs[0] in xs;
      LooseUnfolds(xs, more);
      LooseTailEnds(p, xs[1..], more);
      LooseParamEnds(p, xs[0], LooseTexts(xs[1..]) + more);
      PutAllStep(put, v, Params(xs));
      LooseStep(p, put, v, xs[0], LooseTexts(xs[1..]) + more);
      LooseParamsRead(p, put, put(v, xs[0].param).value, xs[1..], more);
    }
  }

  lemma LooseStep<T>(p: char -> bool, put: (T, Param) -> Result<T, Kind>, v: T, x: Loose, tail: string)
    requires Separates(p) && ValidLoose(p, x) && Ends(p, x.after + tail) && put(v, x.param).Success?
    ensures ParamLoop(p, put, v, LooseText(x) + tail) == ParamLoop(p, put, put(v, x.param).value, SkipWs(x.after + tail))
  {
    hide Separates, Ends, ParamLoop, SkipWs, ValidLoose, LooseText, All, ParseParam;
    LooseParamReads(p, x, tail);
    var s := LooseText(x) + tail;
    assert s == ";" + s[1..];
    ParamLoopUnfolds(p, put, v, s[1..]);
  }

  lemma LooseParamEnds(p: char -> bool, x: Loose, tail: string)
    requires Separates(p) && ValidLoose(p, x) && Ends(p, tail) && (tail == "" || !IsSpace(tail[0]))
    ensures Ends(p, x.after + tail) && SkipWs(x.after + tail) == tail
  {
    hide Separates, Ends, SkipWs, All;
    LooseEnds(p, x.after, tail);
  }

  lemma LooseUnfolds(xs: seq<Loose>, more: string)
    requires xs != []
    ensures LooseTexts(xs) + more == LooseText(xs[0]) + (LooseTexts(xs[1..]) + more)
    ensures Params(xs) != [] && Params(xs)[0] == xs[0].param && Params(xs)[1..] == Params(xs[1..])
  {
    hide LooseText;
  }

  lemma LooseTailEnds(p: char -> bool, xs: seq<Loose>, more: string)
    requires Separates(p) && Ends(p, more) && (more == "" || !IsSpace(more[0]))
    ensures var tail := LooseTexts(xs) + more; Ends(p, tail) && (tail == "" || !IsSpace(tail[0]))
  {
    if xs == [] {
      assert LooseTexts(xs) + more == more;
    } else {
      LooseUnfolds(xs, more);
      LooseIs(xs[0], LooseTexts(xs[1..]) + more);
      hide LooseText, LooseTexts;
    }
  }

  /** A compact name stands for the full one. */
  lemma CompactNames(readers: Readers, s: string)
    requires AllForward(readers)
    ensures ParseHeader(readers, "v", s) == ParseHeader(readers, "Via", s)
    ensures ParseHeader(readers, "f", s) == ParseHeader(readers, "From", s)
    ensures ParseHeader(readers, "t", s) == ParseHeader(readers, "To", s)
    ensures ParseHeader(readers, "i", s) == ParseHeader(readers, "Call-ID", s)
    ensures ParseHeader(readers, "l", s) == ParseHeader(readers, "Content-Length", s)
  {
    hide Joined, ParseParty, ParseCSeq, ReadLine, ScanNumber, ParseOther;
  }

  /** Blanks may stand on both sides of the colon behind a header name. */
  lemma LooseNameReads(name: string, before: string, after: string, value: string)
    requires All(IsToken, name) && All(IsSpace, before) && All(IsSpace, after) && (value == "" || !IsSpace(value[0]))
    ensures ParseHeaderName(name + (before + (":" + (after + value)))) == Ok(name, value)
  {
    var tail := ":" + (after + value);
    assert before != "" ==> (before + tail)[0] == before[0] && IsSpace(before[0]);
    assert before == "" ==> before + tail == tail;
    SpanIs(IsToken, name, before + tail);
    BlanksSkipped(before, tail);
    assert tail[1..] == after + value;
    BlanksSkipped(after, value);
    hide SkipWs, Span, All;
  }

  /** A line ends with a carriage return and a line feed, or with a line feed, or with a carriage return alone. */
  lemma LineBreaks(rest: string)
    ensures ScanNewline("\r\n" + rest) == Ok((), rest) && ScanNewline("\n" + rest) == Ok((), rest)
    ensures !Starts(rest, '\n') ==> ScanNewline("\r" + rest) == Ok((), rest)
    ensures Begins(rest) ==> ScanNewline(rest).Err?
  {
    NewlineScanned(rest);
    assert ("\n" + rest)[1..] == rest && ("\r" + rest)[1..] == rest;
  }

  function CommaVias(vs: seq<Via>): string {
    if vs == [] then "" else if |vs| == 1 then ViaText(vs[0]) else ViaText(vs[0]) + ("," + CommaVias(vs[1..]))
  }

  function ViasOf(vs: seq<Via>): seq<Header> { if vs == [] then [] else [ViaHeader(vs[0])] + ViasOf(vs[1..]) }

  /** Via headers joined by commas, without blanks, are read one by one in their order. */
  lemma {:induction false} CommaViasRead(done: seq<Header>, vs: seq<Via>, rest: string)
    requires vs != [] && forall v :: v in vs ==> V.ValidVia(v) && !IsV6Host(v.sentBy.host)
    ensures Joined(ReadVia, done, CommaVias(vs) + (CRLF + rest)) == Ok(done + ViasOf(vs), CRLF + rest)
    decreases |vs|
  {
    hide V.ValidVia, V.StopsVia, ViaText, ParseVia, CommaVias, Joined, ReadVia, Shrinks, ViasOf;
    var v := vs[0];
    assert v in vs;
    CommaViasUnfold(vs, CRLF + rest);
    ViasOfUnfold(done, vs);
    if |vs| == 1 {
      LineStops(rest);
      V.ViaRoundTrips(v, CRLF + rest);
      ViaStep(done, v, CRLF + rest);
    } else {
      var next := CommaVias(vs[1..]) + (CRLF + rest);
      CommaStopsVia(next);
      V.ViaRoundTrips(v, "," + next);
      ViaStep(done, v, "," + next);
      CommaViasRead(done + [ViaHeader(v)], vs[1..], rest);
    }
  }

  lemma CommaStopsVia(s: string)
    ensures V.StopsVia("," + s) && ("," + s)[1..] == s && Starts("," + s, ',')
  {
  }

  lemma ViasOfUnfold(done: seq<Header>, vs: seq<Via>)
    requires vs != []
    ensures done + [ViaHeader(vs[0])] + ViasOf(vs[1..]) == done + ViasOf(vs)
    ensures |vs| == 1 ==> done + [ViaHeader(vs[0])] == done + ViasOf(vs)
  {
    var h := ViaHeader(vs[0]);
    assert ViasOf(vs) == [h] + ViasOf(vs[1..]);
    assert |vs| == 1 ==> ViasOf(vs[1..]) == [];
    hide ViasOf;
    Regroup(done, [h], ViasOf(vs[1..]));
    assert [h] + [] == [h];
  }

  lemma CommaViasUnfold(vs: seq<Via>, more: string)
    requires vs != []
    ensures CommaVias(vs) + more == if |vs| == 1 then ViaText(vs[0]) + more else ViaText(vs[0]) + ("," + (CommaVias(vs[1..]) + more))
  {
    hide ViaText;
    if |vs| > 1 {
      var first, later := ViaText(vs[0]), CommaVias(vs[1..]);
      assert CommaVias(vs) == first + ("," + later);
      hide CommaVias;
      Regroup(first, "," + later, more);
      Regroup(",", later, more);
    }
  }

  lemma ViaStep(done: seq<Header>, v: Via, tail: string)
    requires ParseVia(ViaText(v) + tail) == Ok(v, tail)
    ensures Joined(ReadVia, done, ViaText(v) + tail)
         == if Starts(tail, ',') then Joined(ReadVia, done + [ViaHeader(v)], tail[1..]) else Ok(done + [ViaHeader(v)], tail)
  {
    hide ParseVia, ViaText;
  }

  /** A blank behind the comma is not accepted in front of a Via, because the version is expected there. */
  lemma BlankBeforeViaFails(s: string)
    ensures ParseVia(" " + s) == Err(VersionKind, " " + s)
  {
    hide ParseViaTransport, ParseHostPort, ParamLoop, ParseComment;
    assert (" " + s)[0] != "SIP/2.0"[0];
  }

  /** One parameter without what introduces it. */
  function Item(x: Loose): string {
    x.before + (x.param.name + if x.param.value.None? then "" else if x.quoted then "=\"" + x.param.value.value + "\"" else "=" + x.param.value.value) + x.after
  }

  function CommaItems(xs: seq<Loose>): string {
    if xs == [] then "" else if |xs| == 1 then Item(xs[0]) else Item(xs[0]) + ("," + CommaItems(xs[1..]))
  }

  lemma ItemReads(x: Loose, tail: string)
    requires ValidLoose(IsToken, x) && x.after == "" && Ends(IsToken, tail)
    ensures ParseParam(IsToken, SkipWs(Item(x) + tail)) == Ok(x.param, tail)
  {
    hide ParseParam, SkipWs, Ends, All, Separates, ValidLoose, LooseText, Item;
    TokenSeparates();
    assert x.after + tail == tail;
    LooseParamReads(IsToken, x, tail);
    ItemIsLoose(x, tail);
    ParamSkips(Item(x) + tail);
  }

  lemma ItemIsLoose(x: Loose, tail: string)
    ensures (LooseText(x) + tail)[1..] == Item(x) + tail
  {
    assert LooseText(x) == ";" + Item(x);
    hide LooseText, Item;
  }

  lemma ParamSkips(s: string)
    ensures ParseParam(IsToken, SkipWs(s)) == ParseParam(IsToken, s)
  {
    assert SkipWs(s) == "" || !IsSpace(SkipWs(s)[0]);
    SkipNoWs(SkipWs(s));
    hide SkipWs;
  }

  lemma CommaItemsUnfold(xs: seq<Loose>, more: string)
    requires xs != []
    ensures CommaItems(xs) + more == if |xs| == 1 then Item(xs[0]) + more else Item(xs[0]) + ("," + (CommaItems(xs[1..]) + more))
  {
    hide Item;
    if |xs| > 1 {
      var first, later := Item(xs[0]), CommaItems(xs[1..]);
      assert CommaItems(xs) == first + ("," + later);
      hide CommaItems;
      Regroup(first, "," + later, more);
      Regroup(",", later, more);
    }
  }

  lemma CommaStops(s: string)
    ensures Ends(IsToken, "," + s) && ("," + s)[1..] == s
  {
  }

  lemma DigestStep<T>(put: (T, Param) -> T, d: T, s: string, x: Param, t: string)
    requires ParseParam(IsToken, SkipWs(s)) == Ok(x, t)
    ensures DigestLoop(put, d, s) == if Starts(t, ',') then DigestLoop(put, put(d, x), t[1..]) else Ok(put(d, x), t)
  {
    hide ParseParam, SkipWs;
  }

  /** The parameters of a digest, joined by commas, with blanks in front of them and values in quotes or not, are all read in order. */
  lemma {:induction false} DigestReads<T>(put: (T, Param) -> T, d: T, xs: seq<Loose>, more: string)
    requires xs != [] && (forall x :: x in xs ==> ValidLoose(IsToken, x) && x.after == "")
    requires Ends(IsToken, more) && !Starts(more, ',')
    ensures DigestLoop(put, d, CommaItems(xs) + more) == Ok(PutEach(put, d, Params(xs)), more)
    decreases |xs|
  {
    hide ValidLoose, CommaItems, DigestLoop, ParseParam, SkipWs, Ends, Item, Params;
    assert xs[0] in xs;
    CommaItemsUnfold(xs, more);
    LooseUnfolds(xs, more);
    if |xs| == 1 {
      ItemReads(xs[0], more);
      DigestStep(put, d, CommaItems(xs) + more, xs[0].param, more);
      NoParams(xs[1..]);
    } else {
      var next := CommaItems(xs[1..]) + more;
      CommaStops(next);
      ItemReads(xs[0], "," + next);
      DigestStep(put, d, CommaItems(xs) + more, xs[0].param, "," + next);
      DigestReads(put, put(d, xs[0].param), xs[1..], more);
    }
  }

  lemma NoParams(xs: seq<Loose>)
    requires xs == []
    ensures Params(xs) == []
  {
  }

  /** A challenge or a credential with its scheme in front: what each field says is told by `ChallengeMeans` and `CredentialMeans`. */
  lemma AuthReads<T>(put: (T, Param) -> T, bare: T, xs: seq<Loose>, more: string)
    requires xs != [] && (forall x :: x in xs ==> ValidLoose(IsToken, x) && x.after == "")
    requires xs[0].before != "" && Ends(IsToken, more) && !Starts(more, ',')
    ensures ParseAuth(put, bare, "Digest" + (CommaItems(xs) + more)) == Ok(Digest(PutEach(put, bare, Params(xs))), more)
  {
    var tail := CommaItems(xs) + more;
    BlankFirst(xs, more);
    SpanIs(IsToken, "Digest", tail);
    hide ValidLoose, CommaItems, DigestLoop, Ends, Params, ParamLoop;
    assert ("Digest" + tail)[0] == 'D';
    DigestReads(put, bare, xs, more);
  }

  lemma BlankFirst(xs: seq<Loose>, more: string)
    requires xs != [] && ValidLoose(IsToken, xs[0]) && xs[0].before != ""
    ensures var tail := CommaItems(xs) + more; tail != "" && !IsToken(tail[0])
  {
    CommaItemsUnfold(xs, more);
    assert Item(xs[0])[0] == xs[0].before[0];
    hide CommaItems, Item;
  }

  lemma CodeIs(digits: string)
    requires digits != "" && All(IsDigit, digits)
    ensures CodeFrom(digits) == if |digits| == 3 && IsStatusCode(Value(digits)) then Some(Value(digits)) else None
  {
    hide IsStatusCode, Value;
    SpanIs(IsDigit, digits, "");
    assert digits + "" == digits;
  }

  lemma StatusCodeIs(s: string, digits: string, t: string)
    requires Span(IsDigit, SkipWs(s)) == |digits| && SkipWs(s)[..|digits|] == digits && SkipWs(s)[|digits|..] == t
    ensures ParseStatusCode(s) == if CodeFrom(digits).Some? then Ok(CodeFrom(digits).value, SkipWs(t)) else Err(StatusCodeKind, SkipWs(t))
  {
    hide SkipWs, Span, CodeFrom;
  }

  /** Digits behind which there are blanks, or something else that is no digit. */
  lemma DigitsEnd(digits: string, after: string, more: string)
    requires All(IsSpace, after) && digits != "" && All(IsDigit, digits) && (more == "" || (!IsSpace(more[0]) && !IsDigit(more[0])))
    ensures var t := after + more; (t == "" || !IsDigit(t[0])) && !IsSpace((digits + t)[0])
  {
    var t := after + more;
    assert after != "" ==> t[0] == after[0] && IsSpace(after[0]);
    assert after == "" ==> t == more;
    assert (digits + t)[0] == digits[0] && IsDigit(digits[0]);
  }

  /** A status code is three digits of a code that is known; the blanks around it are skipped. */
  lemma StatusCodeReads(before: string, digits: string, after: string, more: string)
    requires All(IsSpace, before) && All(IsSpace, after) && digits != "" && All(IsDigit, digits)
    requires more == "" || (!IsSpace(more[0]) && !IsDigit(more[0]))
    ensures var r := ParseStatusCode(before + (digits + (after + more)));
            r == if |digits| == 3 && IsStatusCode(Value(digits)) then Ok(Value(digits), more) else Err(StatusCodeKind, more)
  {
    hide SkipWs, Value, IsStatusCode, Span, All, IsDigit, IsSpace, CodeFrom, ParseStatusCode;
    DigitsEnd(digits, after, more);
    BlanksSkipped(before, digits + (after + more));
    SpanIs(IsDigit, digits, after + more);
    BlanksSkipped(after, more);
    CodeIs(digits);
    StatusCodeIs(before + (digits + (after + more)), digits, after + more);
  }

  /** A text that ends inside the expected word is accepted; one that differs from it is not. */
  lemma {:induction false} TruncatedIsAccepted(word: string, s: string)
    ensures MustScan(word, s).Ok? <==> forall i :: 0 <= i < |word| && i < |s| ==> s[i] == word[i]
    ensures MustScan(word, s).Ok? ==> MustScan(word, s).rest == s[Min(|word|, |s|)..]
    decreases |word|
  {
    if word != "" && s != "" {
      TruncatedIsAccepted(word[1..], s[1..]);
      assert forall i :: 1 <= i < |word| && i < |s| ==> s[i] == s[1..][i - 1] && word[i] == word[1..][i - 1];
      assert forall i :: 0 <= i < |word| - 1 && i < |s| - 1 ==> s[1..][i] == s[i + 1] && word[1..][i] == word[i + 1];
    }
  }

  function CommaJoined(values: seq<string>): string {
    if values == [] then "" else if |values| == 1 then values[0] else values[0] + ("," + CommaJoined(values[1..]))
  }

  function HeadersOf(name: string, values: seq<string>): seq<Header> {
    if values == [] then [] else [OtherHeader(name, [values[0]])] + HeadersOf(name, values[1..])
  }

  lemma CommaJoinedUnfolds(values: seq<string>, more: string)
    requires values != []
    ensures CommaJoined(values) + more == values[0] + if |values| == 1 then more else "," + (CommaJoined(values[1..]) + more)
  {
    if |values| > 1 {
      var later := CommaJoined(values[1..]);
      assert CommaJoined(values) == values[0] + ("," + later);
      hide CommaJoined;
      Regroup(values[0], "," + later, more);
      Regroup(",", later, more);
    }
  }

  lemma RepeatedStep(name: string, read: string -> Parse<string>, done: seq<Header>, value: string, tail: string)
    requires Forward(read) && GivenBack(read, value, true) && (Starts(tail, '\r') || Starts(tail, ','))
    ensures Joined(ReadOther(name, read), done, value + tail)
         == if Starts(tail, ',') then Joined(ReadOther(name, read), done + [OtherHeader(name, [value])], tail[1..])
            else Ok(done + [OtherHeader(name, [value])], tail)
  {
    assert read(value + tail) == Ok(value, tail);
    assert ReadOther(name, read)(value + tail) == Ok(OtherHeader(name, [value]), tail);
  }

  /** Where a line can give several headers, each element between commas is one, in order. */
  lemma {:induction false} RepeatedRead(name: string, read: string -> Parse<string>, done: seq<Header>, values: seq<string>, more: string)
    requires Forward(read) && values != [] && AllGivenBack(read, values, true) && Starts(more, '\r')
    ensures Joined(ReadOther(name, read), done, CommaJoined(values) + more) == Ok(done + HeadersOf(name, values), more)
    decreases |values|
  {
    hide CommaJoined, Joined, Forward, GivenBack, ReadOther, Shrinks, HeadersOf;
    CommaJoinedUnfolds(values, more);
    HeadersUnfold(name, done, values);
    ForwardIsShrinking(name, read);
    if |values| == 1 {
      RepeatedStep(name, read, done, values[0], more);
    } else {
      var next := CommaJoined(values[1..]) + more;
      RepeatedStep(name, read, done, values[0], "," + next);
      assert ("," + next)[1..] == next;
      assert AllGivenBack(read, values[1..], true);
      RepeatedRead(name, read, done + [OtherHeader(name, [values[0]])], values[1..], more);
    }
  }

  lemma HeadersUnfold(name: string, done: seq<Header>, values: seq<string>)
    requires values != []
    ensures done + [OtherHeader(name, [values[0]])] + HeadersOf(name, values[1..]) == done + HeadersOf(name, values)
    ensures |values| == 1 ==> done + [OtherHeader(name, [values[0]])] == done + HeadersOf(name, values)
  {
    var h := OtherHeader(name, [values[0]]);
    assert HeadersOf(name, values) == [h] + HeadersOf(name, values[1..]);
    assert |values| == 1 ==> HeadersOf(name, values[1..]) == [];
    hide HeadersOf;
    Regroup(done, [h], HeadersOf(name, values[1..]));
    assert [h] + [] == [h];
  }

  lemma ForwardIsShrinking(name: string, read: string -> Parse<string>)
    requires Forward(read)
    ensures Shrinks(ReadOther(name, read))
  {
  }

  /** Which names have lines of that kind: Route, Contact and its compact form. */
  lemma RouteAndContactRepeat(read: string -> Parse<string>, name: string, s: string)
    requires Forward(read) && (name == "Route" || name == "Contact" || name == "m")
    ensures ParseOther(read, name, s) == Joined(ReadOther(name, read), [], s)
  {
    hide IsListed, IsSingle, Joined, ReadLine;
    assert REPEATED[0] == "Route" && REPEATED[1] == "Contact" && REPEATED[2] == "m";
  }

  /** A challenge or credential of another scheme has parameters behind semicolons. */
  lemma OtherSchemeReads<T>(put: (T, Param) -> T, bare: T, scheme: string, ps: seq<Param>, rest: string)
    requires scheme != "" && scheme != "Digest" && All(IsToken, scheme) && ValidParams(ps)
    ensures ParseAuth(put, bare, scheme + (ParamsText(ps) + (CRLF + rest))) == Ok(OtherScheme(scheme, ps), CRLF + rest)
  {
    var tail := ParamsText(ps) + (CRLF + rest);
    TailIsDark(ps, rest);
    assert (scheme + tail)[0] == scheme[0] && IsToken(scheme[0]);
    SpanIs(IsToken, scheme, tail);
    hide DigestLoop, ParamLoop, ParamsText, SkipWs, Written, All, Separates, EndsParams, PutParam, PutAll, Span;
    TokenSeparates();
    LineStopsParams(rest);
    PutParamsGeneric([], ps);
    assert [] + ps == ps;
    ParamLoopReads<seq<Param>>(IsToken, PutParam, [], ps, CRLF + rest);
  }

  lemma TailIsDark(ps: seq<Param>, rest: string)
    ensures var tail := ParamsText(ps) + (CRLF + rest); tail != "" && !IsToken(tail[0])
  {
    if ps == [] { assert ParamsText(ps) + (CRLF + rest) == CRLF + rest; }
  }
}
