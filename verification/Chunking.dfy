/** What is sent over a stream, and that any way of cutting it into chunks gives the same messages. */
module Chunking {
  import opened Wrappers
  import opened Text
  import opened Messages
  import opened SipValues
  import opened Writing
  import opened Framing

  /** The headers are the lines that they are written as. */
  datatype Outgoing =
    | OutgoingRequest(verb: Method, uri: Uri, headers: seq<string>, body: Option<string>)
    | OutgoingResponse(code: StatusCode, reason: string, headers: seq<string>, body: Option<string>)

  function StartLine(m: Outgoing): string {
    if m.OutgoingRequest? then MethodText(m.verb) + " " + UriText(m.uri) + " SIP/2.0"
    else "SIP/2.0 " + Decimal(m.code) + " " + m.reason
  }

  function LengthLine(n: nat): string { "Content-Length: " + Decimal(n) }

  function Body(m: Outgoing): string { if m.body.Some? then m.body.value else "" }

  /** Everything in front of the blank line. */
  function Head(m: Outgoing): string { Lines([StartLine(m)] + m.headers) + LengthLine(|Body(m)|) }

  function Encoded(m: Outgoing): string { Head(m) + END + Body(m) }

  method WriteBody(writer: Writer, body: Option<string>)
    modifies writer
    ensures writer.out == old(writer.out) + LengthLine(if body.Some? then |body.value| else 0) + END
                          + if body.Some? then body.value else ""
  {
    assert Decimal(0) == "0";
    var length := if body.Some? then Decimal(|body.value|) else "0";
    LengthWritten(writer.out, "Content-Length: ", length, if body.Some? then body.value else "");
    hide Decimal;
    writer.Write("Content-Length: ");
    if body.Some? {
      writer.Write(length);
      writer.Write(CRLF);
      writer.Write(CRLF);
      writer.Write(body.value);
    } else {
      writer.Write("0");
      writer.Write(CRLF);
      writer.Write(CRLF);
    }
  }

  lemma LengthWritten(out: string, name: string, length: string, body: string)
    ensures out + name + length + CRLF + CRLF + body == out + (name + length) + END + body
    ensures body == "" ==> out + name + length + CRLF + CRLF == out + (name + length) + END + body
  {
    assert CRLF + CRLF == END;
  }

  method Encode(m: Outgoing) returns (bytes: string)
    ensures bytes == Encoded(m)
  {
    hide MethodText, UriText, Decimal, LengthLine;
    var writer := new Writer();
    match m {
      case OutgoingRequest(verb, uri, _, _) =>
        writer.Write(MethodText(verb) + " " + UriText(uri) + " SIP/2.0");
      case OutgoingResponse(code, reason, _, _) =>
        writer.Write("SIP/2.0 " + Decimal(code) + " " + reason);
    }
    assert writer.out == StartLine(m);
    hide StartLine;
    writer.Write(CRLF);
    writer.WriteLines(m.headers);
    assert ([StartLine(m)] + m.headers)[1..] == m.headers;
    assert writer.out == Lines([StartLine(m)] + m.headers);
    hide Lines;
    WriteBody(writer, m.body);
    bytes := writer.out;
  }

  /** A line of text that is not empty and has no line break inside. */
  predicate Clean(line: string) { line != "" && '\r' !in line && '\n' !in line && ValidUtf8(line) }

  /** The lines of the message are lines, and its size is one that memory can hold. */
  predicate Sendable(m: Outgoing) {
    Clean(StartLine(m)) && (forall h :: h in m.headers ==> Clean(h)) && |Encoded(m)| <= USIZE_MAX
  }

  /** A keep-alive line break, or a message. */
  datatype Item = Crlf | Sip(message: Outgoing)

  function ItemText(x: Item): string { if x.Crlf? then CRLF else Encoded(x.message) }

  function Stream(items: seq<Item>): string { if items == [] then "" else ItemText(items[0]) + Stream(items[1..]) }

  function Sent(items: seq<Item>): seq<string> {
    if items == [] then [] else (if items[0].Sip? then [Encoded(items[0].message)] else []) + Sent(items[1..])
  }

  function Breaks(items: seq<Item>): nat {
    if items == [] then 0 else (if items[0].Crlf? then 1 else 0) + Breaks(items[1..])
  }

  /** The messages among the frames. */
  function Received(frames: seq<Frame>): seq<string> {
    if frames == [] then [] else (if frames[0].Complete? then [frames[0].bytes] else []) + Received(frames[1..])
  }

  /** How many keep-alive line breaks the frames account for: a request is two of them, a response is one. */
  function Accounted(frames: seq<Frame>): nat {
    if frames == [] then 0
    else (if frames[0].KeepaliveRequest? then 2 else if frames[0].KeepaliveResponse? then 1 else 0) + Accounted(frames[1..])
  }

  /** No blank line ends inside a line or at its break, if another line follows. */
  lemma NoEndInLine(line: string, rest: string, j: nat)
    requires Clean(line) && rest != "" && rest[0] != '\r' && j < |line| + 2
    ensures !EndAt(line + CRLF + rest, j)
  {
    var s := line + CRLF + rest;
    if j + 4 <= |s| {
      assert s[j..j + 4][0] == s[j] && s[j..j + 4][2] == s[j + 2];
      assert j < |line| ==> s[j] == line[j];
      assert j == |line| ==> s[j + 2] == rest[0];
    }
  }

  lemma EndBehindLine(line: string, rest: string, i: nat)
    ensures EndAt(line + CRLF + rest, |line| + 2 + i) <==> EndAt(rest, i)
  {
    var s, n := line + CRLF + rest, |line| + 2;
    if i + 4 <= |rest| { assert s[n + i..n + i + 4] == rest[i..i + 4]; }
  }

  lemma EndBehindLast(last: string, more: string, j: nat)
    requires Clean(last)
    ensures var s := last + END + more; EndAt(s, |last|) && (j < |last| ==> !EndAt(s, j))
  {
    var s := last + END + more;
    assert s[|last|..|last| + 4] == END;
    if j < |last| {
      assert s[j] == last[j];
      if j + 4 <= |s| { assert s[j..j + 4][0] == s[j]; }
    }
  }

  lemma LinesTextIs(lines: seq<string>, last: string, more: string)
    requires lines != []
    ensures Lines(lines) + last + END + more == lines[0] + CRLF + (Lines(lines[1..]) + last + END + more)
    ensures |Lines(lines) + last| == |lines[0]| + 2 + |Lines(lines[1..]) + last|
  {
    var a, b := lines[0] + CRLF, Lines(lines[1..]);
    assert Lines(lines) == a + b;
    hide Lines;
    Regroup(a, b, last);
    Regroup(a, b + last, END);
    Regroup(a, b + last + END, more);
  }

  lemma LinesStart(lines: seq<string>, last: string, more: string)
    requires (forall l :: l in lines ==> Clean(l)) && Clean(last)
    ensures var s := Lines(lines) + last; s != "" && s[0] !in CRLF && (s + END + more)[0] == s[0]
  {
    if lines != [] { assert lines[0] in lines; }
  }

  /** The first blank line behind written lines is the one that was put there. */
  lemma {:induction false} LinesEnd(lines: seq<string>, last: string, more: string, j: nat)
    requires (forall l :: l in lines ==> Clean(l)) && Clean(last)
    ensures var h := |Lines(lines) + last|;
            EndAt(Lines(lines) + last + END + more, h) && (j < h ==> !EndAt(Lines(lines) + last + END + more, j))
    decreases |lines|
  {
    if lines == [] {
      EndBehindLast(last, more, j);
      assert Lines(lines) + last == last;
    } else {
      var line := lines[0];
      assert line in lines;
      var rest := Lines(lines[1..]) + last + END + more;
      var n := |line| + 2;
      LinesTextIs(lines, last, more);
      LinesStart(lines[1..], last, more);
      hide Clean, Lines, EndAt;
      LinesEnd(lines[1..], last, more, if j < n then 0 else j - n);
      EndBehindLine(line, rest, |Lines(lines[1..]) + last|);
      if j < n { NoEndInLine(line, rest, j); } else { EndBehindLine(line, rest, j - n); }
    }
  }

  lemma CutAt(name: string, value: string)
    requires ':' !in name
    ensures Cut(name + (":" + value)) == (name, Some(value))
  {
    SpanIs(NotColon, name, ":" + value);
    assert (name + (":" + value))[|name| + 1..] == value;
  }

  lemma LengthLineIs(digits: string)
    ensures "Content-Length: " + digits == "Content-Length" + (":" + (" " + digits))
  {
  }

  lemma LengthLineClean(digits: string)
    requires All(IsDigit, digits)
    ensures Clean("Content-Length: " + digits) && ValidUtf8(" " + digits)
  {
    var line := "Content-Length: " + digits;
    assert forall i :: 0 <= i < |line| ==> ' ' <= line[i] <= 'z';
    assert forall i :: 0 <= i < |" " + digits| ==> ' ' <= (" " + digits)[i] <= 'z';
    AsciiUtf8(line);
    AsciiUtf8(" " + digits);
  }

  lemma LengthLineCut(digits: string)
    requires All(IsDigit, digits)
    ensures var line := "Content-Length: " + digits;
            Cut(line) == ("Content-Length", Some(" " + digits)) && Clean(line) && ValidUtf8(" " + digits)
  {
    LengthLineIs(digits);
    LengthLineClean(digits);
    hide Clean, ValidUtf8, All, Cut;
    CutAt("Content-Length", " " + digits);
  }

  lemma OneLengthLine(line: string, name: string, value: string, found: Option<nat>)
    requires Cut(line) == (name, Some(value)) && IsLengthName(name) && ValidUtf8(value) && Number(value).Some?
    ensures ContentLength([line], found) == Success(Number(value))
  {
    hide Cut, IsLengthName, ValidUtf8, Number;
    assert [line][1..] == [];
  }

  lemma LengthLineReads(n: nat, found: Option<nat>)
    requires n <= USIZE_MAX
    ensures ContentLength([LengthLine(n)], found) == Success(Some(n)) && Clean(LengthLine(n))
  {
    DecimalValue(n);
    LengthLineCut(Decimal(n));
    NumberOfDecimal(n);
    assert IsLengthName("Content-Length");
    hide Cut, IsLengthName, ValidUtf8, Number, Decimal, All, Clean, ContentLength;
    OneLengthLine(LengthLine(n), "Content-Length", " " + Decimal(n), found);
  }

  lemma NumberOfDecimal(n: nat)
    requires n <= USIZE_MAX
    ensures Number(" " + Decimal(n)) == Some(n)
  {
    DecimalValue(n);
    TrimDigits(Decimal(n));
    ParseDecimal(n, USIZE_MAX);
  }

  /** The value behind the colon of a line is text. */
  lemma ValueIsText(line: string)
    requires Clean(line)
    ensures var (_, value) := Cut(line + "\r"); value.Some? ==> ValidUtf8(value.value)
  {
    var s := line + "\r";
    var n := Span(NotColon, s);
    if n < |s| {
      AsciiUtf8("\r");
      Utf8Append(line, "\r");
      assert s == s[..n] + [':'] + s[n + 1..];
      Utf8After(s[..n], ':', s[n + 1..]);
    }
  }

  /** Whatever the other lines say, the length line that is written last decides. */
  lemma {:induction false} LastLengthDecides(lines: seq<string>, n: nat, found: Option<nat>)
    requires (forall l :: l in lines ==> Clean(l)) && n <= USIZE_MAX
    ensures ContentLength(Split('\n', Lines(lines) + LengthLine(n)), found) == Success(Some(n))
    decreases |lines|
  {
    if lines == [] {
      LengthLineReads(n, found);
      SplitNone('\n', LengthLine(n));
      assert Lines(lines) + LengthLine(n) == LengthLine(n);
    } else {
      var line := lines[0];
      assert line in lines;
      var rest := Lines(lines[1..]) + LengthLine(n);
      assert Lines(lines) + LengthLine(n) == (line + "\r") + ['\n'] + rest;
      SplitFirst('\n', line + "\r", rest);
      ValueIsText(line);
      var (name, value) := Cut(line + "\r");
      hide Cut, Number, IsLengthName, Split, LengthLine, Lines, Clean;
      LastLengthDecides(lines[1..], n, if IsLengthName(name) && value.Some? && Number(value.value).Some? then Number(value.value) else found);
    }
  }

  lemma LengthDecoded(m: Outgoing)
    requires Sendable(m)
    ensures ContentLength(Split('\n', Head(m)), None) == Success(Some(|Body(m)|))
    ensures |Body(m)| <= USIZE_MAX && forall l :: l in [StartLine(m)] + m.headers ==> Clean(l)
  {
    hide Clean, StartLine, Lines, LengthLine, Split, ContentLength;
    LastLengthDecides([StartLine(m)] + m.headers, |Body(m)|, None);
  }

  lemma EncodedIs(m: Outgoing, more: string)
    ensures Encoded(m) + more == Lines([StartLine(m)] + m.headers) + LengthLine(|Body(m)|) + END + (Body(m) + more)
  {
    hide StartLine, Lines, LengthLine, Body;
  }

  /** The blank line of a written message, whatever follows, is the one in front of its body. */
  lemma HeadEnds(m: Outgoing, more: string)
    requires Sendable(m)
    ensures FindEnd(Encoded(m) + more) == Some(|Head(m)|) && Encoded(m)[0] !in CRLF
  {
    var lines, last := [StartLine(m)] + m.headers, LengthLine(|Body(m)|);
    LengthDecoded(m);
    LengthLineReads(|Body(m)|, None);
    EncodedIs(m, more);
    EncodedSize(m);
    assert Encoded(m)[0] == Head(m)[0] && Head(m) == Lines(lines) + last;
    hide Clean, StartLine, Lines, LengthLine, Split, ContentLength, Encoded, Head, Body, EndAt, Sendable;
    LinesStart(lines, last, "");
    var s := Encoded(m) + more;
    forall j: nat | j < |Head(m)| ensures !EndAt(s, j) { LinesEnd(lines, last, Body(m) + more, j); }
    LinesEnd(lines, last, Body(m) + more, 0);
    FirstEnd(s, |Head(m)|);
  }

  /** The decoder cuts off exactly the message, once it is there, ... */
  lemma MessageCut(m: Outgoing, more: string)
    requires Sendable(m)
    ensures Decoding(Encoded(m) + more) == Got(Complete(Encoded(m)), more)
  {
    var e := Encoded(m);
    HeadEnds(m, more);
    LengthDecoded(m);
    EncodedSize(m);
    hide ContentLength, Split, Sendable, Head, Body, Encoded, StartLine, FindEnd, Decoding;
    assert (e + more)[0] == e[0];
    NoKeepalive(e + more);
    assert (e + more)[..|Head(m)|] == e[..|Head(m)|];
    DecodingIs(e + more, |Head(m)|, |Body(m)|);
    assert (e + more)[..|e|] == e && (e + more)[|e|..] == more;
  }

  /** ... and waits until then. */
  lemma MessageWaits(m: Outgoing, n: nat)
    requires Sendable(m) && n < |Encoded(m)|
    ensures Decoding(Encoded(m)[..n]) == Wait
  {
    var e, h := Encoded(m), |Head(m)|;
    var buffer := e[..n];
    HeadEnds(m, "");
    LengthDecoded(m);
    EncodedSize(m);
    hide ContentLength, Split, Sendable, Head, Body, Encoded, StartLine, FindEnd, Decoding;
    CutAndJoin(e, n);
    EndOfPrefix(buffer, e[n..], h);
    NoKeepalive(buffer);
    if h + 4 <= n {
      CutTwice(e, n, h);
      DecodingIs(buffer, h, |Body(m)|);
    } else {
      DecodingWaits(buffer);
    }
  }

  lemma CutAndJoin(e: string, n: nat)
    requires n <= |e|
    ensures e + "" == e == e[..n] + e[n..]
  {
  }

  lemma CutTwice(e: string, n: nat, h: nat)
    requires h <= n <= |e|
    ensures e[..n][..h] == e[..h]
  {
  }

  lemma NoKeepalive(buffer: string)
    requires buffer != "" ==> buffer[0] !in CRLF
    ensures !(|buffer| >= 4 && buffer[..4] == END) && !(|buffer| >= 2 && buffer[..2] == CRLF)
  {
    if |buffer| >= 2 { assert buffer[..2][0] == buffer[0]; }
    if |buffer| >= 4 { assert buffer[..4][0] == buffer[0]; }
  }

  lemma EndOfPrefix(buffer: string, tail: string, h: nat)
    requires FindEnd(buffer + tail) == Some(h)
    ensures FindEnd(buffer) == if h + 4 <= |buffer| then Some(h) else None
  {
    hide EndAt, FindEnd;
    forall j: nat | j < h || h + 4 > |buffer| ensures !EndAt(buffer, j) {
      EndAtPrefix(buffer, tail, j);
      EndFits(buffer, j);
    }
    if h + 4 <= |buffer| {
      EndAtPrefix(buffer, tail, h);
      FirstEnd(buffer, h);
    }
  }

  lemma EndFits(s: string, j: nat)
    ensures EndAt(s, j) ==> j + 4 <= |s|
  {
  }

  lemma EncodedSize(m: Outgoing)
    ensures |Encoded(m)| == |Head(m)| + 4 + |Body(m)| && Encoded(m)[..|Head(m)|] == Head(m)
    ensures Sendable(m) ==> |Encoded(m)| <= USIZE_MAX
  {
    hide Head, Body;
  }

  predicate AllSendable(items: seq<Item>) { forall x :: x in items && x.Sip? ==> Sendable(x.message) }

  lemma {:induction false} SplitStream(items: seq<Item>, k: nat)
    requires k <= |items|
    ensures Stream(items) == Stream(items[..k]) + Stream(items[k..])
  {
    hide ItemText;
    if k == 0 {
      assert items[..k] == [] && items[k..] == items;
    } else {
      SplitStream(items[1..], k - 1);
      assert items[..k][1..] == items[1..][..k - 1] && items[k..] == items[1..][k - 1..];
    }
  }

  lemma {:induction false} SplitSent(items: seq<Item>, k: nat)
    requires k <= |items|
    ensures Sent(items) == Sent(items[..k]) + Sent(items[k..])
  {
    hide Encoded;
    if k == 0 {
      assert items[..k] == [] && items[k..] == items;
    } else {
      SplitSent(items[1..], k - 1);
      assert items[..k][1..] == items[1..][..k - 1] && items[k..] == items[1..][k - 1..];
    }
  }

  lemma {:induction false} SplitBreaks(items: seq<Item>, k: nat)
    requires k <= |items|
    ensures Breaks(items) == Breaks(items[..k]) + Breaks(items[k..])
  {
    if k == 0 {
      assert items[..k] == [] && items[k..] == items;
    } else {
      SplitBreaks(items[1..], k - 1);
      assert items[..k][1..] == items[1..][..k - 1] && items[k..] == items[1..][k - 1..];
    }
  }

  lemma SplitItems(items: seq<Item>, k: nat)
    requires k <= |items|
    ensures Stream(items) == Stream(items[..k]) + Stream(items[k..])
    ensures Sent(items) == Sent(items[..k]) + Sent(items[k..])
    ensures Breaks(items) == Breaks(items[..k]) + Breaks(items[k..])
  {
    hide Stream, Sent, Breaks;
    SplitStream(items, k);
    SplitSent(items, k);
    SplitBreaks(items, k);
  }

  lemma StartsWithMessage(items: seq<Item>)
    requires AllSendable(items) && items != [] && items[0].Sip?
    ensures Stream(items) != "" && Stream(items)[0] !in CRLF
  {
    assert items[0] in items;
    HeadEnds(items[0].message, "");
    EncodedSize(items[0].message);
  }

  /** The decoder waits on the buffer, or it takes off the frame that `k` items are. */
  predicate Stepped(items: seq<Item>, buffer: string, k: nat) {
    && k <= |items| && k <= 2 && (Decoding(buffer).Wait? <==> k == 0) && !Decoding(buffer).Fail?
    && (k > 0 ==>
        && Decoding(buffer).rest <= Stream(items[k..]) && buffer == Stream(items[..k]) + Decoding(buffer).rest
        && Received([Decoding(buffer).frame]) == Sent(items[..k]) && Accounted([Decoding(buffer).frame]) == Breaks(items[..k]))
  }

  lemma Steps(items: seq<Item>, k: nat, frame: Frame, rest: string, more: string)
    requires 0 < k <= |items| && k <= 2 && rest + more == Stream(items[k..])
    requires Decoding(Stream(items[..k]) + rest) == Got(frame, rest)
    requires Received([frame]) == Sent(items[..k]) && Accounted([frame]) == Breaks(items[..k])
    ensures Stepped(items, Stream(items[..k]) + rest, k)
  {
    hide Decoding, Stream, Sent, Breaks, Received, Accounted;
  }

  /** One step on a prefix of a stream takes off one item, or two line breaks, or waits for more. */
  lemma ItemStep(items: seq<Item>, buffer: string, more: string) returns (k: nat)
    requires AllSendable(items) && buffer + more == Stream(items)
    ensures Stepped(items, buffer, k) && (more == "" && items != [] ==> k > 0)
  {
    if items == [] {
      k := 0;
      assert buffer == "";
    } else if items[0].Sip? {
      k := SipStep(items, buffer, more);
    } else {
      k := CrlfStep(items, buffer, more);
    }
  }

  lemma FirstItem(items: seq<Item>)
    requires items != []
    ensures Stream(items[..1]) == ItemText(items[0]) && Stream(items) == ItemText(items[0]) + Stream(items[1..])
    ensures Sent(items[..1]) == if items[0].Sip? then [Encoded(items[0].message)] else []
    ensures Breaks(items[..1]) == if items[0].Sip? then 0 else 1
  {
    assert items[..1] == [items[0]];
  }

  lemma SameFront(a: string, b: string, c: string, d: string)
    requires a + b == c + d
    ensures |a| >= |c| ==> a == c + a[|c|..] && a[|c|..] + b == d
    ensures |a| < |c| ==> a == c[..|a|]
  {
    if |a| >= |c| {
      assert a == (a + b)[..|a|] == (c + d)[..|a|];
      assert a[..|c|] == c;
      assert d == (c + d)[|c|..] == (a + b)[|c|..];
    } else {
      assert a == (a + b)[..|a|] == (c + d)[..|a|];
    }
  }

  lemma CompleteCounts(e: string)
    ensures Received([Complete(e)]) == [e] && Accounted([Complete(e)]) == 0
  {
    var fs := [Complete(e)];
    assert fs[1..] == [];
    assert Received(fs) == [fs[0].bytes] + Received(fs[1..]);
  }

  lemma SipStep(items: seq<Item>, buffer: string, more: string) returns (k: nat)
    requires AllSendable(items) && buffer + more == Stream(items) && items != [] && items[0].Sip?
    ensures Stepped(items, buffer, k) && (more == "" ==> k > 0)
  {
    var m := items[0].message;
    var e := Encoded(m);
    assert items[0] in items;
    FirstItem(items);
    SameFront(buffer, more, e, Stream(items[1..]));
    CompleteCounts(e);
    hide Decoding, Encoded, Sendable, Stream, Received, Accounted;
    if |buffer| < |e| {
      k := 0;
      MessageWaits(m, |buffer|);
    } else {
      k := 1;
      MessageCut(m, buffer[|e|..]);
      Steps(items, 1, Complete(e), buffer[|e|..], more);
    }
  }

  /** What a step on a buffer that starts with a line break takes off. */
  lemma CrlfDecoding(buffer: string)
    ensures |buffer| >= 4 && buffer[..4] == END ==> Decoding(buffer) == Got(KeepaliveRequest, buffer[4..])
    ensures |buffer| >= 2 && buffer[..2] == CRLF && !(|buffer| >= 4 && buffer[..4] == END) ==>
              Decoding(buffer) == Got(KeepaliveResponse, buffer[2..])
    ensures |buffer| < 2 ==> Decoding(buffer) == Wait
  {
    hide ContentLength, Split;
  }

  lemma FrameCounts(f: Frame)
    requires !f.Complete?
    ensures Received([f]) == [] && Accounted([f]) == if f.KeepaliveRequest? then 2 else 1
  {
    assert [f][1..] == [];
  }

  /** Two line breaks at the front of a stream are two items. */
  lemma TwoBreaks(items: seq<Item>)
    requires AllSendable(items) && items != [] && items[0].Crlf? && |Stream(items)| > 2 && Stream(items)[2] == '\r'
    ensures |items| >= 2 && items[..2] == [Crlf, Crlf]
    ensures Stream(items[..2]) == END && Sent(items[..2]) == [] && Breaks(items[..2]) == 2
    ensures Stream(items) == END + Stream(items[2..])
  {
    FirstItem(items);
    SecondItem(items);
    hide Stream, Sent, Breaks, AllSendable;
    FirstItem(items[1..]);
    TwoCrlf();
    assert items[..2] == [Crlf, Crlf];
    assert items[1..][1..] == items[2..];
    JoinBreaks(Stream(items[2..]));
  }

  lemma JoinBreaks(s: string)
    ensures CRLF + (CRLF + s) == END + s
  {
  }

  lemma TwoCrlf()
    ensures Stream([Crlf, Crlf]) == END && Sent([Crlf, Crlf]) == [] && Breaks([Crlf, Crlf]) == 2
  {
    assert [Crlf, Crlf][1..] == [Crlf] && [Crlf][1..] == [];
    assert Stream([Crlf]) == CRLF;
  }

  lemma SecondItem(items: seq<Item>)
    requires AllSendable(items) && items != [] && items[0].Crlf? && |Stream(items)| > 2 && Stream(items)[2] == '\r'
    ensures |items| >= 2 && items[1].Crlf?
  {
    FirstItem(items);
    var more := Stream(items[1..]);
    assert more[0] == Stream(items)[2];
    assert items[1..] != [];
    if items[1].Sip? { StartsWithMessage(items[1..]); }
  }

  lemma CrlfStep(items: seq<Item>, buffer: string, more: string) returns (k: nat)
    requires AllSendable(items) && buffer + more == Stream(items) && items != [] && items[0].Crlf?
    ensures Stepped(items, buffer, k) && (more == "" ==> k > 0)
  {
    var s := Stream(items);
    FirstItem(items);
    SameFront(buffer, more, CRLF, Stream(items[1..]));
    CrlfDecoding(buffer);
    FrameCounts(KeepaliveRequest);
    FrameCounts(KeepaliveResponse);
    if |buffer| < 2 {
      k := 0;
    } else if |buffer| >= 4 && buffer[..4] == END {
      k := 2;
      assert buffer[2] == buffer[..4][2] && s[2] == buffer[2];
      TwoBreaks(items);
      SameFront(buffer, more, END, Stream(items[2..]));
      hide Decoding, Encoded, AllSendable, Received, Accounted, Sent, Breaks, Stream, Stepped;
      Steps(items, 2, KeepaliveRequest, buffer[4..], more);
    } else {
      k := 1;
      assert buffer[..2] == CRLF;
      hide Decoding, Encoded, AllSendable, Received, Accounted, Sent, Breaks, Stream, Stepped;
      Steps(items, 1, KeepaliveResponse, buffer[2..], more);
    }
  }

  lemma {:induction false} ReceivedConcat(a: seq<Frame>, b: seq<Frame>)
    ensures Received(a + b) == Received(a) + Received(b)
  {
    if a == [] {
      assert a + b == b;
    } else {
      assert (a + b)[1..] == a[1..] + b;
      ReceivedConcat(a[1..], b);
    }
  }

  lemma {:induction false} AccountedConcat(a: seq<Frame>, b: seq<Frame>)
    ensures Accounted(a + b) == Accounted(a) + Accounted(b)
  {
    if a == [] {
      assert a + b == b;
    } else {
      assert (a + b)[1..] == a[1..] + b;
      AccountedConcat(a[1..], b);
    }
  }

  lemma TwoParts(items: seq<Item>, k: nat, n: nat)
    requires k + n <= |items|
    ensures Sent(items[..k + n]) == Sent(items[..k]) + Sent(items[k..][..n])
    ensures Breaks(items[..k + n]) == Breaks(items[..k]) + Breaks(items[k..][..n])
  {
    hide Stream, Sent, Breaks;
    SplitItems(items[..k + n], k);
    assert items[..k + n][..k] == items[..k] && items[..k + n][k..] == items[k..][..n];
  }

  /** Draining a prefix of a stream takes off the first `k` items and leaves a part that the decoder waits on. */
  lemma {:induction false} DrainPrefix(items: seq<Item>, buffer: string, more: string) returns (k: nat)
    requires AllSendable(items) && buffer + more == Stream(items)
    ensures k <= |items| && Drain(buffer).failure.None? && Decoding(Drain(buffer).rest).Wait?
    ensures Drain(buffer).rest + more == Stream(items[k..])
    ensures Received(Drain(buffer).frames) == Sent(items[..k]) && Accounted(Drain(buffer).frames) == Breaks(items[..k])
    decreases |buffer|
  {
    hide Decoding, AllSendable, Stream, Sent, Breaks, Received, Accounted;
    k := ItemStep(items, buffer, more);
    if k == 0 {
      NothingTaken(items);
    } else {
      var d := Decoding(buffer);
      Conserves(buffer);
      SuffixSendable(items, k);
      SplitItems(items, k);
      RestContinues(Stream(items[..k]), d.rest, more, Stream(items[k..]));
      var n := DrainPrefix(items[k..], d.rest, more);
      var e := Drain(d.rest);
      assert Drain(buffer) == e.(frames := [d.frame] + e.frames);
      hide Drain, Stepped;
      ReceivedConcat([d.frame], e.frames);
      AccountedConcat([d.frame], e.frames);
      TwoParts(items, k, n);
      assert items[k..][n..] == items[k + n..];
      k := k + n;
    }
  }

  lemma RestContinues(a: string, rest: string, more: string, b: string)
    requires (a + rest) + more == a + b
    ensures rest + more == b
  {
    Regroup(a, rest, more);
    SameTail(a, rest + more, b);
  }

  lemma NothingTaken(items: seq<Item>)
    ensures items[..0] == [] && Stream([]) == "" && Sent([]) == [] && Breaks([]) == 0
    ensures Received([]) == [] && Accounted([]) == 0
  {
  }

  lemma SuffixSendable(items: seq<Item>, k: nat)
    requires AllSendable(items) && k <= |items|
    ensures AllSendable(items[k..])
  {
  }

  lemma {:induction false} FeedStream(items: seq<Item>, left: string, chunks: seq<string>)
    requires AllSendable(items) && left + Concat(chunks) == Stream(items) && Decoding(left).Wait?
    ensures var d := Feed(left, chunks);
            d.failure.None? && d.rest == "" && Received(d.frames) == Sent(items) && Accounted(d.frames) == Breaks(items)
    decreases |chunks|
  {
    hide Decoding, AllSendable, Sent, Breaks, Received, Accounted, Stream;
    NothingTaken(items);
    if chunks == [] {
      assert left + "" == Stream(items);
      var k := ItemStep(items, left, "");
      assert items == [];
    } else {
      var buffer := left + chunks[0];
      Regroup(left, chunks[0], Concat(chunks[1..]));
      var k := DrainPrefix(items, buffer, Concat(chunks[1..]));
      var d := Drain(buffer);
      SplitItems(items, k);
      SuffixSendable(items, k);
      hide Drain, Concat;
      FeedStream(items[k..], d.rest, chunks[1..]);
      ReceivedConcat(d.frames, Feed(d.rest, chunks[1..]).frames);
      AccountedConcat(d.frames, Feed(d.rest, chunks[1..]).frames);
    }
  }

  lemma SameTail(a: string, b: string, c: string)
    requires a + b == a + c
    ensures b == c
  {
    assert (a + b)[|a|..] == b && (a + c)[|a|..] == c;
  }

  /**
   * Any messages between any keep-alive line breaks, cut into chunks in any way, are received as they were sent, in order and
   * with nothing left over. The keep-alive frames account for every line break; only how many of them count as requests
   * depends on the chunks.
   */
  lemma AnyChunksGiveTheMessages(items: seq<Item>, chunks: seq<string>)
    requires AllSendable(items) && Concat(chunks) == Stream(items)
    ensures var d := Feed("", chunks);
            d.failure.None? && d.rest == "" && Received(d.frames) == Sent(items) && Accounted(d.frames) == Breaks(items)
  {
    assert "" + Concat(chunks) == Stream(items);
    assert FindEnd("").None?;
    FeedStream(items, "", chunks);
  }
}
