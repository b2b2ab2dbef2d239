/** Cutting a byte stream into SIP messages, and writing them. */
module Framing {
  import opened Wrappers
  import opened Text
  import opened Writing

  const END := "\r\n\r\n"
  const USIZE_MAX := 0xFFFF_FFFF_FFFF_FFFF

  datatype Frame = Complete(bytes: string) | KeepaliveRequest | KeepaliveResponse

  /** `Overflow` stands for the size of a message that is more than a machine word can hold. */
  datatype Failure = InvalidData | NotFound | Overflow

  /** What one call of the decoder does with the bytes it has: wait for more, cut off a frame, or fail. */
  datatype Decoded = Wait | Got(frame: Frame, rest: string) | Fail(failure: Failure)

  function Bytes(f: Frame): string {
    match f
    case Complete(bytes) => bytes
    case KeepaliveRequest => END
    case KeepaliveResponse => CRLF
  }

  predicate EndAt(s: string, j: nat) { j + 4 <= |s| && s[j..j + 4] == END }

  /** The position of the first blank line. */
  function FindEnd(s: string): (r: Option<nat>)
    ensures r.None? ==> forall j: nat :: !EndAt(s, j)
    ensures r.Some? ==> EndAt(s, r.value) && forall j: nat :: j < r.value ==> !EndAt(s, j)
  {
    if |s| < 4 then None
    else if EndAt(s, 0) then Some(0)
    else
      var r := FindEnd(s[1..]);
      assert forall j: nat :: j >= 1 ==> (EndAt(s, j) <==> EndAt(s[1..], j - 1)) by { EndsInTail(s); }
      if r.Some? then Some(r.value + 1) else None
  }

  lemma EndsInTail(s: string)
    requires s != ""
    ensures forall j: nat :: j >= 1 ==> (EndAt(s, j) <==> EndAt(s[1..], j - 1))
  {
    forall j: nat | j >= 1 ensures EndAt(s, j) <==> EndAt(s[1..], j - 1) {
      if j + 4 <= |s| { assert s[1..][j - 1..j + 3] == s[j..j + 4]; }
    }
  }

  predicate IsLengthName(name: string) { SameIgnoringCase(name, "Content-Length") || SameIgnoringCase(name, "l") }

  /** What is in front of the first colon, and what is behind it. */
  function Cut(line: string): (string, Option<string>) {
    var n := Span(NotColon, line);
    (line[..n], if n < |line| then Some(line[n + 1..]) else None)
  }

  predicate NotColon(c: char) { c != ':' }

  function Number(value: string): Option<nat> { ParseUnsigned(Trim(value), USIZE_MAX) }

  /** The number in the last Content-Length line that has one; the name must be directly in front of the colon. */
  function ContentLength(lines: seq<string>, found: Option<nat>): Result<Option<nat>, Failure> {
    if lines == [] then Success(found)
    else
      var (name, value) := Cut(lines[0]);
      if IsLengthName(name) && value.Some? then
        if !ValidUtf8(value.value) then Failure(InvalidData)
        else ContentLength(lines[1..], if Number(value.value).Some? then Number(value.value) else found)
      else ContentLength(lines[1..], found)
  }

  function Decoding(s: string): Decoded {
    if |s| >= 4 && s[..4] == END then Got(KeepaliveRequest, s[4..])
    else if |s| >= 2 && s[..2] == CRLF then Got(KeepaliveResponse, s[2..])
    else if FindEnd(s).None? then Wait
    else
      var start := FindEnd(s).value + 4;
      var length := ContentLength(Split('\n', s[..start - 4]), None);
      if length.Failure? then Fail(length.error)
      else if length.value.None? then Fail(NotFound)
      else
        var size := start + length.value.value;
        if size > USIZE_MAX then Fail(Overflow)
        else if |s| < size then Wait
        else Got(Complete(s[..size]), s[size..])
  }

  /** The bytes that have arrived and have not been decoded. */
  class BytesMut {
    var bytes: string

    constructor ()
      ensures bytes == ""
    {
      bytes := "";
    }

    method Extend(chunk: string)
      modifies this
      ensures bytes == old(bytes) + chunk
    {
      bytes := bytes + chunk;
    }

    method Advance(n: nat)
      requires n <= |bytes|
      modifies this
      ensures bytes == old(bytes)[n..]
    {
      bytes := bytes[n..];
    }

    method SplitTo(n: nat) returns (front: string)
      requires n <= |bytes|
      modifies this
      ensures front == old(bytes)[..n] && bytes == old(bytes)[n..]
    {
      front, bytes := bytes[..n], bytes[n..];
    }
  }

  class StreamingDecoder {
    constructor () {}

    /** A frame is taken off the buffer; waiting and failing leave the buffer as it is. */
    method Decode(src: BytesMut) returns (r: Result<Option<Frame>, Failure>)
      modifies src
      ensures match Decoding(old(src.bytes))
              case Wait => r == Success(None) && src.bytes == old(src.bytes)
              case Got(frame, rest) => r == Success(Some(frame)) && src.bytes == rest
              case Fail(failure) => r == Failure(failure) && src.bytes == old(src.bytes)
    {
      if |src.bytes| >= 4 && src.bytes[0..4] == END {
        src.Advance(4);
        return Success(Some(KeepaliveRequest));
      }
      if |src.bytes| >= 2 && src.bytes[0..2] == CRLF {
        src.Advance(2);
        return Success(Some(KeepaliveResponse));
      }
      var headerEnd := FindEnd(src.bytes);
      if headerEnd.None? {
        return Success(None);
      }
      var bodyStart := headerEnd.value + |END|;
      var length :- FindContentLength(Split('\n', src.bytes[..headerEnd.value]));
      if length.None? {
        return Failure(NotFound);
      }
      var expected := bodyStart + length.value;
      if expected > USIZE_MAX {
        return Failure(Overflow);
      }
      if |src.bytes| < expected {
        return Success(None);
      }
      var bytes := src.SplitTo(expected);
      r := Success(Some(Complete(bytes)));
    }

    method FindContentLength(lines: seq<string>) returns (r: Result<Option<nat>, Failure>)
      ensures r == ContentLength(lines, None)
    {
      var contentLength: Option<nat> := None;
      var i := 0;
      while i < |lines|
        invariant 0 <= i <= |lines|
        invariant ContentLength(lines, None) == ContentLength(lines[i..], contentLength)
      {
        var (name, value) := Cut(lines[i]);
        assert lines[i..][1..] == lines[i + 1..];
        i := i + 1;
        if IsLengthName(name) && value.Some? {
          if !ValidUtf8(value.value) {
            return Failure(InvalidData);
          }
          var parsed := Number(value.value);
          if parsed.Some? {
            contentLength := parsed;
          }
        }
      }
      r := Success(contentLength);
    }
  }

  /** What draining a buffer yields: the frames, the bytes that are left, and the failure that stopped it, if any. */
  datatype Drained = Drained(frames: seq<Frame>, rest: string, failure: Option<Failure>)

  function Drain(s: string): Drained
    decreases |s|
  {
    match Decoding(s)
    case Wait => Drained([], s, None)
    case Fail(failure) => Drained([], s, Some(failure))
    case Got(frame, rest) =>
      Conserves(s);
      var d := Drain(rest);
      d.(frames := [frame] + d.frames)
  }

  /** The stream as it arrives: each chunk is appended to what was left, and the buffer is drained. */
  function Feed(left: string, chunks: seq<string>): Drained
    decreases |chunks|
  {
    if chunks == [] then Drained([], left, None)
    else
      var d := Drain(left + chunks[0]);
      if d.failure.Some? then d
      else
        var e := Feed(d.rest, chunks[1..]);
        e.(frames := d.frames + e.frames)
  }

  /** The reading half of a connection: a buffer and its decoder. */
  class FramedRead {
    const buffer: BytesMut
    const decoder: StreamingDecoder

    constructor ()
      ensures fresh(buffer) && buffer.bytes == ""
    {
      buffer := new BytesMut();
      decoder := new StreamingDecoder();
    }

    /** Takes frames until the decoder waits for more bytes or fails. */
    method Read(chunk: string) returns (frames: seq<Frame>, failure: Option<Failure>)
      modifies buffer
      ensures Drained(frames, buffer.bytes, failure) == Drain(old(buffer.bytes) + chunk)
    {
      hide Decoding, Drain;
      buffer.Extend(chunk);
      frames := [];
      ghost var all := buffer.bytes;
      assert [] + Drain(all).frames == Drain(all).frames;
      while true
        invariant Drain(all) == Drain(buffer.bytes).(frames := frames + Drain(buffer.bytes).frames)
        decreases |buffer.bytes|
      {
        Conserves(buffer.bytes);
        DrainStep(frames, buffer.bytes);
        var r := decoder.Decode(buffer);
        if r.Failure? {
          return frames, Some(r.error);
        }
        if r.value.None? {
          return frames, None;
        }
        frames := frames + [r.value.value];
      }
    }
  }

  lemma DrainStep(done: seq<Frame>, s: string)
    ensures Decoding(s).Wait? ==> Drain(s) == Drained([], s, None)
    ensures Decoding(s).Fail? ==> Drain(s) == Drained([], s, Some(Decoding(s).failure))
    ensures Decoding(s).Got? ==>
              var d, e := Drain(s), Drain(Decoding(s).rest);
              d.rest == e.rest && d.failure == e.failure && done + d.frames == done + [Decoding(s).frame] + e.frames
  {
    hide Decoding;
    if Decoding(s).Got? { Regroup(done, [Decoding(s).frame], Drain(Decoding(s).rest).frames); }
  }

  /** A frame that is cut off and the rest make up what was there, and the rest is shorter. */
  lemma Conserves(s: string)
    ensures Decoding(s).Got? ==> Bytes(Decoding(s).frame) + Decoding(s).rest == s && |Decoding(s).rest| < |s|
  {
    hide Decoding, Bytes;
    FrameIsFront(s);
    if Decoding(s).Got? { TakeDrop(s, |Bytes(Decoding(s).frame)|); }
  }

  /** A frame is a front of what was there that is not empty, and the rest is what is behind it. */
  lemma FrameIsFront(s: string)
    ensures Decoding(s).Got? ==>
              var n := |Bytes(Decoding(s).frame)|;
              0 < n <= |s| && Bytes(Decoding(s).frame) == s[..n] && Decoding(s).rest == s[n..]
  {
    hide ContentLength, FindEnd, EndAt, Split;
  }

  lemma TakeDrop(s: string, n: nat)
    requires n <= |s|
    ensures s[..n] + s[n..] == s
  {
  }

  function Concat(parts: seq<string>): string { if parts == [] then "" else parts[0] + Concat(parts[1..]) }

  function FrameBytes(frames: seq<Frame>): string {
    if frames == [] then "" else Bytes(frames[0]) + FrameBytes(frames[1..])
  }

  /** No byte is lost or invented by draining a buffer. */
  lemma {:induction false} DrainConserves(s: string)
    ensures FrameBytes(Drain(s).frames) + Drain(s).rest == s
    decreases |s|
  {
    hide Decoding;
    var d := Drain(s);
    if Decoding(s).Got? {
      Conserves(s);
      var e := Drain(Decoding(s).rest);
      DrainConserves(Decoding(s).rest);
      assert d.frames[1..] == e.frames;
      assert FrameBytes(d.frames) == Bytes(Decoding(s).frame) + FrameBytes(e.frames);
    }
  }

  lemma FirstEnd(s: string, h: nat)
    requires EndAt(s, h) && forall j: nat :: j < h ==> !EndAt(s, j)
    ensures FindEnd(s) == Some(h)
  {
    var r := FindEnd(s);
    assert r.Some?;
  }

  lemma EndAtPrefix(s: string, more: string, j: nat)
    ensures EndAt(s, j) ==> EndAt(s + more, j)
    ensures EndAt(s + more, j) && j + 4 <= |s| ==> EndAt(s, j)
  {
    if j + 4 <= |s| { assert (s + more)[j..j + 4] == s[j..j + 4]; }
  }

  lemma DecodingIs(s: string, h: nat, n: nat)
    requires !(|s| >= 4 && s[..4] == END) && !(|s| >= 2 && s[..2] == CRLF) && h <= |s|
    requires FindEnd(s) == Some(h) && ContentLength(Split('\n', s[..h]), None) == Success(Some(n)) && h + 4 + n <= USIZE_MAX
    ensures Decoding(s) == if |s| < h + 4 + n then Wait else Got(Complete(s[..h + 4 + n]), s[h + 4 + n..])
  {
    hide FindEnd, ContentLength, Split, EndAt;
  }

  lemma DecodingWaits(s: string)
    requires !(|s| >= 4 && s[..4] == END) && !(|s| >= 2 && s[..2] == CRLF) && FindEnd(s).None?
    ensures Decoding(s) == Wait
  {
    hide FindEnd, ContentLength, Split, EndAt;
  }

  /** What is known of a buffer that a message was cut off. */
  lemma CompleteMeans(s: string) returns (h: nat, n: nat)
    requires Decoding(s).Got? && Decoding(s).frame.Complete?
    ensures !(|s| >= 4 && s[..4] == END) && !(|s| >= 2 && s[..2] == CRLF)
    ensures FindEnd(s) == Some(h) && ContentLength(Split('\n', s[..h]), None) == Success(Some(n))
    ensures h + 4 + n <= USIZE_MAX && h + 4 + n <= |s|
    ensures Decoding(s) == Got(Complete(s[..h + 4 + n]), s[h + 4 + n..])
  {
    hide FindEnd, ContentLength, Split, EndAt;
    h := FindEnd(s).value;
    n := ContentLength(Split('\n', s[..h]), None).value.value;
  }

  /** Once a whole message can be decoded, more bytes change neither it nor the start of what is left. */
  lemma CompleteIsStable(s: string, more: string)
    requires Decoding(s).Got? && Decoding(s).frame.Complete?
    ensures Decoding(s + more) == Got(Decoding(s).frame, Decoding(s).rest + more)
  {
    hide ContentLength, Split, EndAt, FindEnd, Decoding;
    var h, n := CompleteMeans(s);
    var t, size := s + more, h + 4 + n;
    forall j: nat | j < h ensures !EndAt(t, j) { EndAtPrefix(s, more, j); }
    EndAtPrefix(s, more, h);
    FirstEnd(t, h);
    PrefixSame(s, more, 2);
    PrefixSame(s, more, 4);
    PrefixSame(s, more, h);
    PrefixSame(s, more, size);
    DecodingIs(t, h, n);
    assert t[size..] == s[size..] + more;
  }

  lemma PrefixSame(s: string, more: string, n: nat)
    requires n <= |s|
    ensures (s + more)[..n] == s[..n]
  {
  }
}
