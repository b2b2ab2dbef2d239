/** What the search for the length of a body finds, told on any header lines, and so what a message is cut off as. */
module LengthSearch {
  import opened Wrappers
  import opened Text
  import opened Writing
  import opened Framing

  /** The line names the length of the body, by its full or its compact name in any case, and `value` is behind the colon. */
  predicate NamesLength(line: string, value: string) {
    var n := |line| - |value| - 1;
    && n >= 0 && line == line[..n] + ":" + value && ':' !in line[..n]
    && (SameIgnoringCase(line[..n], "Content-Length") || SameIgnoringCase(line[..n], "l"))
  }

  /** Some line names a length that is not text. */
  ghost predicate Malformed(lines: seq<string>) {
    exists i, v :: 0 <= i < |lines| && NamesLength(lines[i], v) && !ValidUtf8(v)
  }

  /** Some line names the length n. */
  ghost predicate Names(lines: seq<string>, i: nat, n: nat) {
    i < |lines| && exists v :: NamesLength(lines[i], v) && Number(v) == Some(n)
  }

  /** No line from the k-th on names a length that is a number. */
  ghost predicate UnnamedFrom(lines: seq<string>, k: nat) {
    forall i, v :: k <= i < |lines| && NamesLength(lines[i], v) ==> Number(v).None?
  }

  /** The line i names the length n, and no line behind it names any. */
  ghost predicate LastNames(lines: seq<string>, i: nat, n: nat) {
    Names(lines, i, n) && UnnamedFrom(lines, i + 1)
  }

  lemma NameIsShort(name: string)
    ensures SameIgnoringCase(name, "Content-Length") || SameIgnoringCase(name, "l") ==> ':' !in name
  {
    if ':' in name {
      var i :| 0 <= i < |name| && name[i] == ':';
      assert ToLower(name[i]) == ':';
    }
  }

  lemma CutSplits(line: string, value: string)
    requires Cut(line).1 == Some(value)
    ensures var name := Cut(line).0; line == name + ":" + value && ':' !in name && |line| == |name| + 1 + |value| && line[..|name|] == name
  {
    var n := Span(NotColon, line);
    assert line == line[..n] + [line[n]] + line[n + 1..];
    assert forall i :: 0 <= i < n ==> line[..n][i] != ':';
  }

  lemma SplitCuts(line: string, name: string, value: string)
    requires line == name + ":" + value && ':' !in name
    ensures Cut(line) == (name, Some(value))
  {
    assert line == name + (":" + value);
    SpanIs(NotColon, name, ":" + value);
    assert line[|name| + 1..] == value;
  }

  /** Cutting a line at its first colon tells whether it names a length. */
  lemma CutNames(line: string, value: string)
    ensures NamesLength(line, value) <==> Cut(line).1 == Some(value) && IsLengthName(Cut(line).0)
  {
    hide Cut, SameIgnoringCase;
    if Cut(line).1 == Some(value) { CutSplits(line, value); }
    if NamesLength(line, value) { SplitCuts(line, line[..|line| - |value| - 1], value); }
  }

  lemma HeadNames(lines: seq<string>)
    requires lines != []
    ensures var (name, value) := Cut(lines[0]);
            forall v :: NamesLength(lines[0], v) <==> IsLengthName(name) && value == Some(v)
  {
    forall v ensures NamesLength(lines[0], v) <==> Cut(lines[0]).1 == Some(v) && IsLengthName(Cut(lines[0]).0) {
      CutNames(lines[0], v);
    }
  }

  lemma TailOf(lines: seq<string>)
    requires lines != []
    ensures forall i :: 1 <= i < |lines| ==> lines[i] == lines[1..][i - 1]
    ensures forall i :: 0 <= i < |lines[1..]| ==> lines[1..][i] == lines[i + 1]
  {
  }

  lemma MalformedUnfolds(lines: seq<string>)
    requires lines != []
    ensures Malformed(lines) <==> (exists v :: NamesLength(lines[0], v) && !ValidUtf8(v)) || Malformed(lines[1..])
  {
    hide NamesLength, ValidUtf8;
    TailOf(lines);
    if Malformed(lines) {
      var i, v :| 0 <= i < |lines| && NamesLength(lines[i], v) && !ValidUtf8(v);
      if i > 0 { assert NamesLength(lines[1..][i - 1], v); }
    }
    if Malformed(lines[1..]) {
      var i, v :| 0 <= i < |lines[1..]| && NamesLength(lines[1..][i], v) && !ValidUtf8(v);
      assert NamesLength(lines[i + 1], v);
    }
  }

  lemma UnnamedUnfolds(lines: seq<string>, k: nat)
    requires lines != []
    ensures k > 0 ==> (UnnamedFrom(lines, k) <==> UnnamedFrom(lines[1..], k - 1))
    ensures UnnamedFrom(lines, 0) <==> (forall v :: NamesLength(lines[0], v) ==> Number(v).None?) && UnnamedFrom(lines[1..], 0)
  {
    hide NamesLength, Number;
    TailOf(lines);
  }

  lemma NamesUnfolds(lines: seq<string>, i: nat, n: nat)
    requires lines != []
    ensures i > 0 ==> (LastNames(lines, i, n) <==> LastNames(lines[1..], i - 1, n))
    ensures LastNames(lines, 0, n) <==> (exists v :: NamesLength(lines[0], v) && Number(v) == Some(n)) && UnnamedFrom(lines[1..], 0)
  {
    hide NamesLength, Number, UnnamedFrom;
    TailOf(lines);
    UnnamedUnfolds(lines, i + 1);
    UnnamedUnfolds(lines, 1);
  }

  /** What the search gives if it has found `found` already. */
  lemma {:induction false} SearchFrom(lines: seq<string>, found: Option<nat>)
    ensures var r := ContentLength(lines, found);
            && (r.Failure? <==> Malformed(lines)) && (r.Failure? ==> r.error == InvalidData)
            && (r.Success? ==>
                  if UnnamedFrom(lines, 0) then r.value == found else r.value.Some? && exists i: nat :: LastNames(lines, i, r.value.value))
    decreases |lines|
  {
    hide NamesLength, Number, ValidUtf8, Malformed, UnnamedFrom, LastNames, Cut, IsLengthName;
    if lines == [] {
      NothingNamed();
    } else {
      var (name, value) := Cut(lines[0]);
      HeadNames(lines);
      MalformedUnfolds(lines);
      UnnamedUnfolds(lines, 0);
      var next := if IsLengthName(name) && value.Some? && Number(value.value).Some? then Number(value.value) else found;
      SearchFrom(lines[1..], next);
      var r := ContentLength(lines, found);
      if r.Success? && !UnnamedFrom(lines, 0) {
        if UnnamedFrom(lines[1..], 0) {
          NamesUnfolds(lines, 0, r.value.value);
          assert LastNames(lines, 0, r.value.value);
        } else {
          var i: nat :| LastNames(lines[1..], i, r.value.value);
          NamesUnfolds(lines, i + 1, r.value.value);
          assert LastNames(lines, i + 1, r.value.value);
        }
      }
    }
  }

  lemma NothingNamed()
    ensures UnnamedFrom([], 0) && !Malformed([])
  {
  }

  lemma {:induction false} OnlyOneLast(lines: seq<string>, i: nat, n: nat, j: nat, m: nat)
    requires LastNames(lines, i, n) && LastNames(lines, j, m)
    ensures i == j && n == m
  {
    var v :| NamesLength(lines[i], v) && Number(v) == Some(n);
    var w :| NamesLength(lines[j], w) && Number(w) == Some(m);
    CutNames(lines[i], v);
    CutNames(lines[j], w);
    hide NamesLength, Number, Cut;
  }

  lemma NamedIsNotUnnamed(lines: seq<string>, i: nat, n: nat)
    requires LastNames(lines, i, n)
    ensures !UnnamedFrom(lines, 0)
  {
    hide NamesLength, Number;
  }

  /**
   * For any lines in any order: the search fails exactly if the length in some line is not text; else it finds the number in the
   * last line that names a length as a number, and nothing exactly if there is no such line.
   */
  lemma LengthFound(lines: seq<string>)
    ensures ContentLength(lines, None) == Failure(InvalidData) <==> Malformed(lines)
    ensures ContentLength(lines, None) == Success(None) <==> !Malformed(lines) && UnnamedFrom(lines, 0)
    ensures forall n: nat :: ContentLength(lines, None) == Success(Some(n)) <==> !Malformed(lines) && exists i: nat :: LastNames(lines, i, n)
  {
    hide NamesLength, Number, Malformed, UnnamedFrom, LastNames, ContentLength;
    SearchFrom(lines, None);
    var r := ContentLength(lines, None);
    forall n: nat ensures r == Success(Some(n)) <==> !Malformed(lines) && exists i: nat :: LastNames(lines, i, n) {
      if i: nat :| LastNames(lines, i, n) {
        NamedIsNotUnnamed(lines, i, n);
        if r.Success? {
          var j: nat :| LastNames(lines, j, r.value.value);
          OnlyOneLast(lines, i, n, j, r.value.value);
        }
      }
    }
  }

  /** White space that can stand around a number. */
  predicate IsPadding(c: char) { 9 <= c as int <= 13 || c == ' ' }

  lemma {:induction false} PaddingInFront(pad: string, s: string)
    requires All(IsPadding, pad) && (s == "" || (!IsPadding(s[0]) && s[0] as int < 0x80))
    ensures TrimStart(pad + s) == s
    decreases |pad|
  {
    if pad == "" {
      assert pad + s == s;
    } else {
      var t := pad + s;
      assert t[..1] == [pad[0]] && IsPadding(pad[0]);
      assert t[1..] == pad[1..] + s;
      assert forall i :: 0 <= i < |pad[1..]| ==> pad[1..][i] == pad[i + 1];
      PaddingInFront(pad[1..], s);
    }
  }

  lemma {:induction false} PaddingBehind(s: string, pad: string)
    requires All(IsPadding, pad) && s != "" && IsDigit(s[|s| - 1])
    ensures TrimEnd(s + pad) == s
    decreases |pad|
  {
    var t, n := s + pad, |s + pad|;
    if pad == "" {
      assert t == s;
      EndsWithDigit(s);
    } else {
      assert t[n - 1..] == [pad[|pad| - 1]] && IsPadding(pad[|pad| - 1]);
      assert t[..n - 1] == s + pad[..|pad| - 1];
      assert forall i :: 0 <= i < |pad| - 1 ==> pad[..|pad| - 1][i] == pad[i];
      hide All, IsPadding;
      assert All(IsPadding, pad[..|pad| - 1]) by { AllOfFront(pad, |pad| - 1); }
      TrimsLast(t);
      PaddingBehind(s, pad[..|pad| - 1]);
    }
  }

  lemma AllOfFront(s: string, n: nat)
    requires All(IsPadding, s) && n <= |s|
    ensures All(IsPadding, s[..n])
  {
  }

  lemma TrimsLast(s: string)
    requires s != "" && IsBlank(s[|s| - 1..])
    ensures TrimEnd(s) == TrimEnd(s[..|s| - 1])
  {
    hide IsBlank;
  }

  /** A number is read with white space around it, with a plus sign and with leading zeros; one that is too large is none. */
  lemma NumberReads(before: string, plus: bool, digits: string, after: string)
    requires All(IsPadding, before) && All(IsPadding, after) && digits != "" && All(IsDigit, digits)
    ensures Number(before + ((if plus then "+" else "") + digits) + after)
         == if Value(digits) <= USIZE_MAX then Some(Value(digits)) else None
  {
    var s := (if plus then "+" else "") + digits;
    assert s[|s| - 1] == digits[|digits| - 1];
    assert s[0] == '+' || s[0] == digits[0];
    assert before + s + after == before + (s + after) && (s + after)[0] == s[0];
    hide TrimStart, TrimEnd, Value;
    PaddingInFront(before, s + after);
    PaddingBehind(s, after);
    DigitsAreNumber(digits, plus);
  }

  lemma DigitsAreNumber(digits: string, plus: bool)
    requires digits != "" && All(IsDigit, digits)
    ensures ParseUnsigned((if plus then "+" else "") + digits, USIZE_MAX)
         == if Value(digits) <= USIZE_MAX then Some(Value(digits)) else None
  {
    var s := (if plus then "+" else "") + digits;
    if plus { assert s[1..] == digits; } else { assert s == digits; }
    SpanIs(IsDigit, digits, "");
    assert digits + "" == digits && digits[..|digits|] == digits;
    hide Value;
  }

  /**
   * What is cut off behind a header section of any lines, wherever among them the length stands: the body of that length, as
   * soon as it is all there; and how it fails without a length.
   */
  lemma DecodingOfAnyLines(head: string, more: string)
    requires FindEnd(head + END) == Some(|head|) && !(CRLF <= head + END)
    ensures Decoding(head + END + more)
         == match ContentLength(Split('\n', head), None)
            case Failure(_) => Fail(InvalidData)
            case Success(None) => Fail(NotFound)
            case Success(Some(n)) =>
              if |head| + 4 + n > USIZE_MAX then Fail(Overflow)
              else if |more| < n then Wait
              else Got(Complete(head + END + more[..n]), more[n..])
  {
    hide ContentLength, Split, EndAt, FindEnd, Decoding;
    var t := head + END + more;
    FindEndStays(head + END, more);
    NoKeepalive(head, more);
    assert t[..|head|] == head;
    var length := ContentLength(Split('\n', head), None);
    OnlyInvalid(Split('\n', head));
    if length.Success? && length.value.Some? && |head| + 4 + length.value.value <= USIZE_MAX {
      DecodingSucceeds(head, more, length.value.value);
    } else {
      DecodingFails(t, |head|);
    }
  }

  lemma DecodingSucceeds(head: string, more: string, n: nat)
    requires var t := head + END + more; !(|t| >= 4 && t[..4] == END) && !(|t| >= 2 && t[..2] == CRLF) && FindEnd(t) == Some(|head|)
    requires ContentLength(Split('\n', head), None) == Success(Some(n)) && |head| + 4 + n <= USIZE_MAX
    ensures Decoding(head + END + more) == if |more| < n then Wait else Got(Complete(head + END + more[..n]), more[n..])
  {
    hide ContentLength, Split, EndAt, FindEnd, Decoding;
    var t := head + END + more;
    assert t[..|head|] == head;
    DecodingIs(t, |head|, n);
    if n <= |more| { Parts(head + END, more, n); }
  }

  lemma OnlyInvalid(lines: seq<string>)
    ensures var r := ContentLength(lines, None); r.Failure? ==> r.error == InvalidData
  {
    hide ContentLength, Malformed, UnnamedFrom, LastNames;
    SearchFrom(lines, None);
  }

  lemma Parts(front: string, more: string, n: nat)
    requires n <= |more|
    ensures (front + more)[..|front| + n] == front + more[..n] && (front + more)[|front| + n..] == more[n..]
  {
  }

  lemma DecodingFails(s: string, h: nat)
    requires !(|s| >= 4 && s[..4] == END) && !(|s| >= 2 && s[..2] == CRLF) && h <= |s| && FindEnd(s) == Some(h)
    ensures var length := ContentLength(Split('\n', s[..h]), None);
            && (length.Failure? ==> Decoding(s) == Fail(length.error))
            && (length == Success(None) ==> Decoding(s) == Fail(NotFound))
            && (length.Success? && length.value.Some? && h + 4 + length.value.value > USIZE_MAX ==> Decoding(s) == Fail(Overflow))
  {
    hide FindEnd, ContentLength, Split, EndAt;
  }

  lemma NoKeepalive(head: string, more: string)
    requires !(CRLF <= head + END)
    ensures var t := head + END + more; |t| >= 4 && t[..4] != END && t[..2] != CRLF
  {
    var s, t := head + END, head + END + more;
    assert t[..2] == s[..2];
    assert t[..4][..2] == t[..2] && END[..2] == CRLF;
  }

  lemma FindEndStays(s: string, more: string)
    requires FindEnd(s).Some?
    ensures FindEnd(s + more) == FindEnd(s)
  {
    hide EndAt;
    var h := FindEnd(s).value;
    hide FindEnd;
    EndIsInside(s, h);
    forall j: nat | j < h ensures !EndAt(s + more, j) { EndAtPrefix(s, more, j); }
    EndAtPrefix(s, more, h);
    FirstEnd(s + more, h);
  }

  lemma EndIsInside(s: string, j: nat)
    requires EndAt(s, j)
    ensures j + 4 <= |s|
  {
  }

  /** Two line breaks are a request to keep the connection alive, and one is a response, whatever follows. */
  lemma Keepalives(rest: string)
    ensures Decoding("\r\n\r\n" + rest) == Got(KeepaliveRequest, rest)
    ensures !(CRLF <= rest) ==> Decoding("\r\n" + rest) == Got(KeepaliveResponse, rest)
  {
    hide FindEnd, ContentLength, Split, EndAt;
    var four, two := "\r\n\r\n" + rest, "\r\n" + rest;
    assert four[..4] == "\r\n\r\n" && four[4..] == rest;
    assert two[..2] == "\r\n" && two[2..] == rest;
    if |two| >= 4 && two[..4] == END {
      assert two[..4][2..] == END[2..] == CRLF;
      assert rest[..2] == two[..4][2..];
    }
  }
}
