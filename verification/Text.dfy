/** Text as the parsers read it: a string is its UTF-8 bytes, and a byte is a character below 256. */
module Text {
  import opened Wrappers

  predicate IsDigit(c: char) { '0' <= c <= '9' }

  predicate IsAlphanumeric(c: char) { IsDigit(c) || 'a' <= c <= 'z' || 'A' <= c <= 'Z' }

  predicate IsSpace(c: char) { c == ' ' || c == '\t' }

  predicate IsNewline(c: char) { c == '\r' || c == '\n' }

  ghost predicate All(p: char -> bool, s: string) { forall i :: 0 <= i < |s| ==> p(s[i]) }

  /** How many characters at the front of `s` satisfy `p`. */
  function Span(p: char -> bool, s: string): (n: nat)
    ensures n <= |s|
    ensures All(p, s[..n]) && (n < |s| ==> !p(s[n]))
  {
    if s != "" && p(s[0]) then 1 + Span(p, s[1..]) else 0
  }

  lemma Regroup<T>(a: seq<T>, b: seq<T>, c: seq<T>)
    ensures (a + b) + c == a + (b + c)
  {
  }

  lemma SpanIs(p: char -> bool, a: string, b: string)
    requires All(p, a) && (b == "" || !p(b[0]))
    ensures Span(p, a + b) == |a| && (a + b)[..|a|] == a && (a + b)[|a|..] == b
  {
    var s := a + b;
    assert forall i :: 0 <= i < |a| ==> s[i] == a[i];
    assert b != "" ==> s[|a|] == b[0];
    assert forall i :: 0 <= i < Span(p, s) ==> p(s[..Span(p, s)][i]);
  }

  function Digit(d: nat): char
    requires d < 10
  {
    '0' + d as char
  }

  /** `Display` of an unsigned number. */
  function Decimal(n: nat): (s: string)
    ensures s != ""
  {
    if n < 10 then [Digit(n)] else Decimal(n / 10) + [Digit(n % 10)]
  }

  /** The number that a string of digits stands for. */
  function Value(s: string): nat
    requires All(IsDigit, s)
  {
    if s == "" then 0 else 10 * Value(s[..|s| - 1]) + (s[|s| - 1] as int - '0' as int)
  }

  lemma {:induction false} DecimalValue(n: nat)
    ensures All(IsDigit, Decimal(n)) && Value(Decimal(n)) == n
    ensures Decimal(n)[0] == '0' ==> n == 0
    ensures n < 10 ==> |Decimal(n)| == 1
    ensures n < 1000 ==> |Decimal(n)| <= 3
  {
    if n >= 10 {
      DecimalValue(n / 10);
      assert Decimal(n)[..|Decimal(n)| - 1] == Decimal(n / 10);
      if n < 1000 { assert n / 10 < 100; SmallDecimal(n / 10); }
    }
  }

  lemma SmallDecimal(n: nat)
    requires n < 100
    ensures |Decimal(n)| <= 2
  {
  }

  /** Reading an unsigned number of at most `max` from a whole string: a leading plus sign is allowed. */
  function ParseUnsigned(s: string, max: nat): Option<nat> {
    var digits := if s != "" && s[0] == '+' then s[1..] else s;
    if digits != "" && Span(IsDigit, digits) == |digits| && DigitsUpTo(digits, max) then
      assert digits[..|digits|] == digits;
      Some(Value(digits))
    else None
  }

  predicate DigitsUpTo(s: string, max: nat)
    requires Span(IsDigit, s) == |s|
  {
    assert s[..|s|] == s;
    Value(s) <= max
  }

  lemma ParseDecimal(n: nat, max: nat)
    requires n <= max
    ensures ParseUnsigned(Decimal(n), max) == Some(n)
  {
    DecimalValue(n);
    SpanIs(IsDigit, Decimal(n), "");
    assert Decimal(n) + "" == Decimal(n);
  }

  function ToLower(c: char): char { if 'A' <= c <= 'Z' then (c as int + 32) as char else c }

  predicate SameIgnoringCase(s: string, t: string) {
    |s| == |t| && forall i :: 0 <= i < |s| ==> ToLower(s[i]) == ToLower(t[i])
  }

  /** The parts of `s` between the separators. */
  function Split(sep: char, s: string): (parts: seq<string>)
    ensures parts != []
  {
    if s == "" then [""]
    else
      var parts := Split(sep, s[1..]);
      if s[0] == sep then [""] + parts else [[s[0]] + parts[0]] + parts[1..]
  }

  lemma {:induction false} SplitFirst(sep: char, a: string, rest: string)
    requires sep !in a
    ensures Split(sep, a + [sep] + rest) == [a] + Split(sep, rest)
    decreases |a|
  {
    var s := a + [sep] + rest;
    if a == "" {
      assert s[1..] == rest;
    } else {
      assert s[1..] == a[1..] + [sep] + rest;
      SplitFirst(sep, a[1..], rest);
      assert [s[0]] + a[1..] == a;
    }
  }

  lemma {:induction false} SplitNone(sep: char, a: string)
    requires sep !in a
    ensures Split(sep, a) == [a]
    decreases |a|
  {
    if a != "" {
      SplitNone(sep, a[1..]);
      assert [a[0]] + a[1..] == a;
    }
  }

  predicate Continuation(c: char) { 0x80 <= c as int <= 0xBF }

  /** How many bytes the character at the front of `s` takes in UTF-8; 0 if there is none or it is malformed. */
  function Utf8Width(s: string): (n: nat)
    ensures n <= |s| && n <= 4
    ensures forall i :: 1 <= i < n ==> Continuation(s[i])
  {
    if s == "" then 0
    else
      var b := s[0] as int;
      if b < 0x80 then 1
      else if 0xC2 <= b <= 0xDF then
        if |s| >= 2 && Continuation(s[1]) then 2 else 0
      else if 0xE0 <= b <= 0xEF then
        if |s| >= 3 && Continuation(s[1]) && Continuation(s[2])
           && (b == 0xE0 ==> s[1] as int >= 0xA0) && (b == 0xED ==> s[1] as int <= 0x9F) then 3 else 0
      else if 0xF0 <= b <= 0xF4 then
        if |s| >= 4 && Continuation(s[1]) && Continuation(s[2]) && Continuation(s[3])
           && (b == 0xF0 ==> s[1] as int >= 0x90) && (b == 0xF4 ==> s[1] as int <= 0x8F) then 4 else 0
      else 0
  }

  predicate ValidUtf8(s: string) {
    s == "" || (var n := Utf8Width(s); n > 0 && ValidUtf8(s[n..]))
  }

  /** Valid text can be cut after an ASCII character. */
  lemma {:induction false} Utf8After(a: string, c: char, b: string)
    requires ValidUtf8(a + [c] + b) && c as int < 0x80
    ensures ValidUtf8(b)
    decreases |a|
  {
    var s := a + [c] + b;
    var n := Utf8Width(s);
    if a == "" {
      assert s[1..] == b;
    } else {
      assert s[|a|] == c;
      assert s[n..] == a[n..] + [c] + b;
      Utf8After(a[n..], c, b);
    }
  }

  lemma {:induction false} AsciiUtf8(s: string)
    requires forall i :: 0 <= i < |s| ==> s[i] as int < 0x80
    ensures ValidUtf8(s)
  {
    if s != "" { AsciiUtf8(s[1..]); }
  }

  lemma {:induction false} Utf8Append(a: string, b: string)
    requires ValidUtf8(a) && ValidUtf8(b)
    ensures ValidUtf8(a + b)
    decreases |a|
  {
    if a == "" {
      assert a + b == b;
    } else {
      var n := Utf8Width(a);
      WidthAppend(a, b);
      assert (a + b)[n..] == a[n..] + b;
      Utf8Append(a[n..], b);
    }
  }

  lemma WidthAppend(a: string, b: string)
    requires Utf8Width(a) > 0
    ensures Utf8Width(a + b) == Utf8Width(a)
  {
    var s := a + b;
    assert forall i :: 0 <= i < |a| ==> s[i] == a[i];
  }

  /** How many bytes a white space character takes at the front of `s`; 0 if there is none. */
  function BlankWidth(s: string): (n: nat)
    ensures n <= |s|
  {
    if |s| >= 1 && IsBlank(s[..1]) then 1
    else if |s| >= 2 && IsBlank(s[..2]) then 2
    else if |s| >= 3 && IsBlank(s[..3]) then 3
    else 0
  }

  /** The white space characters of Unicode. */
  predicate IsBlank(c: string) {
    || (|c| == 1 && (9 <= c[0] as int <= 13 || c[0] == ' '))
    || (|c| == 2 && c[0] as int == 0xC2 && (c[1] as int == 0x85 || c[1] as int == 0xA0))
    || (|c| == 3 && c[0] as int == 0xE1 && c[1] as int == 0x9A && c[2] as int == 0x80)
    || (|c| == 3 && c[0] as int == 0xE2 && c[1] as int == 0x80 && IsE280Blank(c[2] as int))
    || (|c| == 3 && c[0] as int == 0xE2 && c[1] as int == 0x81 && c[2] as int == 0x9F)
    || (|c| == 3 && c[0] as int == 0xE3 && c[1] as int == 0x80 && c[2] as int == 0x80)
  }

  predicate IsE280Blank(b: int) { 0x80 <= b <= 0x8A || b == 0xA8 || b == 0xA9 || b == 0xAF }

  function TrimStart(s: string): string
    decreases |s|
  {
    if BlankWidth(s) == 0 then s else TrimStart(s[BlankWidth(s)..])
  }

  function TrimEnd(s: string): string
    decreases |s|
  {
    var n := |s|;
    if n >= 1 && IsBlank(s[n - 1..]) then TrimEnd(s[..n - 1])
    else if n >= 2 && IsBlank(s[n - 2..]) then TrimEnd(s[..n - 2])
    else if n >= 3 && IsBlank(s[n - 3..]) then TrimEnd(s[..n - 3])
    else s
  }

  /** Valid text without the white space around it. */
  function Trim(s: string): string { TrimEnd(TrimStart(s)) }

  lemma {:induction false} TrimDigits(digits: string)
    requires digits != "" && All(IsDigit, digits)
    ensures Trim(digits) == digits && Trim(" " + digits) == digits
  {
    var s := " " + digits;
    assert s[..1] == " ";
    assert IsBlank(" ");
    assert s[1..] == digits;
    assert BlankWidth(s) == 1;
    assert TrimStart(s) == TrimStart(digits);
    assert forall i :: 0 <= i < |digits| ==> '0' <= digits[i] <= '9';
    StartsWithDigit(digits);
    EndsWithDigit(digits);
  }

  lemma StartsWithDigit(s: string)
    requires s != "" && IsDigit(s[0])
    ensures TrimStart(s) == s
  {
  }

  lemma NoBlankEnds(c: string)
    requires c != "" && IsDigit(c[|c| - 1])
    ensures !IsBlank(c)
  {
  }

  lemma EndsWithDigit(s: string)
    requires s != "" && IsDigit(s[|s| - 1])
    ensures TrimEnd(s) == s
  {
    hide TrimEnd, IsBlank, IsDigit;
    forall i | 0 <= i < |s| ensures !IsBlank(s[i..]) {
      NoBlankEnds(s[i..]);
    }
    TrimEndStops(s);
  }

  lemma TrimEndStops(s: string)
    requires forall i :: 0 <= i < |s| ==> !IsBlank(s[i..])
    ensures TrimEnd(s) == s
  {
    hide TrimEnd, IsBlank;
    TrimEndIs(s);
  }

  lemma TrimEndIs(s: string)
    requires var n := |s|; (n >= 1 ==> !IsBlank(s[n - 1..])) && (n >= 2 ==> !IsBlank(s[n - 2..])) && (n >= 3 ==> !IsBlank(s[n - 3..]))
    ensures TrimEnd(s) == s
  {
    hide IsBlank;
  }
}
