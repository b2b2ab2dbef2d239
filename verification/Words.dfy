/** Which words the parser knows, exactly: methods, transports, media types, addresses, and what it refuses. */
module Words {
  import opened Wrappers
  import opened Text
  import opened Parsing
  import opened Messages
  import opened SipValues
  import opened SipGrammar
  import opened SipReading
  import opened Headers
  import opened MessageGrammar
  import SV = SdpValues
  import SG = SdpGrammar

  lemma KnownMethod(s: string)
    ensures !MethodFrom(s).Unknown? ==> s == MethodText(MethodFrom(s))
  {
  }

  /** A method is known by its name in capital letters only. */
  lemma MethodIs(s: string, m: Method)
    requires !m.Unknown?
    ensures MethodFrom(s) == m <==> s == MethodText(m)
  {
    hide MethodFrom, MethodText;
    KnownMethod(s);
    MethodReads(m);
  }

  lemma SameIsSymmetric(s: string, t: string, u: string)
    requires SameIgnoringCase(s, t) && SameIgnoringCase(s, u)
    ensures SameIgnoringCase(t, u)
  {
  }

  lemma TransportsDiffer(t: Transport, u: Transport)
    requires SameIgnoringCase(LowerCase(t), LowerCase(u))
    ensures t == u
  {
    var a, b := LowerCase(t), LowerCase(u);
    assert |a| == |b| && |a| >= 2;
    assert ToLower(a[0]) == ToLower(b[0]) && ToLower(a[1]) == ToLower(b[1]);
    assert |a| == 3 ==> ToLower(a[2]) == ToLower(b[2]);
  }

  /** A transport is known by its name in letters of any case. */
  lemma TransportIs(s: string, t: Transport)
    ensures TransportFrom(s) == Some(t) <==> SameIgnoringCase(s, LowerCase(t))
  {
    var r := TransportFrom(s);
    if SameIgnoringCase(s, LowerCase(t)) {
      FirstMatch(s, t);
      SameIsSymmetric(s, LowerCase(r.value), LowerCase(t));
      TransportsDiffer(r.value, t);
    } else if r.Some? {
      FirstMatch(s, r.value);
    }
  }

  lemma FirstMatch(s: string, t: Transport)
    ensures SameIgnoringCase(s, LowerCase(t)) ==> TransportFrom(s).Some?
    ensures TransportFrom(s).Some? ==> SameIgnoringCase(s, LowerCase(TransportFrom(s).value))
  {
    hide SameIgnoringCase;
  }

  lemma LastDigit(s: string)
    requires s != "" && All(IsDigit, s)
    ensures var d := s[|s| - 1] as int - '0' as int;
            0 <= d < 10 && Digit(d) == s[|s| - 1] && All(IsDigit, s[..|s| - 1]) && Value(s) == 10 * Value(s[..|s| - 1]) + d
  {
    assert IsDigit(s[|s| - 1]);
  }

  lemma DecimalPush(n: nat, d: nat)
    requires n >= 1 && d < 10
    ensures Decimal(10 * n + d) == Decimal(n) + [Digit(d)]
  {
    assert (10 * n + d) / 10 == n && (10 * n + d) % 10 == d;
  }

  lemma {:induction false} DecimalOfValue(s: string)
    requires s != "" && All(IsDigit, s) && (s[0] != '0' || |s| == 1)
    ensures Decimal(Value(s)) == s
  {
    var t := s[..|s| - 1];
    LastDigit(s);
    assert s == t + [s[|s| - 1]];
    if |s| > 1 {
      assert t[0] == s[0];
      DecimalOfValue(t);
      PositiveValue(t);
      hide Value, Decimal, All;
      DecimalPush(Value(t), s[|s| - 1] as int - '0' as int);
    } else {
      assert Value(t) == 0;
    }
  }

  lemma {:induction false} PositiveValue(s: string)
    requires s != "" && All(IsDigit, s) && s[0] != '0'
    ensures Value(s) >= 1
  {
    var t := s[..|s| - 1];
    assert IsDigit(s[|s| - 1]);
    if |s| > 1 {
      assert t[0] == s[0];
      assert forall i :: 0 <= i < |t| ==> t[i] == s[i];
      PositiveValue(t);
    } else {
      assert Value(t) == 0;
    }
  }

  /** One part of an IPv4 address: a number up to 255, written as it is printed. */
  lemma OctetIs(s: string, n: nat)
    ensures ParseOctet(s) == Some(n) <==> n <= 255 && s == Decimal(n)
  {
    if ParseOctet(s) == Some(n) {
      assert s[..|s|] == s;
      DecimalOfValue(s);
    }
    if n <= 255 && s == Decimal(n) { OctetReads(n); }
  }

  function Join(sep: char, parts: seq<string>): string {
    if parts == [] then "" else if |parts| == 1 then parts[0] else parts[0] + ([sep] + Join(sep, parts[1..]))
  }

  lemma {:induction false} JoinSplit(sep: char, s: string)
    ensures Join(sep, Split(sep, s)) == s
  {
    if s != "" {
      var parts := Split(sep, s[1..]);
      JoinSplit(sep, s[1..]);
      assert s == [s[0]] + s[1..];
      if s[0] == sep {
        assert Split(sep, s)[1..] == parts;
      } else {
        assert Split(sep, s)[1..] == parts[1..];
        hide Split;
        JoinFirst(sep, s[0], parts);
      }
    }
  }

  lemma JoinFirst(sep: char, c: char, parts: seq<string>)
    requires parts != []
    ensures Join(sep, [[c] + parts[0]] + parts[1..]) == [c] + Join(sep, parts)
  {
    var more := [[c] + parts[0]] + parts[1..];
    assert more[1..] == parts[1..];
  }

  lemma JoinMore(sep: char, parts: seq<string>)
    requires |parts| >= 1
    ensures Join(sep, parts) == if |parts| == 1 then parts[0] else parts[0] + ([sep] + Join(sep, parts[1..]))
  {
  }

  lemma JoinFour(parts: seq<string>)
    requires |parts| == 4
    ensures Join('.', parts) == parts[0] + "." + (parts[1] + "." + (parts[2] + "." + parts[3]))
  {
    hide Join;
    assert parts[1..][1..] == parts[2..] && parts[2..][1..] == parts[3..];
    JoinMore('.', parts);
    JoinMore('.', parts[1..]);
    JoinMore('.', parts[2..]);
    JoinMore('.', parts[3..]);
    Regroup(parts[2], ".", parts[3]);
    Regroup(parts[1], ".", parts[2] + "." + parts[3]);
    Regroup(parts[0], ".", parts[1] + "." + (parts[2] + "." + parts[3]));
  }

  /** A text is an IPv4 address exactly if it is what is printed for that address. */
  lemma V4Is(s: string, a: nat, b: nat, c: nat, d: nat)
    ensures ParseV4(s) == Some(V4(a, b, c, d)) <==> a <= 255 && b <= 255 && c <= 255 && d <= 255 && s == IpText(V4(a, b, c, d))
  {
    hide Split, ParseOctet, Decimal, All;
    var parts := Split('.', s);
    if ParseV4(s) == Some(V4(a, b, c, d)) {
      OctetIs(parts[0], a);
      OctetIs(parts[1], b);
      OctetIs(parts[2], c);
      OctetIs(parts[3], d);
      JoinSplit('.', s);
      JoinFour(parts);
    }
    if a <= 255 && b <= 255 && c <= 255 && d <= 255 && s == IpText(V4(a, b, c, d)) {
      OctetReads(a);
      OctetReads(b);
      OctetReads(c);
      OctetReads(d);
      V4Splits(Decimal(a), Decimal(b), Decimal(c), Decimal(d));
    }
  }

  /** Another scheme than `sip` and `sips` is an error. */
  lemma OtherSchemesFail(withParams: bool, word: string, more: string)
    requires All(IsToken, word) && word != "sip" && word != "sips" && (more == "" || !IsToken(more[0]))
    ensures ParseUri(withParams, word + more) == Err(SchemeKind, word + more)
  {
    SpanIs(IsToken, word, more);
    hide ParseUserInfo, ParseHostPort, ParamLoop, UriHeaders;
  }

  /** A port is a number up to 65535; without one behind the colon, or with a larger one, the host is an error. */
  lemma PortIs(digits: string, more: string)
    requires All(IsDigit, digits) && (more == "" || !IsDigit(more[0]))
    ensures ParsePort(":" + (digits + more))
         == if digits != "" && Value(digits) <= 65535 then Ok(Some(Value(digits)), more) else Err(HostKind, more)
  {
    assert (":" + (digits + more))[1..] == digits + more;
    SpanIs(IsDigit, digits, more);
    hide Value, Span;
  }

  /** A media type is known by its name, except that of an application. */
  lemma MediaTypeIs(s: string, k: SV.MediaType)
    ensures SG.KindFrom(s) == Some(k) <==> s == SV.KindText(k) && k != SV.Application
  {
  }

  /** A protocol is known by its name, plain UDP in small or in capital letters. */
  lemma ProtocolIs(s: string, p: SV.SdpTransport)
    ensures SG.ProtoFrom(s) == Some(p) <==> s == SV.ProtoText(p) || (p == SV.UDP && s == "UDP")
  {
  }

  /** A message has a body exactly if it has a Content-Type header under its full or its compact name. */
  lemma ContentTypeIs(hs: seq<Header>)
    ensures HasContentType(hs)
       <==> exists h :: h in hs && h.OtherHeader? && (h.name == "Content-Type" || h.name == "c")
  {
    if HasContentType(hs) {
      var i :| 0 <= i < |hs| && IsContentType(hs[i]);
      assert hs[i] in hs;
    }
  }

  lemma BodyIsRead(readers: Readers, s: string)
    requires AllForward(readers)
    ensures var r := ParseMessage(readers, s);
            r.Ok? ==> (r.value.body.Some? <==>
                         exists h :: h in r.value.headers && h.OtherHeader? && (h.name == "Content-Type" || h.name == "c"))
  {
    hide ParseFirstLine, HeaderLoop, SkipNewlines, HasContentType;
    var r := ParseMessage(readers, s);
    if r.Ok? { ContentTypeIs(r.value.headers); }
  }
}
