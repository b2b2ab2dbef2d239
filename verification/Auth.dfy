/**
 * The readers of challenges and credentials, as functions on the text in front of them: an example of the readers that
 * `MessageGrammar` has as a parameter, with a comma loop of their own.
 */
module Auth {
  import opened Wrappers
  import opened Text
  import opened Parsing
  import opened SipValues
  import opened SipGrammar
  import opened MessageGrammar

  datatype DigestChallenge = DigestChallenge(
    realm: Option<string>, domain: Option<string>, nonce: Option<string>, cookie: Option<string>, stale: Option<string>,
    algorithm: Option<string>, qop: Option<string>)

  datatype DigestCredential = DigestCredential(
    realm: Option<string>, username: Option<string>, nonce: Option<string>, uri: Option<string>, response: Option<string>,
    algorithm: Option<string>, cnonce: Option<string>, cookie: Option<string>, qop: Option<string>, nc: Option<string>)

  /** A scheme other than Digest has parameters behind semicolons. */
  datatype Auth<T> = Digest(digest: T) | OtherScheme(scheme: string, params: seq<Param>)

  /** The field `opaque` is called `cookie` here. */
  function PutChallenge(d: DigestChallenge, x: Param): DigestChallenge {
    if x.name == "realm" then d.(realm := x.value)
    else if x.name == "nonce" then d.(nonce := x.value)
    else if x.name == "domain" then d.(domain := x.value)
    else if x.name == "algorithm" then d.(algorithm := x.value)
    else if x.name == "opaque" then d.(cookie := x.value)
    else if x.name == "qop" then d.(qop := x.value)
    else if x.name == "stale" then d.(stale := x.value)
    else d
  }

  function PutCredential(d: DigestCredential, x: Param): DigestCredential {
    if x.name == "realm" then d.(realm := x.value)
    else if x.name == "username" then d.(username := x.value)
    else if x.name == "nonce" then d.(nonce := x.value)
    else if x.name == "uri" then d.(uri := x.value)
    else if x.name == "response" then d.(response := x.value)
    else if x.name == "algorithm" then d.(algorithm := x.value)
    else if x.name == "cnonce" then d.(cnonce := x.value)
    else if x.name == "opaque" then d.(cookie := x.value)
    else if x.name == "qop" then d.(qop := x.value)
    else if x.name == "nc" then d.(nc := x.value)
    else d
  }

  const NO_CHALLENGE := DigestChallenge(None, None, None, None, None, None, None)

  const NO_CREDENTIAL := DigestCredential(None, None, None, None, None, None, None, None, None, None)

  /** The loop over the parameters of a digest, each of which is put into the value that is being built. */
  function DigestLoop<T>(put: (T, Param) -> T, d: T, s: string): (r: Parse<T>)
    ensures |r.rest| <= |s|
    decreases |s|
  {
    var (x, t) :- ParseParam(IsToken, SkipWs(s));
    if Starts(t, ',') then DigestLoop(put, put(d, x), t[1..]) else Ok(put(d, x), t)
  }

  function ParseAuth<T>(put: (T, Param) -> T, bare: T, s: string): (r: Parse<Auth<T>>)
    ensures |r.rest| <= |s|
  {
    var (scheme, t) :- ParseParamValue(IsToken, s);
    if scheme == "Digest" then
      var (d, t) :- DigestLoop(put, bare, t);
      Ok(Digest(d), t)
    else
      var (ps, t) :- ParamLoop(IsToken, PutParam, [], SkipWs(t));
      Ok(OtherScheme(scheme, ps), t)
  }

  lemma TailOfTail(a: string, b: string, c: string)
    requires IsTail(a, b) && IsTail(b, c)
    ensures IsTail(a, c)
  {
  }

  lemma Dropped(s: string, n: nat)
    requires n <= |s|
    ensures IsTail(s[n..], s)
  {
  }

  lemma ValueIsTail(p: char -> bool, s: string)
    ensures IsTail(ParseParamValue(p, s).rest, s)
  {
    hide IsTail, ValidUtf8;
    if Starts(s, '"') {
      var n := Span(NotQuote, s[1..]);
      Dropped(s, 1);
      Dropped(s[1..], n);
      TailOfTail(s[1..][n..], s[1..], s);
      if s[1..][n..] != "" {
        Dropped(s[1..][n..], 1);
        TailOfTail(s[1..][n..][1..], s[1..][n..], s);
      }
    } else {
      Dropped(s, Span(p, s));
    }
  }

  lemma BlanksAreSkipped(s: string)
    ensures IsTail(SkipWs(s), s)
  {
  }

  lemma ParamIsTail(p: char -> bool, s: string)
    ensures IsTail(ParseParam(p, s).rest, s)
  {
    hide IsTail, SkipWs, ParseParamValue;
    var u := SkipWs(s);
    var t := u[Span(p, u)..];
    BlanksAreSkipped(s);
    Dropped(u, Span(p, u));
    TailOfTail(t, u, s);
    if Starts(t, '=') {
      Dropped(t, 1);
      TailOfTail(t[1..], t, s);
      ValueIsTail(p, t[1..]);
      TailOfTail(ParseParamValue(p, t[1..]).rest, t[1..], s);
    }
  }

  lemma {:induction false} ParamLoopIsTail<T>(p: char -> bool, put: (T, Param) -> Result<T, Kind>, v: T, s: string)
    ensures IsTail(ParamLoop(p, put, v, s).rest, s)
    decreases |s|
  {
    hide IsTail, SkipWs, ParseParam;
    if Starts(s, ';') {
      var x := ParseParam(p, s[1..]);
      Dropped(s, 1);
      ParamIsTail(p, s[1..]);
      TailOfTail(x.rest, s[1..], s);
      if x.Ok? && put(v, x.value).Success? {
        var w := put(v, x.value).value;
        BlanksAreSkipped(x.rest);
        TailOfTail(SkipWs(x.rest), x.rest, s);
        ParamLoopIsTail(p, put, w, SkipWs(x.rest));
        TailOfTail(ParamLoop(p, put, w, SkipWs(x.rest)).rest, SkipWs(x.rest), s);
      }
    } else {
      Dropped(s, 0);
    }
  }

  lemma {:induction false} DigestLoopIsTail<T>(put: (T, Param) -> T, d: T, s: string)
    ensures IsTail(DigestLoop(put, d, s).rest, s)
    decreases |s|
  {
    hide IsTail, SkipWs, ParseParam;
    var x := ParseParam(IsToken, SkipWs(s));
    BlanksAreSkipped(s);
    ParamIsTail(IsToken, SkipWs(s));
    TailOfTail(x.rest, SkipWs(s), s);
    if x.Ok? && Starts(x.rest, ',') {
      Dropped(x.rest, 1);
      TailOfTail(x.rest[1..], x.rest, s);
      DigestLoopIsTail(put, put(d, x.value), x.rest[1..]);
      TailOfTail(DigestLoop(put, put(d, x.value), x.rest[1..]).rest, x.rest[1..], s);
    }
  }

  lemma AuthIsTail<T>(put: (T, Param) -> T, bare: T, s: string)
    ensures IsTail(ParseAuth(put, bare, s).rest, s)
  {
    hide IsTail, SkipWs, ParseParamValue, DigestLoop, ParamLoop;
    var scheme := ParseParamValue(IsToken, s);
    ValueIsTail(IsToken, s);
    if scheme.Ok? {
      DigestLoopIsTail(put, bare, scheme.rest);
      TailOfTail(DigestLoop(put, bare, scheme.rest).rest, scheme.rest, s);
      BlanksAreSkipped(scheme.rest);
      TailOfTail(SkipWs(scheme.rest), scheme.rest, s);
      ParamLoopIsTail<seq<Param>>(IsToken, PutParam, [], SkipWs(scheme.rest));
      TailOfTail(ParamLoop<seq<Param>>(IsToken, PutParam, [], SkipWs(scheme.rest)).rest, SkipWs(scheme.rest), s);
    }
  }

  /** What a reader makes of the value, told as text. */
  function AsText<T>(read: string -> Parse<T>, text: T -> string): string -> Parse<string> {
    s => var (v, t) :- read(s); Ok(text(v), t)
  }

  function ReadAuth<T>(put: (T, Param) -> T, bare: T): string -> Parse<Auth<T>> { s => ParseAuth(put, bare, s) }

  /** The readers of challenges and credentials only move forward on every text, so they are readers as the header loop has them. */
  lemma AuthIsForward<T>(put: (T, Param) -> T, bare: T, text: Auth<T> -> string)
    ensures Forward(ReadAuth(put, bare)) && Forward(AsText(ReadAuth(put, bare), text))
  {
    hide IsTail, ParseAuth;
    forall s: string ensures IsTail(ReadAuth(put, bare)(s).rest, s) && IsTail(AsText(ReadAuth(put, bare), text)(s).rest, s) {
      AuthIsTail(put, bare, s);
    }
  }
}
