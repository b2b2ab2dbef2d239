/**
 * The headers that every SIP message must have, the responses and ACKs that are made from them, and why each of those
 * messages reaches the transaction it is meant for.
 */
module Headers {
  import opened Wrappers
  import opened Text
  import opened Messages
  import opened SipValues

  /** The value of a From or a To header. */
  datatype Party = Party(uri: SipUri, tag: Option<string>, params: seq<Param>)

  datatype CSeq = CSeq(number: nat, verb: Method)

  /**
   * Kinds whose values matter here, names that the parser does not know, and all the other kinds: the name of such a header,
   * and what was read for its value, or for each element of it.
   */
  datatype Header =
    | ViaHeader(via: Via) | FromHeader(from: Party) | ToHeader(to: Party) | CallIdHeader(id: string) | CSeqHeader(cseq: CSeq)
    | RecordRoute(addr: NameAddr, params: seq<Param>) | ContentLength(length: nat) | RawHeader(name: string, data: string)
    | OtherHeader(name: string, values: seq<string>)

  datatype FirstLine = StatusLine(code: StatusCode, reason: string) | RequestLine(verb: Method, uri: Uri)

  datatype SipMessage = SipMessage(line: FirstLine, headers: seq<Header>, body: Option<string>)

  datatype Mandatory = Mandatory(via: Via, from: Party, to: Party, callId: string, cseq: CSeq)

  function PartyText(p: Party): string { SipUriText(p.uri) + ParamsText(Optional("tag", p.tag) + p.params) }

  function NameOf(h: Header): string {
    match h
    case ViaHeader(_) => "Via"
    case FromHeader(_) => "From"
    case ToHeader(_) => "To"
    case CallIdHeader(_) => "Call-ID"
    case CSeqHeader(_) => "CSeq"
    case RecordRoute(_, _) => "Record-Route"
    case ContentLength(_) => "Content-Length"
    case RawHeader(name, _) => name
    case OtherHeader(name, _) => name
  }

  function ValueText(h: Header): string {
    match h
    case ViaHeader(v) => ViaText(v)
    case FromHeader(p) => PartyText(p)
    case ToHeader(p) => PartyText(p)
    case CallIdHeader(id) => id
    case CSeqHeader(c) => Decimal(c.number) + (" " + MethodText(c.verb))
    case RecordRoute(addr, ps) => NameAddrText(addr) + ParamsText(ps)
    case ContentLength(n) => Decimal(n)
    case RawHeader(_, data) => data
    case OtherHeader(_, values) => CommaText(values)
  }

  function CommaText(values: seq<string>): string {
    if values == [] then "" else if |values| == 1 then values[0] else values[0] + (", " + CommaText(values[1..]))
  }

  /** `Display` of a header: one line. */
  function HeaderLine(h: Header): string { NameOf(h) + (": " + ValueText(h)) }

  /** The Via headers from the topmost one down. */
  function Vias(hs: seq<Header>): seq<Via> {
    if hs == [] then [] else (if hs[0].ViaHeader? then [hs[0].via] else []) + Vias(hs[1..])
  }

  function Routes(hs: seq<Header>): seq<Header> {
    if hs == [] then [] else (if hs[0].RecordRoute? then [hs[0]] else []) + Routes(hs[1..])
  }

  /** The last header of a kind. */
  function Last<T>(pick: Header -> Option<T>, hs: seq<Header>): Option<T> {
    if hs == [] then None
    else if pick(hs[|hs| - 1]).Some? then pick(hs[|hs| - 1])
    else Last(pick, hs[..|hs| - 1])
  }

  function AsFrom(h: Header): Option<Party> { if h.FromHeader? then Some(h.from) else None }

  function AsTo(h: Header): Option<Party> { if h.ToHeader? then Some(h.to) else None }

  function AsCallId(h: Header): Option<string> { if h.CallIdHeader? then Some(h.id) else None }

  function AsCSeq(h: Header): Option<CSeq> { if h.CSeqHeader? then Some(h.cseq) else None }

  /** The topmost Via and the last of each other mandatory header; or the name of the first one that is missing. */
  function Extract(hs: seq<Header>): Result<Mandatory, string> {
    if Vias(hs) == [] then Failure("Via")
    else if Last(AsFrom, hs).None? then Failure("From")
    else if Last(AsTo, hs).None? then Failure("To")
    else if Last(AsCallId, hs).None? then Failure("Call-ID")
    else if Last(AsCSeq, hs).None? then Failure("CSeq")
    else Success(Mandatory(Vias(hs)[0], Last(AsFrom, hs).value, Last(AsTo, hs).value, Last(AsCallId, hs).value,
                           Last(AsCSeq, hs).value))
  }

  lemma ViasUnfold(hs: seq<Header>)
    ensures Vias(hs) == if hs == [] then [] else (if hs[0].ViaHeader? then [hs[0].via] else []) + Vias(hs[1..])
  {
  }

  lemma {:induction false} ViasConcat(a: seq<Header>, b: seq<Header>)
    ensures Vias(a + b) == Vias(a) + Vias(b)
  {
    hide Vias;
    ViasUnfold(a);
    if a == [] {
      assert a + b == b;
    } else {
      ViasUnfold(a + b);
      assert (a + b)[1..] == a[1..] + b;
      ViasConcat(a[1..], b);
    }
  }

  lemma RoutesUnfold(hs: seq<Header>)
    ensures Routes(hs) == if hs == [] then [] else (if hs[0].RecordRoute? then [hs[0]] else []) + Routes(hs[1..])
  {
  }

  lemma {:induction false} RoutesConcat(a: seq<Header>, b: seq<Header>)
    ensures Routes(a + b) == Routes(a) + Routes(b)
  {
    hide Routes;
    RoutesUnfold(a);
    if a == [] {
      assert a + b == b;
    } else {
      RoutesUnfold(a + b);
      assert (a + b)[1..] == a[1..] + b;
      RoutesConcat(a[1..], b);
    }
  }

  method Required<T>(header: Option<T>, name: string) returns (r: Result<T, string>)
    ensures r == if header.Some? then Success(header.value) else Failure(name)
  {
    r := if header.Some? then Success(header.value) else Failure(name);
  }

  method TryFrom(headers: seq<Header>) returns (r: Result<Mandatory, string>)
    ensures r == Extract(headers)
  {
    var via: Option<Via> := None;
    var cseq: Option<CSeq> := None;
    var from: Option<Party> := None;
    var callId: Option<string> := None;
    var to: Option<Party> := None;
    for i := 0 to |headers|
      invariant via == if Vias(headers[..i]) == [] then None else Some(Vias(headers[..i])[0])
      invariant from == Last(AsFrom, headers[..i]) && to == Last(AsTo, headers[..i])
      invariant callId == Last(AsCallId, headers[..i]) && cseq == Last(AsCSeq, headers[..i])
    {
      assert headers[..i + 1] == headers[..i] + [headers[i]];
      ViasConcat(headers[..i], [headers[i]]);
      match headers[i] {
        case ViaHeader(v) => if via.None? { via := Some(v); }
        case FromHeader(f) => from := Some(f);
        case ToHeader(t) => to := Some(t);
        case CallIdHeader(c) => callId := Some(c);
        case CSeqHeader(c) => cseq := Some(c);
        case _ =>
      }
    }
    assert headers[..|headers|] == headers;
    var theVia :- Required(via, "Via");
    var theFrom :- Required(from, "From");
    var theTo :- Required(to, "To");
    var theCallId :- Required(callId, "Call-ID");
    var theCSeq :- Required(cseq, "CSeq");
    r := Success(Mandatory(theVia, theFrom, theTo, theCallId, theCSeq));
  }

  method IntoHeaders(m: Mandatory) returns (headers: seq<Header>)
    ensures headers == [ViaHeader(m.via), FromHeader(m.from), ToHeader(m.to), CallIdHeader(m.callId), CSeqHeader(m.cseq)]
  {
    headers := [];
    headers := headers + [ViaHeader(m.via)];
    headers := headers + [FromHeader(m.from)];
    headers := headers + [ToHeader(m.to)];
    headers := headers + [CallIdHeader(m.callId)];
    headers := headers + [CSeqHeader(m.cseq)];
  }

  function ViaHeaders(vs: seq<Via>): (hs: seq<Header>)
    ensures |hs| == |vs| && forall i :: 0 <= i < |vs| ==> hs[i] == ViaHeader(vs[i])
  {
    seq(|vs|, i requires 0 <= i < |vs| => ViaHeader(vs[i]))
  }

  function Rest(vs: seq<Via>): seq<Via> { if vs == [] then [] else vs[1..] }

  /** A response other than 100 gets a tag if the request has none: the branch, if there is one. */
  function Tagged(to: Party, code: StatusCode, branch: Option<string>): Party {
    if to.tag.None? && code > 100 then to.(tag := branch) else to
  }

  function ResponseHeaders(request: seq<Header>, m: Mandatory, code: StatusCode): seq<Header> {
    ViaHeaders([m.via] + Rest(Vias(request))) + Routes(request)
    + [CallIdHeader(m.callId), FromHeader(m.from), ToHeader(Tagged(m.to, code, m.via.branch)), CSeqHeader(m.cseq)]
  }

  /** One more header in front of which the topmost Via was skipped, or not. */
  lemma RestGrows(hs: seq<Header>, h: Header)
    ensures Vias(hs + [h]) == Vias(hs) + if h.ViaHeader? then [h.via] else []
    ensures ViaHeaders(Rest(Vias(hs + [h])))
         == ViaHeaders(Rest(Vias(hs))) + if h.ViaHeader? && Vias(hs) != [] then [h] else []
  {
    hide Vias;
    ViasConcat(hs, [h]);
    ViasUnfold([h]);
    assert [h][1..] == [];
    ViasUnfold([]);
  }

  /** The Via headers below the topmost one. */
  method OtherVias(request: seq<Header>) returns (headers: seq<Header>)
    ensures headers == ViaHeaders(Rest(Vias(request)))
  {
    hide Vias, Rest, ViaHeaders;
    NoRest();
    headers := [];
    var skipped := false;
    for i := 0 to |request|
      invariant skipped <==> Vias(request[..i]) != []
      invariant headers == ViaHeaders(Rest(Vias(request[..i])))
    {
      assert request[..i + 1] == request[..i] + [request[i]];
      RestGrows(request[..i], request[i]);
      if request[i].ViaHeader? {
        if skipped { headers := headers + [request[i]]; }
        skipped := true;
      }
    }
    assert request[..|request|] == request;
  }

  lemma NoRest()
    ensures Vias([]) == [] && ViaHeaders(Rest([])) == []
  {
  }

  method RecordRoutes(request: seq<Header>) returns (headers: seq<Header>)
    ensures headers == Routes(request)
  {
    headers := [];
    for i := 0 to |request|
      invariant headers == Routes(request[..i])
    {
      assert request[..i + 1] == request[..i] + [request[i]];
      RoutesConcat(request[..i], [request[i]]);
      if request[i].RecordRoute? { headers := headers + [request[i]]; }
    }
    assert request[..|request|] == request;
  }

  /** `standard` is the reason phrase of each code. */
  method CreateResponse(request: seq<Header>, m: Mandatory, code: StatusCode, reason: Option<string>, standard: StatusCode -> string)
    returns (response: SipMessage)
    ensures response.line == StatusLine(code, if reason.Some? then reason.value else standard(code))
    ensures response.headers == ResponseHeaders(request, m, code) && response.body == None
  {
    var headers := [ViaHeader(m.via)];
    var others := OtherVias(request);
    headers := headers + others;
    assert headers == ViaHeaders([m.via] + Rest(Vias(request)));
    var routes := RecordRoutes(request);
    headers := headers + routes;
    headers := headers + [CallIdHeader(m.callId)];
    headers := headers + [FromHeader(m.from)];
    var to := m.to;
    if to.tag.None? && code > 100 {
      to := to.(tag := m.via.branch);
    }
    headers := headers + [ToHeader(to)];
    headers := headers + [CSeqHeader(m.cseq)];
    response := SipMessage(StatusLine(code, if reason.Some? then reason.value else standard(code)), headers, None);
  }

  /** What the transport keeps of a message: the mandatory headers, the topmost Via with the address it came from. */
  function Arrived(hs: seq<Header>, source: Ip): Result<Mandatory, string> {
    var r := Extract(hs);
    if r.Failure? then r else Success(r.value.(via := r.value.via.(received := Some(source))))
  }

  const COOKIE := "z9hG4bK"

  predicate HasCookie(branch: string) { COOKIE <= branch }

  /** The key of a message; there is none for a message of a predecessor of RFC 3261, which is not implemented. */
  function KeyFrom(m: Mandatory, role: Role): Option<Key> {
    if m.via.branch.Some? && HasCookie(m.via.branch.value) then Some(NewKey(role, m.cseq.verb, m.via.branch.value)) else None
  }

  /** What a client transaction makes of the request it is given, and the branch under which it waits for responses. */
  function Prepared(hs: seq<Header>, own: Via, newBranch: string): (seq<Header>, string)
    requires own.branch.Some?
  {
    var i := FirstVia(hs);
    if i == |hs| then ([ViaHeader(own)] + hs, own.branch.value)
    else if hs[i].via.branch.Some? then (hs, hs[i].via.branch.value)
    else (hs[i := ViaHeader(hs[i].via.(branch := Some(newBranch)))], newBranch)
  }

  function FirstVia(hs: seq<Header>): (i: nat)
    ensures i <= |hs| && (i < |hs| ==> hs[i].ViaHeader?)
    ensures forall j :: 0 <= j < i ==> !hs[j].ViaHeader?
  {
    if hs == [] then 0 else if hs[0].ViaHeader? then 0 else 1 + FirstVia(hs[1..])
  }

  lemma {:induction false} TopmostIsFirst(hs: seq<Header>)
    ensures FirstVia(hs) == |hs| <==> Vias(hs) == []
    ensures FirstVia(hs) < |hs| ==> Vias(hs)[0] == hs[FirstVia(hs)].via
  {
    if hs != [] { TopmostIsFirst(hs[1..]); }
  }

  /** A request of a client transaction carries the branch that the transaction waits under in its topmost Via. */
  lemma PreparedBranch(hs: seq<Header>, own: Via, newBranch: string)
    requires own.branch.Some?
    ensures var (sent, branch) := Prepared(hs, own, newBranch); Vias(sent) != [] && Vias(sent)[0].branch == Some(branch)
  {
    var i := FirstVia(hs);
    TopmostIsFirst(hs);
    if i == |hs| {
      ViasConcat([ViaHeader(own)], hs);
      assert Vias([ViaHeader(own)]) == [own];
    } else if hs[i].via.branch.None? {
      var sent := hs[i := ViaHeader(hs[i].via.(branch := Some(newBranch)))];
      TopmostIsFirst(sent);
      assert sent[i].ViaHeader?;
      assert forall j :: 0 <= j < i ==> sent[j] == hs[j];
    }
  }

  /** The headers that are no Via. */
  function Others(hs: seq<Header>): seq<Header> {
    if hs == [] then [] else (if hs[0].ViaHeader? then [] else [hs[0]]) + Others(hs[1..])
  }

  /**
   * What a client transaction changes in its request: nothing if the topmost Via has a branch; else only that branch; and without
   * any Via it puts its own in front.
   */
  lemma PreparedKeeps(hs: seq<Header>, own: Via, newBranch: string)
    requires own.branch.Some?
    ensures var (sent, branch) := Prepared(hs, own, newBranch);
            if Vias(hs) == [] then sent == [ViaHeader(own)] + hs && Some(branch) == own.branch
            else if Vias(hs)[0].branch.Some? then sent == hs && Some(branch) == Vias(hs)[0].branch
            else
              && branch == newBranch && Others(sent) == Others(hs) && |sent| == |hs|
              && Vias(sent) == [Vias(hs)[0].(branch := Some(newBranch))] + Vias(hs)[1..]
  {
    var i := FirstVia(hs);
    TopmostIsFirst(hs);
    if i < |hs| && hs[i].via.branch.None? { ViaReplaced(hs, hs[i].via.(branch := Some(newBranch))); }
  }

  lemma OthersUnfold(hs: seq<Header>)
    ensures Others(hs) == if hs == [] then [] else (if hs[0].ViaHeader? then [] else [hs[0]]) + Others(hs[1..])
  {
  }

  lemma {:induction false} ViaReplaced(hs: seq<Header>, v: Via)
    requires FirstVia(hs) < |hs|
    ensures var sent := hs[FirstVia(hs) := ViaHeader(v)];
            Others(sent) == Others(hs) && Vias(hs) != [] && Vias(sent) == [v] + Vias(hs)[1..]
  {
    hide Vias, Others;
    var i := FirstVia(hs);
    var sent := hs[i := ViaHeader(v)];
    ViasUnfold(hs);
    ViasUnfold(sent);
    OthersUnfold(hs);
    OthersUnfold(sent);
    if i == 0 {
      assert sent[1..] == hs[1..];
      assert ([hs[0].via] + Vias(hs[1..]))[1..] == Vias(hs[1..]);
    } else {
      ViaReplaced(hs[1..], v);
      assert sent[1..] == hs[1..][i - 1 := ViaHeader(v)];
      assert [] + Vias(sent[1..]) == Vias(sent[1..]) && [] + Vias(hs[1..]) == Vias(hs[1..]);
    }
  }

  lemma {:induction false} ViasOfVias(vs: seq<Via>)
    ensures Vias(ViaHeaders(vs)) == vs
  {
    if vs != [] {
      assert ViaHeaders(vs)[1..] == ViaHeaders(vs[1..]);
      ViasOfVias(vs[1..]);
    }
  }

  lemma {:induction false} NoViasIn(hs: seq<Header>)
    requires forall h :: h in hs ==> !h.ViaHeader?
    ensures Vias(hs) == []
  {
    if hs != [] {
      assert hs[0] in hs;
      NoViasIn(hs[1..]);
    }
  }

  lemma {:induction false} OnlyRoutes(hs: seq<Header>)
    ensures forall h :: h in Routes(hs) ==> h.RecordRoute?
  {
    if hs != [] { OnlyRoutes(hs[1..]); }
  }

  lemma {:induction false} RoutesOfRoutes(hs: seq<Header>)
    ensures Routes(Routes(hs)) == Routes(hs)
  {
    if hs != [] {
      RoutesOfRoutes(hs[1..]);
      if hs[0].RecordRoute? { assert Routes(hs)[1..] == Routes(hs[1..]); } else { assert Routes(hs) == Routes(hs[1..]); }
    }
  }

  lemma {:induction false} NoRoutesIn(hs: seq<Header>)
    requires forall h :: h in hs ==> !h.RecordRoute?
    ensures Routes(hs) == []
  {
    if hs != [] {
      assert hs[0] in hs;
      NoRoutesIn(hs[1..]);
    }
  }

  /** The four headers at the end of a response. */
  function Closing(m: Mandatory, code: StatusCode): seq<Header> {
    [CallIdHeader(m.callId), FromHeader(m.from), ToHeader(Tagged(m.to, code, m.via.branch)), CSeqHeader(m.cseq)]
  }

  lemma ResponseVias(request: seq<Header>, m: Mandatory, code: StatusCode)
    ensures Vias(ResponseHeaders(request, m, code)) == [m.via] + Rest(Vias(request))
  {
    var vias := [m.via] + Rest(Vias(request));
    ViasOfVias(vias);
    OnlyRoutes(request);
    NoViasIn(Routes(request));
    NoViasIn(Closing(m, code));
    hide Vias, Routes, Rest;
    ViasConcat(ViaHeaders(vias) + Routes(request), Closing(m, code));
    ViasConcat(ViaHeaders(vias), Routes(request));
  }

  lemma ResponseRoutes(request: seq<Header>, m: Mandatory, code: StatusCode)
    ensures Routes(ResponseHeaders(request, m, code)) == Routes(request)
  {
    var vias := [m.via] + Rest(Vias(request));
    NoRoutesIn(Closing(m, code));
    NoRoutesIn(ViaHeaders(vias));
    RoutesOfRoutes(request);
    hide Vias, Routes, Rest;
    RoutesConcat(ViaHeaders(vias) + Routes(request), Closing(m, code));
    RoutesConcat(ViaHeaders(vias), Routes(request));
  }

  lemma ResponseEnds(request: seq<Header>, m: Mandatory, code: StatusCode)
    requires Vias(request) != []
    ensures var hs := ResponseHeaders(request, m, code);
            && |hs| == |Vias(request)| + |Routes(request)| + 4 && hs[|hs| - 4..] == Closing(m, code)
            && |Closing(m, code)| == 4 && Closing(m, code)[0] == CallIdHeader(m.callId) && Closing(m, code)[1] == FromHeader(m.from)
            && Closing(m, code)[2] == ToHeader(Tagged(m.to, code, m.via.branch)) && Closing(m, code)[3] == CSeqHeader(m.cseq)
  {
    hide Vias, Routes, Tagged;
    assert ResponseHeaders(request, m, code) == ViaHeaders([m.via] + Rest(Vias(request))) + Routes(request) + Closing(m, code);
  }

  /**
   * A response repeats the Via headers of the request in their order, the topmost one with the address the request came
   * from, and its Record-Route headers; its other mandatory headers are those of the request, but for the tag of the To.
   */
  lemma ResponseCopies(request: seq<Header>, source: Ip, code: StatusCode)
    requires Extract(request).Success?
    ensures var m := Arrived(request, source).value;
            var hs := ResponseHeaders(request, m, code);
            Vias(hs) == [Vias(request)[0].(received := Some(source))] + Vias(request)[1..]
            && Routes(hs) == Routes(request)
            && Extract(hs) == Success(m.(to := Tagged(m.to, code, m.via.branch)))
            && |hs| == |Vias(request)| + |Routes(request)| + 4
  {
    var m := Arrived(request, source).value;
    assert Vias(request) != [] && m.via == Vias(request)[0].(received := Some(source)) by { hide Vias, Last; }
    hide Extract, Vias, Routes, ResponseHeaders, Tagged;
    ResponseVias(request, m, code);
    ResponseRoutes(request, m, code);
    ResponseEnds(request, m, code);
    ResponseReads(request, m, code);
  }

  lemma ResponseReads(request: seq<Header>, m: Mandatory, code: StatusCode)
    requires Vias(request) != []
    ensures Extract(ResponseHeaders(request, m, code)) == Success(m.(to := Tagged(m.to, code, m.via.branch)))
  {
    var hs := ResponseHeaders(request, m, code);
    ResponseEnds(request, m, code);
    hide Extract, Vias, Routes, Last, ResponseHeaders, Closing, Tagged, Rest;
    ResponseVias(request, m, code);
    LastInTail(hs, Closing(m, code));
    ExtractIs(hs, m.(to := Tagged(m.to, code, m.via.branch)));
  }

  lemma ExtractIs(hs: seq<Header>, m: Mandatory)
    requires Vias(hs) != [] && Vias(hs)[0] == m.via
    requires Last(AsFrom, hs) == Some(m.from) && Last(AsTo, hs) == Some(m.to)
    requires Last(AsCallId, hs) == Some(m.callId) && Last(AsCSeq, hs) == Some(m.cseq)
    ensures Extract(hs) == Success(m)
  {
    hide Vias, Last;
  }

  lemma LastInTail(hs: seq<Header>, last: seq<Header>)
    requires |last| == 4 <= |hs| && hs[|hs| - 4..] == last
    requires last[0].CallIdHeader? && last[1].FromHeader? && last[2].ToHeader? && last[3].CSeqHeader?
    ensures Last(AsCSeq, hs) == Some(last[3].cseq) && Last(AsTo, hs) == Some(last[2].to)
    ensures Last(AsFrom, hs) == Some(last[1].from) && Last(AsCallId, hs) == Some(last[0].id)
  {
    hide Last;
    var front := hs[..|hs| - 4];
    FourSplit(hs, last);
    LastPush(front, last[0]);
    LastPush(front + [last[0]], last[1]);
    LastPush(front + [last[0]] + [last[1]], last[2]);
    LastPush(front + [last[0]] + [last[1]] + [last[2]], last[3]);
  }

  lemma FourSplit<T>(xs: seq<T>, last: seq<T>)
    requires |last| == 4 <= |xs| && xs[|xs| - 4..] == last
    ensures xs[..|xs| - 4] + [last[0]] + [last[1]] + [last[2]] + [last[3]] == xs
  {
    var front := xs[..|xs| - 4];
    assert last == [last[0]] + [last[1]] + [last[2]] + [last[3]];
    assert xs == front + last;
  }

  lemma LastPush(hs: seq<Header>, h: Header)
    ensures Last(AsCSeq, hs + [h]) == if h.CSeqHeader? then Some(h.cseq) else Last(AsCSeq, hs)
    ensures Last(AsTo, hs + [h]) == if h.ToHeader? then Some(h.to) else Last(AsTo, hs)
    ensures Last(AsFrom, hs + [h]) == if h.FromHeader? then Some(h.from) else Last(AsFrom, hs)
    ensures Last(AsCallId, hs + [h]) == if h.CallIdHeader? then Some(h.id) else Last(AsCallId, hs)
  {
    hide Last;
    LastSkips(hs + [h], h);
    assert (hs + [h])[..|hs|] == hs;
  }

  /** The last header of each kind, when the very last header is `h`. */
  lemma LastSkips(hs: seq<Header>, h: Header)
    requires hs != [] && hs[|hs| - 1] == h
    ensures Last(AsCSeq, hs) == if h.CSeqHeader? then Some(h.cseq) else Last(AsCSeq, hs[..|hs| - 1])
    ensures Last(AsTo, hs) == if h.ToHeader? then Some(h.to) else Last(AsTo, hs[..|hs| - 1])
    ensures Last(AsFrom, hs) == if h.FromHeader? then Some(h.from) else Last(AsFrom, hs[..|hs| - 1])
    ensures Last(AsCallId, hs) == if h.CallIdHeader? then Some(h.id) else Last(AsCallId, hs[..|hs| - 1])
  {
  }

  /** A response has a To tag exactly if the request had one, or it is no 100 and the topmost Via of the request has a branch. */
  lemma ResponsesAreTagged(request: seq<Header>, source: Ip, code: StatusCode)
    requires Extract(request).Success?
    ensures var r := Extract(ResponseHeaders(request, Arrived(request, source).value, code));
            r.Success?
            && (r.value.to.tag.Some? <==>
                  Extract(request).value.to.tag.Some? || (code > 100 && Vias(request)[0].branch.Some?))
            && (r.value.to.tag.Some? ==>
                  r.value.to.tag == if Extract(request).value.to.tag.Some? then Extract(request).value.to.tag else Vias(request)[0].branch)
  {
    assert Extract(request).value.via == Vias(request)[0];
    hide Vias, Last, Routes, ResponseHeaders, Extract;
    ResponseCopies(request, source, code);
  }

  /**
   * The request of a client transaction and the response to it: the response carries the key that the client registered
   * exactly if the branch has the cookie, without which no key can be made. `seen` and `back` are the addresses that the two
   * transports stamp on the topmost Via.
   */
  lemma ResponseFindsClient(request: seq<Header>, own: Via, newBranch: string, seen: Ip, back: Ip, code: StatusCode)
    requires own.branch.Some?
    requires var (sent, _) := Prepared(request, own, newBranch); Extract(sent).Success?
    ensures var (sent, branch) := Prepared(request, own, newBranch);
            var server := Arrived(sent, seen).value;
            var client := Arrived(ResponseHeaders(sent, server, code), back);
            client.Success?
            && (KeyFrom(client.value, Uac) == Some(NewKey(Uac, server.cseq.verb, branch)) <==> "z9hG4bK" <= branch)
  {
    var (sent, branch) := Prepared(request, own, newBranch);
    PreparedBranch(request, own, newBranch);
    ResponseCopies(sent, seen, code);
  }

  function AckOf(m: Mandatory): Mandatory { m.(cseq := CSeq(m.cseq.number, Ack)) }

  function AckMessage(target: Uri, response: Mandatory): SipMessage {
    SipMessage(RequestLine(Ack, target), MandatoryHeaders(AckOf(response)), None)
  }

  function MandatoryHeaders(m: Mandatory): seq<Header> {
    [ViaHeader(m.via), FromHeader(m.from), ToHeader(m.to), CallIdHeader(m.callId), CSeqHeader(m.cseq)]
  }

  lemma ExtractMandatory(m: Mandatory)
    ensures Extract(MandatoryHeaders(m)) == Success(m)
  {
    var hs := MandatoryHeaders(m);
    assert Vias(hs) == [m.via] + Vias(hs[1..]);
    NoViasIn(hs[1..]);
    LastSkips(hs, hs[4]);
    LastSkips(hs[..4], hs[3]);
    LastSkips(hs[..3], hs[2]);
    LastSkips(hs[..2], hs[1]);
    assert hs[..4][..3] == hs[..3] && hs[..3][..2] == hs[..2];
    hide Last;
  }

  /** An ACK has the Via, From, To and Call-ID of the response, and the number of its CSeq under its own method; and no more. */
  lemma AckCopies(target: Uri, response: Mandatory)
    ensures var ack := AckMessage(target, response);
            var r := Extract(ack.headers);
            && ack.line == RequestLine(Ack, target) && ack.body == None && |ack.headers| == 5 && r.Success?
            && r.value.via == response.via && r.value.from == response.from && r.value.to == response.to
            && r.value.callId == response.callId && r.value.cseq.number == response.cseq.number && r.value.cseq.verb == Ack
  {
    hide Extract;
    ExtractMandatory(AckOf(response));
  }

  /** Which header is reported when one is missing: the first of these that is not there. */
  lemma MissingIsNamed(hs: seq<Header>)
    ensures Extract(hs) == Failure("Via") <==> forall h :: h in hs ==> !h.ViaHeader?
    ensures Extract(hs) == Failure("From") <==> (exists h :: h in hs && h.ViaHeader?) && forall h :: h in hs ==> !h.FromHeader?
    ensures Extract(hs) == Failure("To")
       <==> (exists h :: h in hs && h.ViaHeader?) && (exists h :: h in hs && h.FromHeader?) && forall h :: h in hs ==> !h.ToHeader?
    ensures Extract(hs) == Failure("Call-ID")
       <==> (exists h :: h in hs && h.ViaHeader?) && (exists h :: h in hs && h.FromHeader?) && (exists h :: h in hs && h.ToHeader?)
            && forall h :: h in hs ==> !h.CallIdHeader?
    ensures Extract(hs) == Failure("CSeq")
       <==> (exists h :: h in hs && h.ViaHeader?) && (exists h :: h in hs && h.FromHeader?) && (exists h :: h in hs && h.ToHeader?)
            && (exists h :: h in hs && h.CallIdHeader?) && forall h :: h in hs ==> !h.CSeqHeader?
  {
    hide Vias, Last;
    NoVias(hs);
    NoLast(AsFrom, hs);
    NoLast(AsTo, hs);
    NoLast(AsCallId, hs);
    NoLast(AsCSeq, hs);
  }

  lemma {:induction false} NoVias(hs: seq<Header>)
    ensures Vias(hs) == [] <==> forall h :: h in hs ==> !h.ViaHeader?
  {
    if hs != [] {
      NoVias(hs[1..]);
      assert hs == [hs[0]] + hs[1..];
    }
  }

  lemma {:induction false} NoLast<T>(pick: Header -> Option<T>, hs: seq<Header>)
    ensures Last(pick, hs).None? <==> forall h :: h in hs ==> pick(h).None?
  {
    if hs != [] {
      NoLast(pick, hs[..|hs| - 1]);
      assert hs == hs[..|hs| - 1] + [hs[|hs| - 1]];
    }
  }

  lemma KeyOfMandatory(m: Mandatory, source: Ip, role: Role)
    ensures var r := Arrived(MandatoryHeaders(m), source);
            r.Success? && KeyFrom(r.value, role) == KeyFrom(m, role)
  {
    hide MandatoryHeaders, Extract;
    ExtractMandatory(m);
  }

  /**
   * A whole INVITE: the ACK that the client makes from the headers of the response reaches the server transaction of the
   * INVITE, while a CANCEL with the same branch reaches neither that transaction nor the client's.
   */
  lemma AckFindsInvite(invite: seq<Header>, seen: Ip, back: Ip, again: Ip, code: StatusCode)
    requires Extract(invite).Success? && Extract(invite).value.cseq.verb == Invite
    requires Vias(invite)[0].branch.Some? && HasCookie(Vias(invite)[0].branch.value)
    ensures var server := Arrived(invite, seen).value;
            var r := Arrived(ResponseHeaders(invite, server, code), back);
            r.Success?
            && var client := r.value;
               var ack := Arrived(MandatoryHeaders(AckOf(client)), again);
               var cancel := Arrived(MandatoryHeaders(server.(cseq := CSeq(server.cseq.number, Cancel))), again);
               ack.Success? && cancel.Success?
               && KeyFrom(ack.value, Uas).Some? && KeyFrom(ack.value, Uas) == KeyFrom(server, Uas)
               && KeyFrom(cancel.value, Uas) !in {KeyFrom(server, Uas), KeyFrom(client, Uac)}
  {
    assert Extract(invite).value.via == Vias(invite)[0];
    hide Vias, Routes, Last, ResponseHeaders, MandatoryHeaders, Extract, HasCookie, NewKey;
    var server, branch := Arrived(invite, seen).value, Vias(invite)[0].branch.value;
    ResponseCopies(invite, seen, code);
    var client := Arrived(ResponseHeaders(invite, server, code), back).value;
    SameKey(Uas, Ack, branch, Uas, Invite, branch);
    SameKey(Uas, Cancel, branch, Uas, Invite, branch);
    SameKey(Uas, Cancel, branch, Uac, Invite, branch);
    KeyOfMandatory(AckOf(client), again, Uas);
    KeyOfMandatory(server.(cseq := CSeq(server.cseq.number, Cancel)), again, Uas);
  }

  /**
   * `target` is the URI of the request that was sent. The range assertion of the source is this precondition; that no run
   * breaks it is proved of the client transaction.
   */
  method CreateAck(target: Uri, code: StatusCode, response: Mandatory) returns (ack: SipMessage)
    requires InAckRange(code)
    ensures ack == AckMessage(target, response)
  {
    var headers := IntoHeaders(AckOf(response));
    ack := SipMessage(RequestLine(Ack, target), headers, None);
  }

  /** The table of transactions; `E` stands for the sending end of a transaction's queue. */
  class TsxPlugin<E> {
    var transactions: map<Key, E>

    constructor ()
      ensures transactions == map[]
    {
      transactions := map[];
    }

    method AddTransaction(key: Key, entry: E)
      modifies this
      ensures transactions == old(transactions)[key := entry]
    {
      transactions := transactions[key := entry];
    }

    method RemoveTransaction(key: Key)
      modifies this
      ensures transactions == old(transactions) - {key}
    {
      transactions := transactions - {key};
    }

    /** The queue that a message goes to. */
    method GetEntry(m: Mandatory, role: Role) returns (entry: Option<E>)
      requires KeyFrom(m, role).Some?
      ensures entry.Some? <==> KeyFrom(m, role).value in transactions
      ensures entry.Some? ==> entry.value == transactions[KeyFrom(m, role).value]
    {
      var key := KeyFrom(m, role).value;
      entry := if key in transactions then Some(transactions[key]) else None;
    }
  }
}
