/**
 * What parameters in any order and number make of the value they belong to: the last one of each special name counts, all others
 * are kept in order, and a value that cannot be read is an error.
 */
module ParamMeaning {
  import opened Wrappers
  import opened Text
  import opened Parsing
  import opened Messages
  import opened SipValues
  import opened SipGrammar
  import opened SipReading
  import opened MessageGrammar
  import opened Auth

  /** What the last parameter of that name says, read by `read`; what was there before if there is none. */
  function LastOf<T>(ps: seq<Param>, name: string, read: Option<string> -> T, before: T): T
    decreases |ps|
  {
    if ps == [] then before else LastOf(ps[1..], name, read, if ps[0].name == name then read(ps[0].value) else before)
  }

  /** It is the last one. */
  lemma {:induction false} LastOfIs<T>(ps: seq<Param>, name: string, read: Option<string> -> T, before: T, k: nat)
    requires k < |ps| && ps[k].name == name && forall i :: k < i < |ps| ==> ps[i].name != name
    ensures LastOf(ps, name, read, before) == read(ps[k].value)
    decreases |ps|
  {
    var next := if ps[0].name == name then read(ps[0].value) else before;
    if k == 0 {
      assert forall i :: 0 <= i < |ps[1..]| ==> ps[1..][i] == ps[i + 1];
      LastOfNone(ps[1..], name, read, next);
    } else {
      LastOfIs(ps[1..], name, read, next, k - 1);
    }
  }

  lemma {:induction false} LastOfNone<T>(ps: seq<Param>, name: string, read: Option<string> -> T, before: T)
    requires forall i :: 0 <= i < |ps| ==> ps[i].name != name
    ensures LastOf(ps, name, read, before) == before
    decreases |ps|
  {
    if ps != [] { LastOfNone(ps[1..], name, read, before); }
  }

  /** The parameters whose names are not among these. */
  function Except(ps: seq<Param>, names: set<string>): seq<Param> {
    if ps == [] then [] else (if ps[0].name in names then [] else [ps[0]]) + Except(ps[1..], names)
  }

  function AsIs(v: Option<string>): Option<string> { v }

  function AsMethod(v: Option<string>): Option<Method> { if v.Some? then Some(MethodFrom(v.value)) else None }

  function AsTransport(v: Option<string>): Option<Transport> { if v.Some? then TransportFrom(v.value) else None }

  function AsByte(v: Option<string>): Option<nat> { if v.Some? then ParseUnsigned(v.value, 255) else None }

  function AsHost(v: Option<string>): Option<Host> { if v.Some? then Some(HostFrom(v.value)) else None }

  function AsAddress(v: Option<string>): Option<Ip> { if v.Some? then ParseIp(v.value) else None }

  /** An `rport` without a number is there all the same. */
  function AsRport(v: Option<string>): Option<Option<nat>> {
    if v.None? || v.value == "" then Some(None) else Some(ParseUnsigned(v.value, 0xFFFF))
  }

  function AsFlag(v: Option<string>): bool { true }

  const URI_NAMES := {"user", "method", "transport", "ttl", "lr", "maddr"}

  /** A transport that is not known, or a number that is none. */
  predicate BadInUri(p: Param) {
    p.value.Some? && ((p.name == "transport" && AsTransport(p.value).None?) || (p.name == "ttl" && AsByte(p.value).None?))
  }

  lemma UriParamIs(u: Uri, p: Param)
    ensures SetUriParam(u, p).Failure? <==> BadInUri(p)
    ensures !BadInUri(p) ==>
              var v := SetUriParam(u, p).value;
              && v.userParam == (if p.name == "user" then AsIs(p.value) else u.userParam)
              && v.methodParam == (if p.name == "method" then AsMethod(p.value) else u.methodParam)
              && v.transportParam == (if p.name == "transport" then AsTransport(p.value) else u.transportParam)
              && v.ttlParam == (if p.name == "ttl" then AsByte(p.value) else u.ttlParam)
              && v.lrParam == (if p.name == "lr" then AsFlag(p.value) else u.lrParam)
              && v.maddrParam == (if p.name == "maddr" then AsHost(p.value) else u.maddrParam)
              && v.params == u.params + (if p.name in URI_NAMES then [] else [p])
              && v.scheme == u.scheme && v.user == u.user && v.hostPort == u.hostPort && v.headers == u.headers
  {
    hide MethodFrom, TransportFrom, HostFrom, ParseUnsigned;
  }

  /**
   * The parameters of a URI, in any order: they are refused exactly if a transport is not known or a time to live is no number;
   * else the last one of each special name counts, and the others are kept in their order.
   */
  lemma {:induction false} UriParamsMean(u: Uri, ps: seq<Param>)
    ensures var r := PutAll(SetUriParam, u, ps);
            && (r.Failure? <==> exists i :: 0 <= i < |ps| && BadInUri(ps[i]))
            && (r.Success? ==>
                  var v := r.value;
                  && v.userParam == LastOf(ps, "user", AsIs, u.userParam)
                  && v.methodParam == LastOf(ps, "method", AsMethod, u.methodParam)
                  && v.transportParam == LastOf(ps, "transport", AsTransport, u.transportParam)
                  && v.ttlParam == LastOf(ps, "ttl", AsByte, u.ttlParam)
                  && v.lrParam == LastOf(ps, "lr", AsFlag, u.lrParam)
                  && v.maddrParam == LastOf(ps, "maddr", AsHost, u.maddrParam)
                  && v.params == u.params + Except(ps, URI_NAMES)
                  && v.scheme == u.scheme && v.user == u.user && v.hostPort == u.hostPort && v.headers == u.headers)
    decreases |ps|
  {
    hide SetUriParam, BadInUri, AsMethod, AsTransport, AsByte, AsHost;
    if ps == [] {
      assert u.params + [] == u.params;
    } else {
      UriParamIs(u, ps[0]);
      BadUnfolds(BadInUri, ps);
      if !BadInUri(ps[0]) {
        var w := SetUriParam(u, ps[0]).value;
        UriParamsMean(w, ps[1..]);
        Regroup(u.params, if ps[0].name in URI_NAMES then [] else [ps[0]], Except(ps[1..], URI_NAMES));
      }
    }
  }

  lemma BadUnfolds(bad: Param -> bool, ps: seq<Param>)
    requires ps != []
    ensures (exists i :: 0 <= i < |ps| && bad(ps[i])) <==> bad(ps[0]) || exists i :: 0 <= i < |ps[1..]| && bad(ps[1..][i])
  {
    assert forall i :: 1 <= i < |ps| ==> ps[i] == ps[1..][i - 1];
    assert forall i :: 0 <= i < |ps[1..]| ==> ps[1..][i] == ps[i + 1];
  }

  const VIA_NAMES := {"branch", "ttl", "maddr", "received", "rport"}

  predicate BadInVia(p: Param) {
    p.value.Some? && ((p.name == "ttl" && AsByte(p.value).None?) || (p.name == "received" && AsAddress(p.value).None?)
                      || (p.name == "rport" && p.value.value != "" && ParseUnsigned(p.value.value, 0xFFFF).None?))
  }

  lemma ViaParamIs(v: Via, p: Param)
    ensures SetViaParam(v, p).Failure? <==> BadInVia(p)
    ensures !BadInVia(p) ==>
              var w := SetViaParam(v, p).value;
              && w.branch == (if p.name == "branch" then AsIs(p.value) else v.branch)
              && w.ttl == (if p.name == "ttl" then AsByte(p.value) else v.ttl)
              && w.maddr == (if p.name == "maddr" then AsHost(p.value) else v.maddr)
              && w.received == (if p.name == "received" then AsAddress(p.value) else v.received)
              && w.rport == (if p.name == "rport" then AsRport(p.value) else v.rport)
              && w.params == v.params + (if p.name in VIA_NAMES then [] else [p])
              && w.transport == v.transport && w.sentBy == v.sentBy && w.comment == v.comment
  {
    hide HostFrom, ParseIp, ParseUnsigned;
  }

  /** The same for the parameters of a Via, with the three cases of `rport`. */
  lemma {:induction false} ViaParamsMean(v: Via, ps: seq<Param>)
    ensures var r := PutAll(SetViaParam, v, ps);
            && (r.Failure? <==> exists i :: 0 <= i < |ps| && BadInVia(ps[i]))
            && (r.Success? ==>
                  var w := r.value;
                  && w.branch == LastOf(ps, "branch", AsIs, v.branch)
                  && w.ttl == LastOf(ps, "ttl", AsByte, v.ttl)
                  && w.maddr == LastOf(ps, "maddr", AsHost, v.maddr)
                  && w.received == LastOf(ps, "received", AsAddress, v.received)
                  && w.rport == LastOf(ps, "rport", AsRport, v.rport)
                  && w.params == v.params + Except(ps, VIA_NAMES)
                  && w.transport == v.transport && w.sentBy == v.sentBy && w.comment == v.comment)
    decreases |ps|
  {
    hide SetViaParam, BadInVia, AsByte, AsHost, AsAddress, AsRport;
    if ps == [] {
      assert v.params + [] == v.params;
    } else {
      ViaParamIs(v, ps[0]);
      BadUnfolds(BadInVia, ps);
      if !BadInVia(ps[0]) {
        var w := SetViaParam(v, ps[0]).value;
        ViaParamsMean(w, ps[1..]);
        Regroup(v.params, if ps[0].name in VIA_NAMES then [] else [ps[0]], Except(ps[1..], VIA_NAMES));
      }
    }
  }

  /** The parameters put into a digest one after the other. */
  function PutEach<T>(put: (T, Param) -> T, d: T, ps: seq<Param>): T
    decreases |ps|
  {
    if ps == [] then d else PutEach(put, put(d, ps[0]), ps[1..])
  }

  lemma {:induction false} ChallengeMeans(d: DigestChallenge, ps: seq<Param>)
    ensures PutEach(PutChallenge, d, ps)
         == DigestChallenge(
              LastOf(ps, "realm", AsIs, d.realm), LastOf(ps, "domain", AsIs, d.domain), LastOf(ps, "nonce", AsIs, d.nonce),
              LastOf(ps, "opaque", AsIs, d.cookie), LastOf(ps, "stale", AsIs, d.stale),
              LastOf(ps, "algorithm", AsIs, d.algorithm), LastOf(ps, "qop", AsIs, d.qop))
    decreases |ps|
  {
    if ps != [] { ChallengeMeans(PutChallenge(d, ps[0]), ps[1..]); }
  }

  lemma {:induction false} CredentialMeans(d: DigestCredential, ps: seq<Param>)
    ensures PutEach(PutCredential, d, ps)
         == DigestCredential(
              LastOf(ps, "realm", AsIs, d.realm), LastOf(ps, "username", AsIs, d.username), LastOf(ps, "nonce", AsIs, d.nonce),
              LastOf(ps, "uri", AsIs, d.uri), LastOf(ps, "response", AsIs, d.response),
              LastOf(ps, "algorithm", AsIs, d.algorithm), LastOf(ps, "cnonce", AsIs, d.cnonce),
              LastOf(ps, "opaque", AsIs, d.cookie), LastOf(ps, "qop", AsIs, d.qop), LastOf(ps, "nc", AsIs, d.nc))
    decreases |ps|
  {
    if ps != [] { CredentialMeans(PutCredential(d, ps[0]), ps[1..]); }
  }
}
