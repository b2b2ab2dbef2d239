/** What the transaction layer reads of a SIP message, and the key that assigns it to a transaction. */
module Messages {
  import opened Wrappers

  datatype Method =
    | Invite | Ack | Bye | Cancel | Register | Options | Info | Notify | Subscribe
    | Update | Refer | Prack | MessageMethod | Publish | Unknown

  /** The status codes that `StatusCode` can hold: no other number is ever the status of a parsed response. */
  predicate IsStatusCode(code: nat) {
    || code == 100 || 180 <= code <= 183 || code == 199
    || code == 200 || code == 202 || code == 204
    || 300 <= code <= 302 || code == 305 || code == 380
    || 400 <= code <= 417 || 420 <= code <= 424 || 428 <= code <= 430 || code == 433
    || 436 <= code <= 440 || code == 469 || code == 470 || 480 <= code <= 491 || code == 493 || code == 494
    || 500 <= code <= 505 || code == 513 || code == 555 || code == 580
    || code == 600 || code == 603 || code == 604 || 606 <= code <= 608
  }

  type StatusCode = code: nat | IsStatusCode(code) witness 100

  predicate IsProvisional(code: nat) { 100 <= code <= 199 }

  predicate IsFinal(code: nat) { !IsProvisional(code) }

  /** The range `200..299` that both transactions match on; its upper end is excluded. */
  predicate InSuccessRange(code: nat) { 200 <= code < 299 }

  /** The range `300..699` that creating an ACK asserts; its upper end is excluded. */
  predicate InAckRange(code: nat) { 300 <= code < 699 }

  /** Every final status code is in exactly one of the two half-open ranges. */
  lemma FinalCodeRanges(code: StatusCode)
    requires IsFinal(code)
    ensures InSuccessRange(code) != InAckRange(code)
  {
    assert IsStatusCode(code);
  }

  /** `verb` is the method of the CSeq header, `branch` that of the topmost Via. */
  datatype Message =
    | Request(verb: Method, branch: string)
    | Response(code: StatusCode, verb: Method, branch: string)

  datatype Role = Uac | Uas

  datatype Key = Rfc3261(role: Role, branch: string, verb: Option<Method>)

  function NewKey(role: Role, verb: Method, branch: string): Key {
    Rfc3261(role, branch, if verb.Invite? || verb.Ack? then None else Some(verb))
  }

  /** A request goes to a server transaction, a response to a client transaction. */
  function KeyOf(m: Message): Key {
    NewKey(if m.Request? then Uas else Uac, m.verb, m.branch)
  }

  /** Which messages share a key: same role, same branch, and methods equal or both of INVITE and ACK. */
  lemma SameKey(r1: Role, m1: Method, b1: string, r2: Role, m2: Method, b2: string)
    ensures NewKey(r1, m1, b1) == NewKey(r2, m2, b2)
       <==> r1 == r2 && b1 == b2 && (m1 == m2 || {m1, m2} == {Invite, Ack})
  {
    if {m1, m2} == {Invite, Ack} {
      assert m1 in {Invite, Ack} && m2 in {Invite, Ack};
    }
    if (m1 == Invite && m2 == Ack) || (m1 == Ack && m2 == Invite) {
      assert {m1, m2} == {Invite, Ack};
    }
  }
}
