/** A channel's receiving end on a virtual clock, and the receiver with one place of lookahead built on it. */
module Channels {
  import opened Wrappers

  /** How a wait ends: with a value, at its time limit, or never. */
  datatype Awaited<+T> = Ready(value: T) | Elapsed | Never

  datatype Arrival<+T> = Arrival(at: nat, msg: T)

  function Payloads<T>(arrivals: seq<Arrival<T>>): (ms: seq<T>)
    ensures |ms| == |arrivals|
    ensures forall i :: 0 <= i < |arrivals| ==> ms[i] == arrivals[i].msg
  {
    seq(|arrivals|, i requires 0 <= i < |arrivals| => arrivals[i].msg)
  }

  /** The message that `rx` starts with was there, or came, no later than the wait could last. */
  predicate InTime<T>(rx: seq<Arrival<T>>, now: nat, limit: Option<nat>) {
    rx != [] && (limit.None? || rx[0].at <= Max(now, limit.value))
  }

  /** When a loop that began at `start` has taken the first k messages, each as soon as it was there. */
  function Latest<T>(start: nat, rx: seq<Arrival<T>>, k: nat): nat
    requires k <= |rx|
  {
    if k == 0 then start else Max(Latest(start, rx, k - 1), rx[k - 1].at)
  }

  /** These moments for the first n messages. */
  function Latests<T>(start: nat, rx: seq<Arrival<T>>, n: nat): (ts: seq<nat>)
    requires n <= |rx|
    ensures |ts| == n && forall i :: 0 <= i < n ==> ts[i] == Latest(start, rx, i + 1)
  {
    seq(n, i requires 0 <= i < n => Latest(start, rx, i + 1))
  }

  lemma LatestsMore<T>(start: nat, rx: seq<Arrival<T>>, n: nat)
    requires n < |rx|
    ensures Latests(start, rx, n + 1) == Latests(start, rx, n) + [Max(Latest(start, rx, n), rx[n].at)]
    ensures Latest(start, rx, n + 1) == Max(Latest(start, rx, n), rx[n].at) && Latest(start, rx, 0) == start
  {
  }

  /**
   * The receiving end of an mpsc channel. `rx` lists what will still come out of it, with the times at which it
   * is sent; `closed` says that every sender will be gone after the last of these. A wait that is over its limit
   * takes a message that is there already, because the timeout looks at the receiver before it looks at the clock.
   */
  class Receiver<T> {
    var rx: seq<Arrival<T>>
    var closed: bool

    constructor (rx: seq<Arrival<T>>, closed: bool)
      ensures this.rx == rx && this.closed == closed
    {
      this.rx := rx;
      this.closed := closed;
    }

    method Recv(now: nat, limit: Option<nat>) returns (r: Awaited<Option<T>>, later: nat)
      modifies this
      ensures closed == old(closed)
      ensures match r
              case Ready(Some(m)) =>
                && InTime(old(rx), now, limit)
                && m == old(rx)[0].msg && rx == old(rx)[1..] && later == Max(now, old(rx)[0].at)
              case Ready(None) => rx == old(rx) == [] && closed && later == now
              case Elapsed =>
                && !InTime(old(rx), now, limit) && (rx == [] ==> !closed)
                && limit.Some? && rx == old(rx) && later == Max(now, limit.value)
              case Never => limit.None? && rx == old(rx) == [] && !closed && later == now
    {
      if rx != [] && (limit.None? || rx[0].at <= Max(now, limit.value)) {
        r, later := Ready(Some(rx[0].msg)), Max(now, rx[0].at);
        rx := rx[1..];
      } else if rx == [] && closed {
        r, later := Ready(None), now;
      } else if limit.Some? {
        r, later := Elapsed, Max(now, limit.value);
      } else {
        r, later := Never, now;
      }
    }
  }

  class PeekableReceiver<T> {
    const rx: Receiver<T>
    var peeked: Option<T>

    constructor (rx: Receiver<T>)
      ensures this.rx == rx && peeked == None
    {
      this.rx := rx;
      this.peeked := None;
    }

    /** Everything that can still be received, in the order in which it will be. */
    ghost function Contents(): seq<T>
      reads this, rx
    {
      (if peeked.Some? then [peeked.value] else []) + Payloads(rx.rx)
    }

    /** The message that will be received next. */
    ghost function Front(): Option<T>
      reads this, rx
    {
      if peeked.Some? then peeked else if rx.rx != [] then Some(rx.rx[0].msg) else None
    }

    method Recv(now: nat, limit: Option<nat>) returns (r: Awaited<Option<T>>, later: nat)
      modifies this, rx
      ensures rx.closed == old(rx.closed) && later >= now
      ensures match r
              case Ready(Some(m)) => Some(m) == old(Front()) && old(Contents()) == [m] + Contents() && peeked == None
              case Ready(None) => old(Contents()) == Contents() == [] && rx.closed
              case Elapsed => Contents() == old(Contents()) && limit.Some? && later == Max(now, limit.value)
              case Never => Contents() == old(Contents()) == [] && limit.None?
      ensures old(peeked).Some? ==> r == Ready(old(peeked)) && later == now && rx.rx == old(rx.rx)
      ensures old(peeked).None? && old(InTime(rx.rx, now, limit)) ==>
                r == Ready(Some(old(rx.rx)[0].msg)) && later == Max(now, old(rx.rx)[0].at) && rx.rx == old(rx.rx)[1..]
      ensures old(peeked).None? && !old(InTime(rx.rx, now, limit)) ==>
                (r.Ready? ==> r == Ready(None)) && rx.rx == old(rx.rx) && peeked == None
    {
      if peeked.Some? {
        r, later := Ready(peeked), now;
        peeked := None;
      } else {
        r, later := rx.Recv(now, limit);
      }
    }

    /** Looks at the next message, waiting for it if need be; nothing leaves the receiver. */
    method Peek(now: nat, limit: Option<nat>) returns (r: Awaited<Option<T>>, later: nat)
      modifies this, rx
      ensures rx.closed == old(rx.closed) && later >= now
      ensures Contents() == old(Contents())
      ensures match r
              case Ready(Some(m)) => peeked == Some(m)
              case Ready(None) => peeked == None && Contents() == [] && rx.closed
              case Elapsed => peeked == None && limit.Some? && later == Max(now, limit.value) && rx.rx == old(rx.rx)
              case Never => peeked == None && limit.None? && Contents() == []
      ensures old(peeked).Some? ==> r == Ready(old(peeked)) && later == now && rx.rx == old(rx.rx)
      ensures old(peeked).None? && old(InTime(rx.rx, now, limit)) ==>
                r == Ready(Some(old(rx.rx)[0].msg)) && later == Max(now, old(rx.rx)[0].at) && rx.rx == old(rx.rx)[1..]
      ensures old(peeked).None? && !old(InTime(rx.rx, now, limit)) ==>
                (r.Ready? ==> r == Ready(None)) && rx.rx == old(rx.rx)
    {
      if peeked.None? {
        r, later := rx.Recv(now, limit);
        if r.Ready? {
          peeked := r.value;
        }
      } else {
        r, later := Ready(peeked), now;
      }
    }

    /** Takes the next message if it satisfies `cond`; one that does not stays where it is. */
    method RecvIf(cond: T -> bool, now: nat, limit: Option<nat>) returns (r: Awaited<Option<T>>, later: nat)
      modifies this, rx
      ensures rx.closed == old(rx.closed) && later >= now
      ensures match r
              case Ready(Some(m)) =>
                Some(m) == old(Front()) && cond(m) && old(Contents()) == [m] + Contents() && peeked == None
              case Ready(None) =>
                && Contents() == old(Contents()) && peeked == old(Front())
                && (if peeked.Some? then !cond(peeked.value) else rx.closed)
              case Elapsed =>
                && Contents() == old(Contents()) && peeked == None && limit.Some?
                && later == Max(now, limit.value) && rx.rx == old(rx.rx)
              case Never => Contents() == old(Contents()) == [] && limit.None? && peeked == None
      ensures old(peeked).Some? ==> r.Ready? && later == now && rx.rx == old(rx.rx)
      ensures old(peeked).None? && old(InTime(rx.rx, now, limit)) ==>
                r.Ready? && later == Max(now, old(rx.rx)[0].at) && rx.rx == old(rx.rx)[1..]
      ensures old(peeked).None? && !old(InTime(rx.rx, now, limit)) ==>
                (r.Ready? ==> r == Ready(None)) && rx.rx == old(rx.rx)
    {
      r, later := Peek(now, limit);
      if r.Ready? && r.value.Some? {
        if cond(r.value.value) {
          peeked := None;
        } else {
          r := Ready(None);
        }
      }
    }
  }
}
