/**
 * The client transaction with its fields and its clock. What will arrive on its channel, and when, is fixed in the
 * channel, so that a method that waits runs to the end of the wait; the ghost `history` is the run of `ClientMachine`
 * that the object has made, and `Valid` keeps the object in step with it. Sending is appending to `wire`.
 */
module ClientTransactions {
  import opened Wrappers
  import opened Timers
  import opened Fsm
  import opened Messages
  import opened Channels
  import M = ClientMachine

  /** How a wait for a response ends. `Hanging`: no message ever comes and no timer runs. */
  datatype Outcome = Got(msg: Message) | Nothing | TimedOut | Hanging

  /** What a wait takes out of the channel. */
  function TakenBy(r: Outcome): seq<Message> { if r.Got? then [r.msg] else [] }

  /** The clock, and the channel with what it holds and what is in front. */
  datatype View = View(
    now: nat, peeked: Option<Message>, rx: seq<Arrival<Message>>, contents: seq<Message>, front: Option<Message>)
  {
    /** Nothing that is still in the channel was sent by the time `t`. */
    predicate NothingBy(t: nat) { peeked.None? && (rx != [] ==> rx[0].at > t) }
  }

  /** A message was there already, or came within the limit, and the wait ended when it came. */
  predicate Came(a: View, b: View, limit: Option<nat>) {
    if a.peeked.Some? then b.now == a.now && b.rx == a.rx
    else InTime(a.rx, a.now, limit) && b.now == Max(a.now, a.rx[0].at) && b.rx == a.rx[1..]
  }

  /** How a wait ended that led from `a` to `b`: only a match leaves the channel, and a limit that runs out takes nothing. */
  predicate EndOfWait(r: Outcome, pred: nat -> bool, a: View, b: View, limit: Option<nat>) {
    && a.contents == TakenBy(r) + b.contents
    && match r
       case Got(m) => Came(a, b, limit) && Some(m) == a.front && m.Response? && pred(m.code) && b.peeked == None
       case Nothing =>
         Came(a, b, limit) && b.peeked.Some? && b.peeked == a.front && !(b.peeked.value.Response? && pred(b.peeked.value.code))
       case TimedOut => limit.Some? && b == a.(now := Max(a.now, limit.value)) && b.NothingBy(b.now)
       case Hanging => limit.None? && b == a && a.peeked == None && a.rx == [] && a.contents == []
  }

  /** Of a wait that begins at `start` and ends at `now` after n retransmissions: all in time, and the next not due yet. */
  predicate OnSchedule(start: nat, n: nat, now: nat, timedOut: bool, timeout: nat) {
    && n <= 6 && start + Backoff(n) <= Max(start, timeout)
    && (if timedOut then now < start + Backoff(n + 1) else start + Backoff(n) <= now <= start + Backoff(n + 1))
  }

  /** One more interval of a wait: how long it is, when it is over, and whether the wait is over first. */
  lemma NextInterval(start: nat, n: nat, created: nat, timeout: nat)
    requires created <= start && timeout == created + 64 * T1 && start + Backoff(n) <= Max(start, timeout)
    ensures var now := start + Backoff(n);
            var fires, end := now + T1 * Pow2(n), Max(start, timeout);
            && fires == start + Backoff(n + 1) && T1 * Pow2(n + 1) == T1 * Pow2(n) * 2 && fires > now && Max(now, timeout) == end
            && (forall t: nat :: now <= t <= fires ==> OnSchedule(start, n, t, false, timeout))
            && (end < fires ==> OnSchedule(start, n, end, true, timeout))
  {
    BackoffNext(n);
    if n > 0 { SixFit(created, start, n); }
  }

  lemma EndMeans(r: Outcome, pred: nat -> bool, a: View, b: View, limit: Option<nat>)
    requires EndOfWait(r, pred, a, b, limit)
    ensures r.Got? || r.Nothing? ==> a.front.Some?
    ensures r.TimedOut? || r.Hanging? ==> a.peeked == None
    ensures b.now >= a.now && (r.TimedOut? ==> limit.Some?) && (r.Hanging? ==> limit.None?)
  {
  }

  lemma ProvisionalEnd(r: Outcome, a: View, b: View, limit: Option<nat>)
    requires EndOfWait(r, IsProvisional, a, b, limit)
    ensures r.Got? ==> a.front == Some(r.msg) && M.IsEarly(r.msg) && b.peeked.None?
    ensures r.Nothing? ==> a.front.Some? && b.peeked == a.front && !M.IsEarly(a.front.value)
    ensures r.TimedOut? || r.Hanging? ==> b.peeked.None?
  {
  }

  lemma FinalEnd(r: Outcome, a: View, b: View, limit: Option<nat>)
    requires EndOfWait(r, IsFinal, a, b, limit)
    ensures r.Got? ==> a.front == Some(r.msg) && r.msg.Response? && IsFinal(r.msg.code) && b.peeked.None?
    ensures r.Nothing? ==> a.front.Some? && b.peeked == a.front && !(a.front.value.Response? && IsFinal(a.front.value.code))
    ensures r.TimedOut? || r.Hanging? ==> a.peeked.None? && b.peeked.None?
    ensures r.Hanging? ==> limit.None?
  {
  }

  /** A wait of which some time had passed before the message came. */
  lemma LongerWait(r: Outcome, pred: nat -> bool, a: View, t: nat, b: View, limit: nat, timeout: nat)
    requires EndOfWait(r, pred, a.(now := t), b, Some(limit)) && (r.Got? || r.Nothing?)
    requires a.now <= t && (a.now < t ==> a.NothingBy(t)) && Max(t, limit) <= Max(a.now, timeout)
    ensures EndOfWait(r, pred, a, b, Some(timeout))
  {
  }

  lemma WaitTimesOut(pred: nat -> bool, a: View, b: View, timeout: nat)
    requires b == a.(now := b.now) && b.now == Max(a.now, timeout) && b.NothingBy(b.now)
    ensures EndOfWait(TimedOut, pred, a, b, Some(timeout))
  {
    assert a.contents == [] + b.contents;
  }

  /** The times of the first n retransmissions of a wait that starts at `t`: the k-th at t + T1 * (2^k - 1). */
  function Moments(t: nat, n: nat): (ts: seq<nat>)
    ensures |ts| == n
  {
    if n == 0 then [] else Moments(t, n - 1) + [t + Backoff(n)]
  }

  /** A request that is never answered is sent again six times, at these moments, before its transaction times out. */
  lemma UnansweredRequest(created: nat, n: nat)
    requires OnSchedule(created, n, created + 64 * T1, true, created + 64 * T1)
    ensures Moments(created, n)
         == [created + 500, created + 1500, created + 3500, created + 7500, created + 15500, created + 31500]
  {
    assert Pow2(0) == 1 && Pow2(1) == 2 && Pow2(2) == 4 && Pow2(3) == 8;
    assert Pow2(4) == 16 && Pow2(5) == 32 && Pow2(6) == 64;
    if n < 6 { Pow2Monotone(n + 1, 6); }
    assert n == 6;
    assert Backoff(1) == 500 && Backoff(2) == 1500 && Backoff(3) == 3500;
    assert Backoff(4) == 7500 && Backoff(5) == 15500 && Backoff(6) == 31500;
    hide Backoff, Pow2;
    assert Moments(created, 0) == [];
    assert Moments(created, 1) == [] + [created + 500];
    assert Moments(created, 2) == Moments(created, 1) + [created + 1500];
    assert Moments(created, 3) == Moments(created, 2) + [created + 3500];
    assert Moments(created, 6) == Moments(created, 5) + [created + 31500];
    assert Moments(created, 5) == Moments(created, 4) + [created + 15500];
    assert Moments(created, 4) == Moments(created, 3) + [created + 7500];
  }

  function Repeat(m: Message, n: nat): seq<Message> { seq(n, _ => m) }

  lemma RepeatMore(m: Message, ms: seq<Message>, n: nat)
    ensures ms + Repeat(m, 0) == ms
    ensures (ms + Repeat(m, n)) + [m] == ms + Repeat(m, n + 1)
  {
  }

  lemma MomentsMore(t: nat, ts: seq<nat>, n: nat)
    ensures ts + Moments(t, 0) == ts
    ensures (ts + Moments(t, n)) + [t + Backoff(n + 1)] == ts + Moments(t, n + 1)
  {
  }

  /** The next wait is twice as long. */
  lemma BackoffNext(n: nat)
    ensures Backoff(0) == 0 && Pow2(0) == 1 && Pow2(n) >= 1
    ensures Backoff(n + 1) == Backoff(n) + T1 * Pow2(n) && Pow2(n + 1) == 2 * Pow2(n)
  {
    Pow2Monotone(0, n);
  }

  lemma {:induction false} CountRepeat(m: Message, ms: seq<Message>, n: nat)
    ensures M.Count(m, ms + Repeat(m, n)) == M.Count(m, ms) + n
  {
    if n == 0 {
      assert ms + Repeat(m, 0) == ms;
    } else {
      CountRepeat(m, ms, n - 1);
      assert ms + Repeat(m, n) == (ms + Repeat(m, n - 1)) + [m];
      M.CountPush(m, ms + Repeat(m, n - 1), m);
    }
  }

  /** At most six doubled intervals fit between the creation of a transaction and its timeout. */
  lemma SixFit(created: nat, start: nat, n: nat)
    requires created <= start && start + Backoff(n) <= created + 64 * T1
    ensures n <= 6
  {
    assert Pow2(7) == 128;
    if n >= 7 {
      Pow2Monotone(7, n);
    }
  }

  class ClientTransaction {
    const verb: Method
    const branch: string
    const reliable: bool
    const created: nat
    const timeout: nat
    const machine: StateMachine
    const channel: PeekableReceiver<Message>
    var now: nat
    var wire: seq<Message>
    var sentAt: seq<nat>
    ghost var model: M.Client
    ghost var history: seq<M.Event>

    /** What every method keeps about the fields themselves. */
    ghost predicate Sound()
      reads this, machine, channel, channel.rx
    {
      && verb != Ack && machine.Valid() && |sentAt| == |wire|
      && !channel.rx.closed
      && timeout == created + 64 * T1 && created <= now
    }

    /** The object is where the run that it has on record has led; of the queue, only the peeked message is in it. */
    ghost predicate OnRecord()
      reads this
    {
      && model == M.Run(M.Start(verb, branch, reliable), history)
    }

    /** Sound, and in step with the run. */
    ghost predicate InStep()
      reads this, machine, channel, channel.rx
    {
      Sound() && OnRecord() && machine.trail == model.trail && wire == model.wire
    }

    ghost predicate Valid()
      reads this, machine, channel, channel.rx
    {
      && InStep()
      && model.queue == (if channel.peeked.Some? then [channel.peeked.value] else [])
      && M.Count(model.Request(), wire) <= 7
      && (model.phase.Idle? && machine.state == M.StartState(verb) ==> wire == [model.Request()])
      && (model.phase.Idle? ==> machine.state == M.StartState(verb) || machine.state == Proceeding)
    }

    /** Sends the request and registers; only what arrives from then on is in `rx`. */
    constructor Send(verb: Method, branch: string, reliable: bool, rx: Receiver<Message>, now: nat)
      requires verb != Ack && !rx.closed
      ensures Valid() && model == M.Start(verb, branch, reliable) && this.verb == verb && this.reliable == reliable
      ensures fresh(machine) && fresh(channel) && channel.rx == rx && channel.peeked == None
      ensures this.now == now && wire == [Request(verb, branch)] && sentAt == [now] && timeout == now + 64 * T1
    {
      this.verb, this.branch, this.reliable := verb, branch, reliable;
      this.created, this.now, this.timeout := now, now, now + 64 * T1;
      wire, sentAt := [Request(verb, branch)], [now];
      machine := new StateMachine(if verb.Invite? then Calling else Trying);
      channel := new PeekableReceiver(rx);
      model, history := M.Start(verb, branch, reliable), [];
      new;
      assert M.Count(model.Request(), wire) == 1 by { M.CountPush(model.Request(), [], model.Request()); }
    }

    ghost method Did(e: M.Event)
      requires OnRecord()
      modifies this`model, this`history
      ensures OnRecord() && model == M.Next(old(model), e)
    {
      history := history + [e];
      model := M.Next(model, e);
      assert history[..|history| - 1] == old(history);
    }

    /** Puts the n retransmissions of a wait on record. */
    ghost method DidIntervals(n: nat)
      requires OnRecord() && (n > 0 ==> model.Waiting() && !reliable && model.State() in {Calling, Trying})
      modifies this`model, this`history
      ensures OnRecord() && model == old(model).(wire := old(model.wire) + Repeat(old(model).Request(), n))
      decreases n
    {
      hide M.Run, Repeat;
      RepeatMore(model.Request(), model.wire, if n > 0 then n - 1 else 0);
      if n > 0 {
        DidIntervals(n - 1);
        Did(M.Interval);
      }
    }

    ghost method DidTimeOut()
      requires OnRecord() && model.Waiting() && !(model.State().Proceeding? && verb.Invite?)
      modifies this`model, this`history
      ensures OnRecord()
      ensures model == old(model).(trail := old(model.trail) + [Terminated], phase := M.Over)
    {
      Did(M.Deadline);
    }

    ghost method DidCall(final: bool)
      requires OnRecord() && model.phase.Idle? && model.State() in {Calling, Trying, Proceeding}
      modifies this`model, this`history
      ensures OnRecord() && model == old(model).(phase := if final then M.AwaitFinal else M.AwaitProvisional)
    {
      Did(if final then M.CallFinal else M.CallProvisional);
    }

    ghost method DidLookForProvisional(m: Message, wanted: bool)
      requires OnRecord() && model.phase.AwaitProvisional? && model.queue == [m]
      requires wanted == (m.Response? && IsProvisional(m.code))
      modifies this`model, this`history
      ensures OnRecord() && model.phase.Idle? && model.final == old(model.final) && model.wire == old(model.wire)
      ensures model.trail == if old(model.State()).Proceeding? then old(model.trail) else old(model.trail) + [Proceeding]
      ensures model.queue == (if wanted then [] else [m])
      ensures model.provisionals == old(model.provisionals) + (if wanted then [m.code] else [])
    {
      Did(M.Look);
    }

    ghost method DidLookForFinal(m: Message)
      requires OnRecord() && model.phase.AwaitFinal? && model.queue == [m]
      modifies this`model, this`history
      ensures OnRecord() && model.provisionals == old(model.provisionals)
      ensures if m.Response? && IsFinal(m.code) then
                var d := M.Finish(old(model), m.code);
                && model.queue == [] && model.final == d.final && model.phase == d.phase
                && model.trail == d.trail && model.wire == d.wire
              else
                model == old(model).(phase := M.Over)
    {
      hide M.Run, M.Next, M.Finish;
      M.LookForFinal(model, m);
      Did(M.Look);
    }

    ghost method DidAbsorb(m: Message)
      requires OnRecord() && model.phase.Absorbing? && model.queue == [m]
      modifies this`model, this`history
      ensures OnRecord() && model.queue == [] && model.provisionals == old(model.provisionals)
      ensures model.phase == (if m.Response? then M.Absorbing else M.Over)
      ensures model.trail == if m.Response? then old(model.trail) else old(model.trail) + [Terminated]
      ensures model.wire == if m.Response? && verb.Invite? then old(model.wire) + [model.AckRequest()] else old(model.wire)
    {
      Did(M.Look);
    }

    /** Puts on record the arrival of the message that a wait found, if it was not there before. */
    ghost method DidArrive(m: Message)
      requires OnRecord() && !model.phase.Over? && !model.phase.Panicked?
      modifies this`model, this`history
      ensures OnRecord()
      ensures model == old(model).(arrived := old(model.arrived) + [m], queue := old(model.queue) + [m])
    {
      Did(M.Arrive(m));
    }

    /** The fields that a wait depends on. */
    ghost function Seen(): View
      reads this`now, channel, channel.rx
    {
      View(now, channel.peeked, channel.rx.rx, channel.Contents(), channel.Front())
    }

    /** Until when a wait lasts at most: an INVITE in Proceeding waits for ever. */
    function Limit(): Option<nat>
      reads machine
    {
      if verb.Invite? && machine.state.Proceeding? then None else Some(timeout)
    }

    /** The wait ended, and only a timeout moved the machine. */
    twostate predicate Waited(r: Outcome, pred: nat -> bool)
      reads this, machine, channel, channel.rx
    {
      && Sound() && EndOfWait(r, pred, old(Seen()), Seen(), old(Limit()))
      && machine.trail == if r.TimedOut? then old(machine.trail) + [Terminated] else old(machine.trail)
    }

    /** The retransmissions of a wait: how many, and when. */
    twostate predicate Retransmitted(r: Outcome, n: nat)
      reads this`now, this`wire, this`sentAt
    {
      && wire == old(wire) + Repeat(Request(verb, branch), n)
      && sentAt == old(sentAt) + Moments(old(now), n)
      && OnSchedule(old(now), n, now, r.TimedOut?, timeout)
    }

    /** One receive within one interval and the timeout; `first` is where the wait as a whole began. */
    method WaitOneInterval(pred: nat -> bool, interval: nat, ghost first: View) returns (over: Option<Outcome>)
      requires Sound() && Seen() == first.(now := now) && first.now <= now <= Max(first.now, timeout) && interval > 0
      requires first.now < now ==> first.NothingBy(now)
      modifies this`now, machine, channel, channel.rx
      ensures Sound()
      ensures machine.trail == if over == Some(TimedOut) then old(machine.trail) + [Terminated] else old(machine.trail)
      ensures match over
              case Some(r) =>
                && !r.Hanging? && EndOfWait(r, pred, first, Seen(), Some(timeout))
                && (if r.TimedOut? then now == Max(first.now, timeout) < old(now) + interval
                    else old(now) <= now <= old(now) + interval)
              case None =>
                && Seen() == old(Seen()).(now := now) && now == old(now) + interval <= Max(first.now, timeout)
                && first.NothingBy(now)
    {
      hide Backoff, Pow2, OnRecord, PeekableReceiver.Contents, PeekableReceiver.Front, EndOfWait;
      ghost var started := now;
      var fires := now + interval;
      var limit := Min(fires, Max(now, timeout));
      var got, later := AwaitMessage(pred, Some(limit));
      if got.Ready? {
        LongerWait(got.value, pred, first, started, Seen(), limit, timeout);
        return Some(got.value);
      }
      now := later;
      if later != fires {
        machine.SetState(Terminated);
        WaitTimesOut(pred, first, Seen(), timeout);
        return Some(TimedOut);
      }
      over := None;
    }

    /** Calling or Trying over unreliable transport: one receive per interval, and a retransmission after each. */
    method ReceiveRetransmitting(pred: nat -> bool) returns (r: Outcome, ghost n: nat)
      requires Sound() && Limit().Some?
      modifies this`now, this`wire, this`sentAt, machine, channel, channel.rx
      ensures Waited(r, pred) && Retransmitted(r, n) && !r.Hanging?
    {
      hide Moments, Repeat, Backoff, Pow2, OnRecord, PeekableReceiver.Contents, PeekableReceiver.Front, EndOfWait, OnSchedule;
      var interval := T1;
      n := 0;
      BackoffNext(0);
      RepeatMore(Request(verb, branch), wire, 0);
      MomentsMore(now, sentAt, 0);
      while true
        invariant Sound() && Seen() == old(Seen()).(now := now) && machine.trail == old(machine.trail)
        invariant old(now) < now ==> old(Seen()).NothingBy(now)
        invariant interval == T1 * Pow2(n) && now == old(now) + Backoff(n) <= Max(old(now), timeout)
        invariant wire == old(wire) + Repeat(Request(verb, branch), n) && sentAt == old(sentAt) + Moments(old(now), n)
        decreases timeout - now
      {
        NextInterval(old(now), n, created, timeout);
        var over := WaitOneInterval(pred, interval, old(Seen()));
        if over.Some? {
          r := over.value;
          return;
        }
        RepeatMore(Request(verb, branch), old(wire), n);
        MomentsMore(old(now), old(sentAt), n);
        wire, sentAt := wire + [Request(verb, branch)], sentAt + [now];
        interval, n := interval * 2, n + 1;
      }
    }

    /** The wait under the time limits of `receive_response_if`, arm by arm. */
    method ReceiveResponseIf(pred: nat -> bool) returns (r: Outcome, ghost n: nat)
      requires Sound() && machine.state in {Calling, Trying, Proceeding}
      modifies this`now, this`wire, this`sentAt, machine, channel, channel.rx
      ensures Waited(r, pred)
      ensures if reliable || old(machine.state).Proceeding? then
                n == 0 && wire == old(wire) && sentAt == old(sentAt)
              else Retransmitted(r, n)
    {
      n := 0;
      if machine.state in {Calling, Trying} && !reliable {
        r, n := ReceiveRetransmitting(pred);
      } else {
        var limit := if machine.state.Proceeding? && verb.Invite? then None else Some(timeout);
        var got, later := AwaitMessage(pred, limit);
        match got
        case Ready(outcome) => r := outcome;
        case Elapsed =>
          now := later;
          machine.SetState(Terminated);
          r := TimedOut;
        case Never => r := Hanging;
      }
    }

    /** One conditional receive within one limit; the clock moves only if a message is there. */
    method AwaitMessage(pred: nat -> bool, limit: Option<nat>) returns (r: Awaited<Outcome>, later: nat)
      requires Sound()
      modifies this`now, channel, channel.rx
      ensures Sound()
      ensures match r
              case Ready(outcome) =>
                (outcome.Got? || outcome.Nothing?) && EndOfWait(outcome, pred, old(Seen()), Seen(), limit) && now == later
              case Elapsed =>
                Seen() == old(Seen()) && limit.Some? && later == Max(now, limit.value) && Seen().NothingBy(later)
              case Never => Seen() == old(Seen()) && limit.None? && channel.peeked.None? && channel.rx.rx == []
      ensures r.Ready? ==> old(now) <= now && (limit.Some? ==> now <= Max(old(now), limit.value))
    {
      var got;
      got, later := channel.RecvIf((m: Message) => m.Response? && pred(m.code), now, limit);
      if got.Ready? {
        now := later;
        r := Ready(if got.value.Some? then Got(got.value.value) else Nothing);
      } else {
        r := if got.Elapsed? then Elapsed else Never;
      }
    }

    /** What a wait leaves of a run: its retransmissions and the message it found are put on record. */
    ghost method DidWait(r: Outcome, n: nat, front: Option<Message>, wasPeeked: bool)
      requires OnRecord() && model.Waiting()
      requires n > 0 ==> !reliable && model.State() in {Calling, Trying}
      requires r.Got? || r.Nothing? ==> front.Some?
      requires wasPeeked ==> front.Some?
      requires model.queue == (if wasPeeked then [front.value] else [])
      modifies this`model, this`history
      ensures OnRecord()
      ensures model == old(model).(arrived := model.arrived, queue := model.queue,
                                   wire := old(model.wire) + Repeat(old(model).Request(), n))
      ensures r.Got? || r.Nothing? ==> model.queue == [front.value]
      ensures r.TimedOut? || r.Hanging? ==> model.queue == old(model.queue)
    {
      DidIntervals(n);
      if (r.Got? || r.Nothing?) && !wasPeeked {
        DidArrive(front.value);
      }
    }

    /** Both kinds of wait, with the run on record up to the moment at which the message in front is looked at. */
    method WaitOnRecord(final: bool, pred: nat -> bool) returns (r: Outcome, ghost n: nat)
      requires Valid() && model.phase.Idle?
      modifies this, machine, channel, channel.rx
      ensures Waited(r, pred) && OnRecord() && machine.trail == model.trail && wire == model.wire
      ensures M.Count(model.Request(), wire) <= 7
      ensures model.provisionals == old(model.provisionals) && model.final == old(model.final)
      ensures model.phase == if r.TimedOut? then M.Over else if final then M.AwaitFinal else M.AwaitProvisional
      ensures model.queue == if r.Got? || r.Nothing? then [old(channel.Front()).value] else []
      ensures if reliable || old(machine.state).Proceeding? then
                n == 0 && wire == old(wire) && sentAt == old(sentAt)
              else Retransmitted(r, n)
    {
      hide M.Run, M.Next, M.Count, Moments, Repeat, Backoff, PeekableReceiver.Contents, EndOfWait;
      ghost var front, wasPeeked, before := channel.Front(), channel.peeked.Some?, wire;
      assert machine.state == model.State();
      DidCall(final);
      r, n := ReceiveResponseIf(pred);
      EndMeans(r, pred, old(Seen()), Seen(), old(Limit()));
      RepeatMore(model.Request(), before, 0);
      assert wire == before + Repeat(model.Request(), n);
      assert M.Count(model.Request(), wire) <= 7 by { SevenSent(before, n); }
      DidEndWait(r, n, front, wasPeeked);
    }

    /** What a wait leaves of a run, and the timeout if there was one. */
    ghost method DidEndWait(r: Outcome, n: nat, front: Option<Message>, wasPeeked: bool)
      requires OnRecord() && model.Waiting()
      requires n > 0 ==> !reliable && model.State() in {Calling, Trying}
      requires r.TimedOut? ==> !(model.State().Proceeding? && verb.Invite?)
      requires r.Got? || r.Nothing? ==> front.Some?
      requires wasPeeked ==> front.Some?
      requires model.queue == (if wasPeeked then [front.value] else [])
      modifies this`model, this`history
      ensures OnRecord() && model.provisionals == old(model.provisionals) && model.final == old(model.final)
      ensures model.wire == old(model.wire) + Repeat(old(model).Request(), n)
      ensures model.trail == if r.TimedOut? then old(model.trail) + [Terminated] else old(model.trail)
      ensures model.phase == if r.TimedOut? then M.Over else old(model.phase)
      ensures model.queue == if r.Got? || r.Nothing? then [front.value] else old(model.queue)
    {
      hide M.Run, M.Next, Repeat;
      DidWait(r, n, front, wasPeeked);
      if r.TimedOut? {
        DidTimeOut();
      }
    }

    lemma SevenSent(before: seq<Message>, n: nat)
      requires M.Count(Request(verb, branch), before) <= 7
      requires n > 0 ==> n <= 6 && before == [Request(verb, branch)]
      ensures M.Count(Request(verb, branch), before + Repeat(Request(verb, branch), n)) <= 7
    {
      CountRepeat(Request(verb, branch), before, n);
      M.CountPush(Request(verb, branch), [], Request(verb, branch));
    }

    /**
     * A user's call for a provisional response. `Nothing` is also its answer when a final response is in front, and
     * either way the machine is in Proceeding afterwards.
     */
    method ReceiveProvisionalResponse() returns (r: Outcome, ghost n: nat)
      requires Valid() && model.phase.Idle?
      modifies this, machine, channel, channel.rx
      ensures Valid() && EndOfWait(r, IsProvisional, old(Seen()), Seen(), old(Limit()))
      ensures match r
              case Got(m) =>
                model.provisionals == old(model.provisionals) + [m.code] && model.phase.Idle? && machine.state.Proceeding?
              case Nothing => model.provisionals == old(model.provisionals) && model.phase.Idle? && machine.state.Proceeding?
              case TimedOut => machine.state.Terminated? && model.phase.Over?
              case Hanging => machine.state == old(machine.state)
      ensures if reliable || old(machine.state).Proceeding? then
                n == 0 && wire == old(wire) && sentAt == old(sentAt)
              else Retransmitted(r, n)
    {
      hide M.Run, M.Next, M.Count, Retransmitted, PeekableReceiver.Contents, EndOfWait;
      ghost var front := channel.Front();
      var state := machine.state;
      r, n := WaitOnRecord(false, IsProvisional);
      ProvisionalEnd(r, old(Seen()), Seen(), old(Limit()));
      if r.Got? || r.Nothing? {
        EnterProceeding(state, front.value, r.Got?);
      }
    }

    method EnterProceeding(state: State, ghost front: Message, ghost wanted: bool)
      requires InStep() && state == machine.state
      requires model.phase.AwaitProvisional? && model.queue == [front] && M.Count(model.Request(), wire) <= 7
      requires wanted == (front.Response? && IsProvisional(front.code))
      requires channel.peeked == if wanted then None else Some(front)
      modifies this`model, this`history, machine
      ensures Valid() && model.phase.Idle? && machine.state.Proceeding?
      ensures model.provisionals == old(model.provisionals) + (if wanted then [front.code] else [])
    {
      hide M.Run, M.Next, M.Count;
      assert model.State() == state;
      if state != Proceeding {
        machine.SetState(Proceeding);
      }
      DidLookForProvisional(front, wanted);
    }

    /**
     * A user's call for the final response, which is also the end of the transaction for the user. `Nothing` is the
     * error that is reported when a provisional response is still in front. `timer` is until when the spawned task
     * absorbs retransmitted responses, if there is such a task.
     */
    method ReceiveFinalResponse() returns (r: Outcome, ghost n: nat, timer: nat)
      requires Valid() && model.phase.Idle?
      modifies this, machine, channel, channel.rx
      ensures InStep() && EndOfWait(r, IsFinal, old(Seen()), Seen(), old(Limit()))
      ensures match r
              case Got(m) =>
                && model.final == Some(m.code) && model.queue == []
                && (if reliable || (verb.Invite? && InSuccessRange(m.code)) then
                      && machine.trail == old(machine.trail) + [Terminated] && model.phase.Over?
                      && wire == old(wire) + Repeat(Request(verb, branch), n)
                    else
                      && machine.trail == old(machine.trail) + [Completed] && model.phase.Absorbing?
                      && wire == old(wire) + Repeat(Request(verb, branch), n)
                                           + (if verb.Invite? then [Request(Ack, branch)] else [])
                      && timer == now + (if verb.Invite? then 64 * T1 else T4))
              case Nothing =>
                model.phase.Over? && machine.trail == old(machine.trail) && wire == old(wire) + Repeat(Request(verb, branch), n)
              case TimedOut =>
                machine.trail == old(machine.trail) + [Terminated] && wire == old(wire) + Repeat(Request(verb, branch), n)
              case Hanging => machine.trail == old(machine.trail) && wire == old(wire)
      ensures if reliable || old(machine.state).Proceeding? then n == 0
              else OnSchedule(old(now), n, now, r.TimedOut?, timeout)
      ensures sentAt == old(sentAt) + Moments(old(now), n) + if r.Got? && machine.state.Completed? && verb.Invite? then [now] else []
    {
      hide M.Run, M.Next, M.Count, M.Take, M.Finish, M.Absorb, Moments, Repeat, Backoff, OnSchedule, PeekableReceiver.Contents,
        EndOfWait;
      ghost var front := channel.Front();
      timer := 0;
      RepeatMore(Request(verb, branch), wire, 0);
      MomentsMore(now, sentAt, 0);
      r, n := WaitOnRecord(true, IsFinal);
      FinalEnd(r, old(Seen()), Seen(), old(Limit()));
      match r {
        case Got(m) => timer := ActOnFinal(m);
        case Nothing => DidLookForFinal(front.value);
        case _ =>
      }
    }

    method ActOnFinal(m: Message) returns (timer: nat)
      requires InStep()
      requires model.phase.AwaitFinal? && model.queue == [m] && machine.state in {M.StartState(verb), Proceeding}
      requires m.Response? && IsFinal(m.code)
      modifies this`wire, this`sentAt, this`model, this`history, machine
      ensures InStep() && model.queue == []
      ensures model.final == Some(m.code)
      ensures if reliable || (verb.Invite? && InSuccessRange(m.code)) then
                machine.trail == old(machine.trail) + [Terminated] && model.phase.Over? && wire == old(wire) && sentAt == old(sentAt)
              else
                && machine.trail == old(machine.trail) + [Completed] && model.phase.Absorbing?
                && wire == old(wire) + (if verb.Invite? then [Request(Ack, branch)] else [])
                && sentAt == old(sentAt) + (if verb.Invite? then [now] else [])
                && timer == now + (if verb.Invite? then 64 * T1 else T4)
    {
      hide M.Run, M.Next, M.Count;
      assert model.State() == machine.state;
      FinalCodeRanges(m.code);
      DidLookForFinal(m);
      timer := 0;
      if reliable || (verb.Invite? && 200 <= m.code < 299 && machine.state in {Calling, Proceeding}) {
        machine.SetState(Terminated);
        return;
      }
      machine.SetState(Completed);
      if verb.Invite? {
        assert InAckRange(m.code);
        wire, sentAt := wire + [Request(Ack, branch)], sentAt + [now];
        timer := now + 64 * T1;
      } else {
        timer := now + T4;
      }
    }

    /** The spawned task: it repeats the ACK for every response that comes before its timer. */
    method AbsorbRetransmissions(timer: nat) returns (ghost absorbed: nat)
      requires InStep()
      requires model.phase.Absorbing? && model.queue == [] && channel.peeked == None && timer >= now
      modifies this, machine, channel, channel.rx
      ensures InStep()
      ensures machine.trail == old(machine.trail) + [Terminated] && model.phase.Over?
      ensures absorbed <= |old(channel.rx.rx)|
      ensures forall i :: 0 <= i < absorbed ==> old(channel.rx.rx)[i].msg.Response? && old(channel.rx.rx)[i].at <= timer
      ensures (now == timer && (absorbed < |old(channel.rx.rx)| ==> old(channel.rx.rx)[absorbed].at > timer))
           || (absorbed < |old(channel.rx.rx)| && !old(channel.rx.rx)[absorbed].msg.Response?
               && old(channel.rx.rx)[absorbed].at <= timer)
      ensures wire == old(wire) + Repeat(Request(Ack, branch), if verb.Invite? then absorbed else 0)
      ensures sentAt == old(sentAt) + if verb.Invite? then Latests(old(now), old(channel.rx.rx), absorbed) else []
      ensures old(now) <= now <= timer
    {
      hide M.Run, M.Next, M.Count, Moments, Repeat, Backoff, Payloads, OnRecord;
      absorbed := 0;
      ghost var rx := channel.rx.rx;
      RepeatMore(Request(Ack, branch), wire, 0);
      while true
        invariant InStep() && machine.trail == old(machine.trail)
        invariant model.phase.Absorbing? && model.queue == [] && channel.peeked == None
        invariant absorbed <= |rx| && channel.rx.rx == rx[absorbed..] && old(now) <= now <= timer
        invariant now == Latest(old(now), rx, absorbed)
        invariant sentAt == old(sentAt) + if verb.Invite? then Latests(old(now), rx, absorbed) else []
        invariant forall i :: 0 <= i < absorbed ==> rx[i].msg.Response? && rx[i].at <= timer
        invariant wire == old(wire) + Repeat(Request(Ack, branch), if verb.Invite? then absorbed else 0)
        decreases |channel.rx.rx|
      {
        var got := NextMessage(timer);
        if got.None? || !got.value.Response? {
          EndAbsorbing(got);
          return;
        }
        RepeatMore(Request(Ack, branch), old(wire), absorbed);
        LatestsMore(old(now), rx, absorbed);
        AbsorbOne(got.value);
        absorbed := absorbed + 1;
      }
    }

    method NextMessage(timer: nat) returns (got: Option<Message>)
      requires InStep() && channel.peeked == None && timer >= now
      modifies this`now, channel, channel.rx
      ensures InStep() && channel.peeked == None && old(now) <= now <= timer
      ensures got.Some? ==>
                && old(channel.rx.rx) != [] && got.value == old(channel.rx.rx)[0].msg && channel.rx.rx == old(channel.rx.rx)[1..]
                && old(channel.rx.rx)[0].at <= timer && now == Max(old(now), old(channel.rx.rx)[0].at)
      ensures got.None? ==>
                channel.rx.rx == old(channel.rx.rx) && (channel.rx.rx != [] ==> channel.rx.rx[0].at > timer) && now == timer
    {
      hide M.Run, Payloads;
      var message, later := channel.Recv(now, Some(timer));
      now := later;
      got := if message.Ready? then message.value else None;
    }

    /** The timer ends the task, and so does a message that is not a response. */
    method EndAbsorbing(got: Option<Message>)
      requires InStep() && model.phase.Absorbing? && model.queue == [] && (got.Some? ==> !got.value.Response?)
      modifies this`model, this`history, machine
      ensures InStep() && machine.trail == old(machine.trail) + [Terminated] && model.phase.Over?
    {
      hide M.Run, M.Next;
      machine.SetState(Terminated);
      if got.Some? {
        DidArrive(got.value);
        DidAbsorb(got.value);
      } else {
        DidAbsorbEnd();
      }
    }

    method AbsorbOne(m: Message)
      requires InStep()
      requires model.phase.Absorbing? && model.queue == [] && m.Response?
      modifies this`wire, this`sentAt, this`model, this`history
      ensures InStep()
      ensures model.phase.Absorbing? && model.queue == [] && machine.trail == old(machine.trail)
      ensures wire == if verb.Invite? then old(wire) + [Request(Ack, branch)] else old(wire)
      ensures sentAt == if verb.Invite? then old(sentAt) + [now] else old(sentAt)
    {
      hide M.Run, M.Next;
      if verb.Invite? {
        wire, sentAt := wire + [Request(Ack, branch)], sentAt + [now];
      }
      DidArrive(m);
      DidAbsorb(m);
    }

    ghost method DidAbsorbEnd()
      requires OnRecord() && model.phase.Absorbing?
      modifies this`model, this`history
      ensures OnRecord()
      ensures model == old(model).(trail := old(model.trail) + [Terminated], phase := M.Over)
    {
      Did(M.Deadline);
    }
  }

  /** `ms` starts with the provisional responses whose codes are `codes`. */
  ghost predicate StartsWith(ms: seq<Message>, codes: seq<StatusCode>) {
    |codes| <= |ms| && forall i :: 0 <= i < |codes| ==> M.IsEarly(ms[i]) && ms[i].code == codes[i]
  }

  /**
   * The first k messages came no later than the timeout; an INVITE has no such limit once it is in Proceeding, where it is
   * from the first message on at the latest.
   */
  predicate CameInTime(t: ClientTransaction, proceeding: bool, start: nat, rx: seq<Arrival<Message>>, k: nat) {
    k <= |rx| && forall i :: 0 <= i < k ==> rx[i].at <= Max(start, t.timeout) || (t.verb.Invite? && (i > 0 || proceeding))
  }

  /** Where that user stands with `codes`: what is left of what was there, how it came, and how long the next wait may be. */
  ghost predicate Collecting(t: ClientTransaction, proceeding: bool, first: View, codes: seq<StatusCode>, v: View) {
    && StartsWith(first.contents, codes) && v.contents == first.contents[|codes|..]
    && (first.peeked.None? ==>
          v.peeked.None? && CameInTime(t, proceeding, first.now, first.rx, |codes|) && v.rx == first.rx[|codes|..])
    && (v.now <= Max(first.now, t.timeout) || (t.verb.Invite? && (codes != [] || proceeding)))
  }

  /** The limit of the next wait. */
  ghost predicate NextLimit(t: ClientTransaction, proceeding: bool, codes: seq<StatusCode>, limit: Option<nat>) {
    limit == if t.verb.Invite? && (codes != [] || proceeding) then None else Some(t.timeout)
  }

  lemma CollectedOne(t: ClientTransaction, proceeding: bool, first: View, codes: seq<StatusCode>, a: View, m: Message, b: View,
                     limit: Option<nat>)
    requires Collecting(t, proceeding, first, codes, a) && NextLimit(t, proceeding, codes, limit)
    requires EndOfWait(Got(m), IsProvisional, a, b, limit) && m.Response?
    ensures Collecting(t, proceeding, first, codes + [m.code], b) && |b.contents| < |a.contents|
  {
    var all, n := first.contents, |codes|;
    assert all[n..] == [m] + b.contents;
    assert all[n] == m && all[n + 1..] == b.contents;
  }

  lemma CollectedAll(t: ClientTransaction, proceeding: bool, first: View, codes: seq<StatusCode>, a: View, r: Outcome, b: View,
                     limit: Option<nat>)
    requires Collecting(t, proceeding, first, codes, a) && NextLimit(t, proceeding, codes, limit)
    requires EndOfWait(r, IsProvisional, a, b, limit) && !r.Got?
    ensures StartsWith(first.contents, codes) && b.contents == first.contents[|codes|..]
    ensures first.peeked.None? ==> CameInTime(t, proceeding, first.now, first.rx, |codes| + if r.Nothing? then 1 else 0)
    ensures r.TimedOut? ==> b.NothingBy(b.now) && t.timeout <= b.now
    ensures r.Hanging? ==> b.contents == []
  {
    assert a.contents == b.contents by { assert [] + b.contents == b.contents; }
    if r.Nothing? && first.peeked.None? { assert first.rx[|codes|..][0] == first.rx[|codes|]; }
  }

  /** The first half of what that user does: calls for provisional responses until one is in vain. */
  method CollectEarly(t: ClientTransaction) returns (codes: seq<StatusCode>, r: Outcome)
    requires t.Valid() && t.model.phase.Idle?
    modifies t, t.machine, t.channel, t.channel.rx
    ensures StartsWith(old(t.channel.Contents()), codes) && t.channel.Contents() == old(t.channel.Contents())[|codes|..]
    ensures old(t.channel.peeked).None? ==>
              CameInTime(t, old(t.machine.state).Proceeding?, old(t.now), old(t.channel.rx.rx), |codes| + if r.Nothing? then 1 else 0)
    ensures match r
            case Got(_) => false
            case Nothing =>
              && t.Valid() && t.model.phase.Idle? && t.channel.peeked.Some?
              && t.channel.Contents() != [] && !M.IsEarly(t.channel.Contents()[0])
            case TimedOut => t.Seen().NothingBy(t.now) && t.timeout <= t.now
            case Hanging => t.channel.Contents() == []
  {
    hide ClientTransaction.Valid, ClientTransaction.Retransmitted, PeekableReceiver.Contents, PeekableReceiver.Front, EndOfWait,
      StartsWith, CameInTime, Collecting;
    ghost var first, proceeding := t.Seen(), t.machine.state.Proceeding?;
    codes := [];
    NothingCollected(t, proceeding, first);
    while true
      invariant t.Valid() && t.model.phase.Idle? && Collecting(t, proceeding, first, codes, t.Seen())
      invariant t.machine.state.Proceeding? <==> codes != [] || proceeding
      decreases |t.channel.Contents()|
    {
      ghost var n, a, limit := 0, t.Seen(), t.Limit();
      r, n := t.ReceiveProvisionalResponse();
      ProvisionalEnd(r, a, t.Seen(), limit);
      FrontOfContents(t.channel);
      match r {
        case Got(m) =>
          CollectedOne(t, proceeding, first, codes, a, m, t.Seen(), limit);
          codes := codes + [m.code];
        case _ =>
          CollectedAll(t, proceeding, first, codes, a, r, t.Seen(), limit);
          return;
      }
    }
  }

  lemma NothingCollected(t: ClientTransaction, proceeding: bool, first: View)
    ensures Collecting(t, proceeding, first, [], first)
  {
  }

  lemma FrontOfContents<T>(channel: PeekableReceiver<T>)
    ensures channel.Front() == if channel.Contents() == [] then None else Some(channel.Contents()[0])
    ensures channel.peeked.Some? ==> channel.Front() == channel.peeked
  {
  }

  /**
   * The user who asks for provisional responses until there is none and then for the final one, whatever comes, and
   * whenever: `codes` are exactly the leading provisional responses, in order, and the result is the message behind them, or
   * the error that it is not a response; they all came in time, and only if that message does not is there a timeout.
   */
  method Collect(t: ClientTransaction) returns (codes: seq<StatusCode>, r: Outcome, timer: nat)
    requires t.Valid() && t.model.phase.Idle?
    modifies t, t.machine, t.channel, t.channel.rx
    ensures StartsWith(old(t.channel.Contents()), codes)
    ensures old(t.channel.peeked).None? ==>
              CameInTime(t, old(t.machine.state).Proceeding?, old(t.now), old(t.channel.rx.rx),
                         |codes| + if r.Got? || r.Nothing? then 1 else 0)
    ensures var rest := old(t.channel.Contents())[|codes|..];
            match r
            case Got(m) => rest == [m] + t.channel.Contents() && m.Response? && IsFinal(m.code)
            case Nothing => rest == t.channel.Contents() && rest != [] && !rest[0].Response?
            case TimedOut => rest == t.channel.Contents() && t.Seen().NothingBy(t.now) && t.timeout <= t.now
            case Hanging => rest == t.channel.Contents() == []
  {
    hide ClientTransaction.Valid, ClientTransaction.InStep, PeekableReceiver.Contents, PeekableReceiver.Front, StartsWith, CameInTime;
    timer := 0;
    codes, r := CollectEarly(t);
    if r.Nothing? {
      FrontOfContents(t.channel);
      ghost var sent;
      r, sent, timer := t.ReceiveFinalResponse();
      FrontOfContents(t.channel);
    }
  }
}
