/**
 * The server transaction with its fields and its clock. What will arrive on its channel, and when, is fixed in the
 * channel; the ghost `history` is the run of `ServerMachine` that the object has made, and `Valid` keeps the object in
 * step with it. A message enters that run when it is taken. Sending is appending to `wire`.
 */
module ServerTransactions {
  import opened Wrappers
  import opened Timers
  import opened Fsm
  import opened Messages
  import opened Channels
  import S = ServerMachine

  type Reply = S.Reply

  /** The interval before the (k+1)-th retransmission of a final response: doubling from T1, but at most T2. */
  function Interval(k: nat): nat { Min(T1 * Pow2(k), T2) }

  /** What the first n intervals add up to. */
  function Span(n: nat): nat { if n == 0 then 0 else Span(n - 1) + Interval(n - 1) }

  lemma SpanGrows(m: nat, n: nat)
    requires m <= n
    ensures Span(m) <= Span(n)
  {
    if m < n { SpanGrows(m, n - 1); }
  }

  lemma NextInterval(k: nat)
    ensures Interval(0) == T1 && Interval(k) >= T1
    ensures Interval(k + 1) == Min(Interval(k) * 2, T2)
    ensures Span(0) == 0 && Span(k + 1) == Span(k) + Interval(k)
  {
  }

  /** From the fourth on, an interval is four seconds. */
  lemma CappedIntervals(k: nat)
    requires k >= 3
    ensures Interval(k) == 4000
  {
    Pow2Monotone(3, k);
    assert Pow2(3) == 8;
  }

  /** At most three of these intervals fit into T4. */
  lemma ThreeFit(n: nat)
    requires Span(n) <= T4
    ensures n <= 3
  {
    assert Pow2(3) == 8 && Pow2(2) == 4 && Pow2(1) == 2 && Pow2(0) == 1;
    assert Span(4) == Span(2) + 2000 + 4000 && Span(2) == 500 + 1000;
    if n >= 4 { SpanGrows(4, n); }
  }

  /** Why and when a final response is sent again. */
  datatype Resend = ByTimer(at: nat) | ByMessage(at: nat)

  /** The time of the last sending, the first of which was at `start`. */
  function LastSent(start: nat, sends: seq<Resend>): nat { if sends == [] then start else sends[|sends| - 1].at }

  /** How many of the sendings were the timer's. */
  function Timed(sends: seq<Resend>): (n: nat)
    ensures n <= |sends|
  {
    if sends == [] then 0 else Timed(sends[..|sends| - 1]) + if sends[|sends| - 1].ByTimer? then 1 else 0
  }

  /**
   * One more sending of a loop that sent last at `last`, after k intervals had run out and i messages been taken: when the
   * next message came, if it comes before the interval has run out, and else when it has run out.
   */
  predicate Due(last: nat, k: nat, i: nat, rx: seq<Arrival<Message>>, send: Resend) {
    match send
    case ByTimer(at) => at == last + Interval(k) && (i < |rx| ==> rx[i].at > at)
    case ByMessage(at) => i < |rx| && rx[i].at <= last + Interval(k) && at == Max(last, rx[i].at)
  }

  /** Every sending was due. */
  predicate AllDue(start: nat, rx: seq<Arrival<Message>>, sends: seq<Resend>) {
    sends == [] || (
      var before := sends[..|sends| - 1];
      && AllDue(start, rx, before)
      && Due(LastSent(start, before), Timed(before), |before| - Timed(before), rx, sends[|sends| - 1]))
  }

  lemma OneMoreSending(start: nat, rx: seq<Arrival<Message>>, sends: seq<Resend>, send: Resend)
    ensures AllDue(start, rx, sends + [send])
       <==> AllDue(start, rx, sends) && Due(LastSent(start, sends), Timed(sends), |sends| - Timed(sends), rx, send)
    ensures LastSent(start, sends + [send]) == send.at
    ensures Timed(sends + [send]) == Timed(sends) + if send.ByTimer? then 1 else 0
  {
    assert (sends + [send])[..|sends|] == sends;
    hide Due;
  }

  lemma {:induction false} SendingsTakeTime(start: nat, rx: seq<Arrival<Message>>, sends: seq<Resend>)
    requires AllDue(start, rx, sends)
    ensures LastSent(start, sends) >= start
    ensures Timed(sends) == |sends| ==> LastSent(start, sends) == start + Span(|sends|)
  {
    if sends != [] { SendingsTakeTime(start, rx, sends[..|sends| - 1]); }
  }

  /**
   * The loop is over after these sendings: the next interval would have ended behind the deadline, and so would the wait for
   * the next message, or that message is the ACK.
   */
  predicate Ended(start: nat, deadline: nat, rx: seq<Arrival<Message>>, sends: seq<Resend>, acked: bool) {
    var last, k, i := LastSent(start, sends), Timed(sends), |sends| - Timed(sends);
    && last <= deadline
    && if acked then i < |rx| && rx[i].at <= Max(last, Min(last + Interval(k), deadline))
       else deadline < last + Interval(k) && (i < |rx| ==> rx[i].at > deadline)
  }

  /** With no message at all the response is sent again after 500, 1500 and 3500 ms, and not again before T4. */
  lemma Unanswered(start: nat, sends: seq<Resend>)
    requires AllDue(start, [], sends) && Ended(start, start + T4, [], sends, false)
    ensures sends == [ByTimer(start + 500), ByTimer(start + 1500), ByTimer(start + 3500)]
  {
    AllTimed(start, sends);
    SendingsTakeTime(start, [], sends);
    var n := |sends|;
    assert Pow2(3) == 8 && Pow2(2) == 4 && Pow2(1) == 2 && Pow2(0) == 1;
    assert Span(1) == 500 && Span(2) == 1500 && Span(3) == 3500;
    ThreeFit(n);
    assert n == 3;
    AllTimed(start, sends[..2]);
    AllTimed(start, sends[..1]);
    SendingsTakeTime(start, [], sends[..2]);
    SendingsTakeTime(start, [], sends[..1]);
    assert sends[..2][..1] == sends[..1] && sends[..3] == sends;
    hide Span, Interval, Pow2;
  }

  lemma {:induction false} AllTimed(start: nat, sends: seq<Resend>)
    requires AllDue(start, [], sends)
    ensures Timed(sends) == |sends| && forall i :: 0 <= i < |sends| ==> sends[i].ByTimer? && AllDue(start, [], sends[..i])
  {
    if sends != [] {
      var before := sends[..|sends| - 1];
      AllTimed(start, before);
      assert forall i :: 0 <= i < |before| ==> before[..i] == sends[..i];
    }
  }

  function Copies(r: Reply, n: nat): seq<Reply> { seq(n, _ => r) }

  lemma CopiesMore(r: Reply, rs: seq<Reply>, n: nat)
    ensures rs + Copies(r, 0) == rs
    ensures (rs + Copies(r, n)) + [r] == rs + Copies(r, n + 1)
  {
  }

  /** The spawned task that answers retransmitted requests until it hears of a state change. */
  class ProvisionalTask {
    const receiver: Receiver<Message>
    const seen: nat
    var reply: Reply
    var tu: seq<Reply>
    var finished: bool

    constructor (receiver: Receiver<Message>, reply: Reply, seen: nat)
      ensures this.receiver == receiver && this.reply == reply && this.seen == seen && tu == [] && !finished
    {
      this.receiver, this.reply, this.seen, tu, finished := receiver, reply, seen, [], false;
    }
  }

  /** How sending a final response goes on: not at all, with nothing more to do, or with a loop on the channel. */
  datatype After = Refused | Done | Loop(channel: Receiver<Message>, deadline: nat)

  class ServerTransaction {
    const verb: Method
    const branch: string
    const reliable: bool
    const machine: StateMachine
    ghost const inbox: Receiver<Message>
    var receiver: Receiver?<Message>
    var handle: ProvisionalTask?
    var now: nat
    var wire: seq<Reply>
    ghost var model: S.Server
    ghost var history: seq<S.Event>

    ghost predicate OnRecord()
      reads this
    {
      model == S.Run(S.Start(verb, branch, reliable), history)
    }

    /** The fields of the task are those that the machine has for it. */
    ghost predicate TaskInStep()
      reads this, handle
    {
      match model.task
      case NoTask => handle == null
      case Finished => handle != null && handle.receiver == inbox && handle.finished
      case Running(reply, tu, seen) =>
        && handle != null && handle.receiver == inbox && !handle.finished
        && handle.reply == reply && handle.tu == tu && handle.seen == seen
    }

    ghost predicate Sound()
      reads this, machine, inbox
    {
      && verb != Ack && machine.Valid() && !inbox.closed && OnRecord()
      && machine.trail == model.trail && wire == model.wire && model.queue == []
    }

    ghost predicate Valid()
      reads this, machine, inbox, handle
    {
      && Sound() && TaskInStep()
      && (receiver != null ==> receiver == inbox) && (receiver != null <==> model.receiver)
      && (model.phase.Idle? ==>
            && (handle == null <==> receiver != null)
            && (handle != null ==> !handle.finished && handle.seen == |machine.trail|)
            && (verb.Invite? ==> machine.state == Proceeding))
    }

    constructor FromRequest(verb: Method, branch: string, reliable: bool, rx: Receiver<Message>, now: nat)
      requires verb != Ack && !rx.closed
      ensures Valid() && model == S.Start(verb, branch, reliable) && inbox == rx && fresh(machine)
      ensures receiver == rx && handle == null && this.now == now && wire == []
      ensures this.verb == verb && this.reliable == reliable
    {
      this.verb, this.branch, this.reliable, inbox := verb, branch, reliable, rx;
      receiver, handle, this.now, wire := rx, null, now, [];
      machine := new StateMachine(if verb.Invite? then Proceeding else Trying);
      model, history := S.Start(verb, branch, reliable), [];
    }

    ghost method Did(e: S.Event)
      requires OnRecord()
      modifies this`model, this`history
      ensures OnRecord() && model == S.Next(old(model), e)
    {
      history := history + [e];
      model := S.Next(model, e);
      assert history[..|history| - 1] == old(history);
    }

    /** The three things a selection can do, put on record. */
    ghost method DidEndTask()
      requires OnRecord() && model.task.Running? && |model.trail| > model.task.seen
      modifies this`model, this`history
      ensures OnRecord() && model == old(model).(task := S.Finished)
    {
      Did(S.Select);
    }

    ghost method DidAdopt()
      requires OnRecord() && model.task.Running? && |model.trail| <= model.task.seen && model.task.tu != []
      modifies this`model, this`history
      ensures OnRecord()
      ensures model == old(model).(task := S.Running(old(model.task.tu)[0], old(model.task.tu)[1..], old(model.task.seen)))
    {
      Did(S.Select);
    }

    ghost method DidAnswer(m: Message)
      requires OnRecord() && model.task.Running? && |model.trail| <= model.task.seen && model.task.tu == []
      requires model.queue == [] && !model.phase.Over? && !model.phase.Panicked?
      modifies this`model, this`history
      ensures OnRecord()
      ensures model == old(model).(arrived := old(model.arrived) + [m], taskTook := old(model.taskTook) + [m],
                                   wire := old(model.wire) + [old(model.task.reply)])
    {
      Did(S.Arrive(m));
      Did(S.Select);
    }

    method Sleep(until: nat)
      requires Valid() && until >= now
      modifies this`now
      ensures Valid() && now == until
    {
      now := until;
    }

    /** A response of the user that is not provisional is refused; nothing happens then. */
    method SendProvisionalResponse(reply: Reply) returns (ok: bool)
      requires Valid() && model.phase.Idle?
      modifies this, machine, handle
      ensures Valid() && model.phase.Idle? && ok == IsProvisional(reply.code)
      ensures ok ==> wire == old(wire) + [reply] && model.queued == old(model.queued) + [reply]
      ensures ok ==> handle != null && receiver == null && machine.state == (if old(handle) == null then Proceeding else old(machine.state))
      ensures !ok ==> model == old(model) && wire == old(wire) && machine.trail == old(machine.trail)
    {
      if !(100 <= reply.code <= 199) {
        return false;
      }
      wire := wire + [reply];
      Did(S.Provisional(reply));
      if handle != null {
        handle.tu := handle.tu + [reply];
      } else {
        SpawnRetransmitProvisionalTask(reply);
      }
      Did(S.Queue);
      ok := true;
    }

    method SpawnRetransmitProvisionalTask(reply: Reply)
      requires receiver != null && machine.Valid()
      modifies this`receiver, this`handle, machine
      ensures machine.Valid() && machine.trail == old(machine.trail) + [Proceeding]
      ensures receiver == null && handle != null && fresh(handle) && handle.receiver == old(receiver) && handle.reply == reply
      ensures handle.tu == [] && !handle.finished && handle.seen == |machine.trail|
    {
      var rx := receiver;
      receiver := null;
      machine.SetState(Proceeding);
      handle := new ProvisionalTask(rx, reply, |machine.trail|);
    }

    /** One biased selection of the task: a state change, else a response of the user, else a message that is there. */
    method TaskSelect()
      requires Valid() && handle != null && !handle.finished && !model.phase.Over? && !model.phase.Panicked?
      modifies this`wire, this`model, this`history, handle, inbox
      ensures Valid() && model.phase == old(model.phase) && receiver == old(receiver)
      ensures if |machine.trail| > handle.seen then
                handle.finished && wire == old(wire) && inbox.rx == old(inbox.rx)
              else if old(handle.tu) != [] then
                && !handle.finished && handle.reply == old(handle.tu)[0] && handle.tu == old(handle.tu)[1..]
                && wire == old(wire) && inbox.rx == old(inbox.rx)
              else
                && !handle.finished && handle.reply == old(handle.reply) && handle.tu == []
                && (if old(inbox.rx) != [] && old(inbox.rx)[0].at <= now then
                      inbox.rx == old(inbox.rx)[1..] && wire == old(wire) + [handle.reply]
                    else
                      inbox.rx == old(inbox.rx) && wire == old(wire))
    {
      hide S.Run, S.Next, S.SelectOne, S.Start;
      if |machine.trail| > handle.seen {
        handle.finished := true;
        DidEndTask();
      } else if handle.tu != [] {
        handle.reply, handle.tu := handle.tu[0], handle.tu[1..];
        DidAdopt();
      } else {
        var got, _ := handle.receiver.Recv(now, Some(now));
        if got.Ready? {
          wire := wire + [handle.reply];
          DidAnswer(got.value.value);
        }
      }
    }

    /** The states that a final response leads to before the channel is waited on. */
    function Settled(code: StatusCode): seq<State> {
      if verb.Invite? && InSuccessRange(code) then [Terminated]
      else if reliable then [Completed, Terminated]
      else [Completed]
    }

    ghost method DidFinal(reply: Reply)
      requires OnRecord() && model.phase.Idle? && IsFinal(reply.code)
      modifies this`model, this`history
      ensures OnRecord()
      ensures model == old(model).(final := Some(reply), wire := old(model.wire) + [reply],
                                   trail := old(model.trail) + Settled(reply.code),
                                   phase := if reliable || (verb.Invite? && InSuccessRange(reply.code)) then S.Over else S.Joining(reply))
    {
      Did(S.Final(reply));
      Did(S.Decide);
    }

    ghost method DidJoin(reply: Reply)
      requires OnRecord() && model.phase == S.Joining(reply) && !model.task.Running? && (model.task.Finished? || model.receiver)
      modifies this`model, this`history
      ensures OnRecord()
      ensures model == old(model).(phase := S.Looping(reply), channel := true, task := S.NoTask,
                                   receiver := if old(model.task).Finished? then old(model.receiver) else false)
    {
      Did(S.Join);
    }

    /**
     * Sends the final response and, if a loop has to follow, waits for the task and takes the channel over from it, or
     * from the transaction if no provisional response was ever sent. A response that is not final is refused.
     */
    method SendFinalResponse(reply: Reply) returns (r: After)
      requires Valid() && model.phase.Idle?
      modifies this, machine, handle, inbox
      ensures r.Refused? <==> !IsFinal(reply.code)
      ensures r.Refused? ==> wire == old(wire) && machine.trail == old(machine.trail)
      ensures !r.Refused? ==> Sound() && wire == old(wire) + [reply] && model.final == Some(reply) && now == old(now)
      ensures !r.Refused? ==> machine.trail == old(machine.trail) + Settled(reply.code)
      ensures r.Done? <==> IsFinal(reply.code) && (reliable || (verb.Invite? && InSuccessRange(reply.code)))
      ensures r.Loop? ==> model.phase == S.Looping(reply) && r.channel == inbox && inbox.rx == old(inbox.rx)
                          && r.deadline == now + (if verb.Invite? then T4 else 64 * T1)
    {
      hide S.Run, S.Next, S.Start;
      if 100 <= reply.code <= 199 {
        return Refused;
      }
      wire := wire + [reply];
      DidFinal(reply);
      if verb.Invite? && 200 <= reply.code < 299 {
        machine.SetState(Terminated);
        return Done;
      }
      machine.SetState(Completed);
      if reliable {
        machine.SetState(Terminated);
        return Done;
      }
      var deadline := now + if verb.Invite? then T4 else T1 * 64;
      var channel := JoinTask(reply);
      r := Loop(channel, deadline);
    }

    /** Waits until the task has seen the state change and returned the channel; without a task, the channel is here. */
    method JoinTask(reply: Reply) returns (channel: Receiver<Message>)
      requires Sound() && TaskInStep() && model.phase == S.Joining(reply)
      requires (receiver != null ==> receiver == inbox) && (receiver != null <==> model.receiver)
      requires (handle == null <==> receiver != null) && (handle != null ==> !handle.finished && handle.seen < |machine.trail|)
      modifies this`receiver, this`handle, this`model, this`history, handle
      ensures Sound() && model.phase == S.Looping(reply) && channel == inbox
      ensures model.trail == old(model.trail) && model.wire == old(model.wire) && model.final == old(model.final)
    {
      if handle != null {
        handle.finished := true;
        DidEndTask();
        channel := handle.receiver;
        handle := null;
      } else {
        channel := receiver;
        receiver := null;
      }
      DidJoin(reply);
    }

    ghost method DidTake(m: Message, reply: Reply)
      requires OnRecord() && model.phase == S.Looping(reply) && model.queue == []
      modifies this`model, this`history
      ensures OnRecord() && model.queue == [] && model.final == old(model.final)
      ensures if verb.Invite? && S.IsAck(m) then
                model.phase == S.Lingering && model.trail == old(model.trail) + [Confirmed] && model.wire == old(model.wire)
              else
                model.phase == old(model.phase) && model.trail == old(model.trail) && model.wire == old(model.wire) + [reply]
    {
      Did(S.Arrive(m));
      Did(S.Take);
    }

    ghost method DidResend(reply: Reply)
      requires OnRecord() && model.phase == S.Looping(reply) && verb.Invite?
      modifies this`model, this`history
      ensures OnRecord() && model == old(model).(wire := old(model.wire) + [reply])
    {
      Did(S.Interval);
    }

    ghost method DidTerminate()
      requires OnRecord() && (model.phase.Looping? || model.phase.Lingering?)
      modifies this`model, this`history
      ensures OnRecord() && model == old(model).(trail := old(model.trail) + [Terminated], phase := S.Over)
    {
      Did(if model.phase.Looping? then S.Deadline else S.Quit);
    }

    /** The next message, if it is there or comes before the limit; else the limit is reached. */
    method Wait(channel: Receiver<Message>, limit: nat) returns (got: Option<Message>)
      requires Sound() && channel == inbox
      modifies this`now, inbox
      ensures Sound()
      ensures got.Some? ==>
                && old(inbox.rx) != [] && got.value == old(inbox.rx)[0].msg && inbox.rx == old(inbox.rx)[1..]
                && now == Max(old(now), old(inbox.rx)[0].at) && old(inbox.rx)[0].at <= Max(old(now), limit)
      ensures got.None? ==>
                && inbox.rx == old(inbox.rx) && now == Max(old(now), limit)
                && (inbox.rx != [] ==> inbox.rx[0].at > Max(old(now), limit))
    {
      hide S.Run;
      var message, later := channel.Recv(now, Some(limit));
      now := later;
      got := if message.Ready? then message.value else None;
    }

    /**
     * The loop of an INVITE server after a final response over unreliable transport, for any deadline and any arrivals:
     * it resends the response after each interval and for each message that is not an ACK, and ends with the first ACK
     * or at the deadline. `sends` are these sendings, each with its time.
     */
    method AwaitAck(channel: Receiver<Message>, deadline: nat, reply: Reply) returns (acked: bool, ghost sends: seq<Resend>)
      requires Sound() && verb.Invite? && model.phase == S.Looping(reply) && channel == inbox && deadline >= now
      modifies this`now, this`wire, this`model, this`history, machine, inbox
      ensures Sound() && model.phase.Over? && model.final == old(model.final)
      ensures machine.trail == old(machine.trail) + (if acked then [Confirmed, Terminated] else [Terminated])
      ensures wire == old(wire) + Copies(reply, |sends|)
      ensures AllDue(old(now), old(inbox.rx), sends) && Ended(old(now), deadline, old(inbox.rx), sends, acked)
      ensures Span(Timed(sends)) <= deadline - old(now) && (deadline - old(now) == T4 ==> Timed(sends) <= 3)
      ensures var took := |sends| - Timed(sends);
              && took <= |old(inbox.rx)| && (forall i :: 0 <= i < took ==> !S.IsAck(old(inbox.rx)[i].msg))
              && inbox.rx == old(inbox.rx)[if acked then took + 1 else took..]
              && (acked ==> S.IsAck(old(inbox.rx)[took].msg))
      ensures now == if acked then Max(LastSent(old(now), sends), old(inbox.rx)[|sends| - Timed(sends)].at) + T4 else deadline
    {
      hide S.Run, S.Next, S.Settle, S.TakeOne, S.Hand, S.SelectOne, Copies, Interval, Span, Pow2, S.IsAck, Sound, OnRecord, AllDue,
        LastSent, Timed;
      ghost var rx, start := channel.rx, now;
      var interval := T1;
      ghost var n, took := 0, 0;
      sends, acked := [], false;
      CopiesMore(reply, wire, 0);
      NextInterval(0);
      NoSendings(start, rx);
      while true
        invariant Sound() && model.phase == S.Looping(reply) && model.final == old(model.final)
        invariant machine.trail == old(machine.trail) && interval == Interval(n)
        invariant wire == old(wire) + Copies(reply, |sends|)
        invariant old(now) + Span(n) <= now <= deadline
        invariant AllDue(start, rx, sends) && LastSent(start, sends) == now && Timed(sends) == n && |sends| == n + took
        invariant took <= |rx| && inbox.rx == rx[took..]
        invariant forall i :: 0 <= i < took ==> !S.IsAck(rx[i].msg)
        decreases |inbox.rx|, deadline - now
      {
        ghost var last := now;
        var fires := now + interval;
        var got := Wait(channel, Min(fires, deadline));
        CopiesMore(reply, old(wire), |sends|);
        NextInterval(n);
        ghost var send := if got.Some? then ByMessage(now) else ByTimer(now);
        OneMoreSending(start, rx, sends, send);
        if got.Some? {
          acked := OnMessage(got.value, reply);
          if acked {
            Linger();
            break;
          }
          sends, took := sends + [send], took + 1;
        } else if now == fires {
          ResendOnTimer(reply);
          interval, n := Min(interval * 2, T2), n + 1;
          sends := sends + [send];
        } else {
          Expire();
          break;
        }
      }
      if deadline - old(now) == T4 { ThreeFit(n); }
    }

    lemma NoSendings(start: nat, rx: seq<Arrival<Message>>)
      ensures AllDue(start, rx, []) && LastSent(start, []) == start && Timed([]) == 0
    {
    }

    method OnMessage(m: Message, reply: Reply) returns (acked: bool)
      requires Sound() && verb.Invite? && model.phase == S.Looping(reply)
      modifies this`wire, this`model, this`history, machine
      ensures Sound() && model.final == old(model.final) && acked == S.IsAck(m)
      ensures if acked then
                model.phase.Lingering? && machine.trail == old(machine.trail) + [Confirmed] && wire == old(wire)
              else
                model.phase == old(model.phase) && machine.trail == old(machine.trail) && wire == old(wire) + [reply]
    {
      hide S.Run, S.Next;
      DidTake(m, reply);
      acked := m.Request? && m.verb.Ack?;
      if acked {
        machine.SetState(Confirmed);
      } else {
        wire := wire + [reply];
      }
    }

    method Repeat(m: Message, reply: Reply)
      requires Sound() && !verb.Invite? && model.phase == S.Looping(reply)
      modifies this`wire, this`model, this`history
      ensures Sound() && model.phase == old(model.phase) && model.final == old(model.final) && wire == old(wire) + [reply]
    {
      hide S.Run, S.Next;
      wire := wire + [reply];
      DidTake(m, reply);
    }

    method ResendOnTimer(reply: Reply)
      requires Sound() && verb.Invite? && model.phase == S.Looping(reply)
      modifies this`wire, this`model, this`history
      ensures Sound() && model.phase == old(model.phase) && model.final == old(model.final) && wire == old(wire) + [reply]
    {
      hide S.Run, S.Next;
      wire := wire + [reply];
      DidResend(reply);
    }

    method Linger()
      requires Sound() && model.phase.Lingering?
      modifies this`now, this`model, this`history, machine
      ensures Sound() && model.phase.Over? && model.final == old(model.final) && now == old(now) + T4
      ensures machine.trail == old(machine.trail) + [Terminated]
    {
      now := now + T4;
      machine.SetState(Terminated);
      DidTerminate();
    }

    method Expire()
      requires Sound() && model.phase.Looping?
      modifies this`model, this`history, machine
      ensures Sound() && model.phase.Over? && model.final == old(model.final) && wire == old(wire)
      ensures machine.trail == old(machine.trail) + [Terminated]
    {
      machine.SetState(Terminated);
      DidTerminate();
    }

    /**
     * The loop of a server for any other method: it repeats the response for every message until the deadline. `times` are the
     * moments at which it is sent.
     */
    method RepeatUntil(channel: Receiver<Message>, deadline: nat, reply: Reply) returns (ghost took: nat, ghost times: seq<nat>)
      requires Sound() && !verb.Invite? && model.phase == S.Looping(reply) && channel == inbox && deadline >= now
      modifies this`now, this`wire, this`model, this`history, machine, inbox
      ensures Sound() && model.phase.Over? && machine.trail == old(machine.trail) + [Terminated]
      ensures wire == old(wire) + Copies(reply, took)
      ensures took <= |old(inbox.rx)| && inbox.rx == old(inbox.rx)[took..] && times == Latests(old(now), old(inbox.rx), took)
      ensures forall i :: 0 <= i < took ==> old(inbox.rx)[i].at <= deadline
      ensures now == deadline && (inbox.rx != [] ==> inbox.rx[0].at > deadline)
    {
      hide S.Run, S.Next, S.Settle, S.TakeOne, S.Hand, S.SelectOne, Copies, S.IsAck;
      ghost var rx := channel.rx;
      took, times := 0, [];
      CopiesMore(reply, wire, 0);
      while true
        invariant took <= |rx| && times == Latests(old(now), rx, took) && now == Latest(old(now), rx, took)
        invariant Sound() && model.phase == S.Looping(reply) && machine.trail == old(machine.trail)
        invariant wire == old(wire) + Copies(reply, took) && now <= deadline
        invariant took <= |rx| && inbox.rx == rx[took..]
        invariant forall i :: 0 <= i < took ==> rx[i].at <= deadline
        decreases |inbox.rx|
      {
        var got := Wait(channel, deadline);
        if got.None? {
          break;
        }
        CopiesMore(reply, old(wire), took);
        Repeat(got.value, reply);
        LatestsMore(old(now), rx, took);
        took, times := took + 1, times + [now];
      }
      Expire();
    }
  }
}
