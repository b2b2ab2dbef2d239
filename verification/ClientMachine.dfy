/**
 * The client transaction as a machine of atomic steps: the calls of its user, the arrivals on its channel, and the
 * moments at which a wait, or the task that absorbs retransmitted responses, looks at the channel or runs into a timer.
 * A timer step carries no time here, so a run may fire it at any moment; the times are in `ClientTransaction`.
 */
module ClientMachine {
  import opened Wrappers
  import opened Fsm
  import opened Messages

  /** Where the user, or the task spawned after the final response, stands. `Over`: the transaction was dropped. */
  datatype Phase = Idle | AwaitProvisional | AwaitFinal | Absorbing | Over | Panicked

  datatype Client = Client(
    verb: Method, branch: string, reliable: bool,
    trail: seq<State>, phase: Phase,
    arrived: seq<Message>, taken: seq<Message>, queue: seq<Message>,
    wire: seq<Message>, provisionals: seq<StatusCode>, final: Option<StatusCode>)
  {
    function State(): State
      requires trail != []
    {
      trail[|trail| - 1]
    }

    function Request(): Message { Message.Request(verb, branch) }

    function AckRequest(): Message { Message.Request(Ack, branch) }

    predicate Waiting() { phase.AwaitProvisional? || phase.AwaitFinal? }

    /** The wait's predicate on the next message. */
    predicate Wanted(m: Message) {
      m.Response? && (if phase.AwaitProvisional? then IsProvisional(m.code) else IsFinal(m.code))
    }
  }

  datatype Event = CallProvisional | CallFinal | Arrive(msg: Message) | Look | Interval | Deadline

  function StartState(verb: Method): State { if verb.Invite? then Calling else Trying }

  function Start(verb: Method, branch: string, reliable: bool): Client {
    Client(verb, branch, reliable, [StartState(verb)], Idle, [], [], [], [Message.Request(verb, branch)], [], None)
  }

  /** The first response to be final: what `receive_final_response` does after its wait. */
  function Finish(c: Client, code: StatusCode): Client
    requires c.trail != []
  {
    var d := c.(final := Some(code));
    if c.reliable || (c.verb.Invite? && InSuccessRange(code) && c.State() in {Calling, Proceeding}) then
      d.(trail := c.trail + [Terminated], phase := Over)
    else if !c.verb.Invite? then
      d.(trail := c.trail + [Completed], phase := Absorbing)
    else if InAckRange(code) then
      d.(trail := c.trail + [Completed], phase := Absorbing, wire := c.wire + [c.AckRequest()])
    else
      d.(trail := c.trail + [Completed], phase := Panicked)
  }

  predicate SameSetting(c: Client, d: Client) {
    d.verb == c.verb && d.branch == c.branch && d.reliable == c.reliable
  }

  /** What a wait returns on the message in front of it, and what its caller does with that. */
  function Take(c: Client): Client
    requires c.trail != [] && c.queue != []
  {
    var m := c.queue[0];
    var d := if c.Wanted(m) then c.(taken := c.taken + [m], queue := c.queue[1..]) else c;
    if c.phase.AwaitFinal? then
      if c.Wanted(m) then Finish(d, m.code) else d.(phase := Over)
    else
      var e := if c.Wanted(m) then d.(provisionals := c.provisionals + [m.code]) else d;
      e.(phase := Idle, trail := if c.State().Proceeding? then c.trail else c.trail + [Proceeding])
  }

  /** The absorbing task: a response makes it repeat the ACK, if there is one; anything else ends it. */
  function Absorb(c: Client): Client
    requires c.queue != []
  {
    var m := c.queue[0];
    var d := c.(taken := c.taken + [m], queue := c.queue[1..]);
    if m.Response? then
      if c.verb.Invite? then d.(wire := c.wire + [c.AckRequest()]) else d
    else
      d.(trail := c.trail + [Terminated], phase := Over)
  }

  /** One step; a step that is not possible in `c` leaves it as it is. */
  function Next(c: Client, e: Event): (d: Client)
    requires c.trail != []
    ensures d.trail != [] && SameSetting(c, d)
  {
    match e
    case CallProvisional =>
      if c.phase.Idle? && Rank(c.State()) <= Rank(Proceeding) then c.(phase := AwaitProvisional) else c
    case CallFinal =>
      if !c.phase.Idle? then c
      else if c.State() in {Calling, Trying, Proceeding} then c.(phase := AwaitFinal)
      else c.(phase := Panicked)
    case Arrive(m) =>
      if c.phase.Over? || c.phase.Panicked? then c else c.(arrived := c.arrived + [m], queue := c.queue + [m])
    case Look =>
      if c.queue == [] then c else if c.Waiting() then Take(c) else if c.phase.Absorbing? then Absorb(c) else c
    case Interval =>
      if c.Waiting() && !c.reliable && c.State() in {Calling, Trying} then c.(wire := c.wire + [c.Request()]) else c
    case Deadline =>
      if c.phase.Absorbing? || (c.Waiting() && !(c.State().Proceeding? && c.verb.Invite?)) then
        c.(trail := c.trail + [Terminated], phase := Over)
      else c
  }

  function Run(c: Client, es: seq<Event>): (r: Client)
    requires c.trail != []
    ensures r.trail != [] && SameSetting(c, r)
  {
    if es == [] then c else Next(Run(c, es[..|es| - 1]), es[|es| - 1])
  }

  /** How often `m` is in `ms`. */
  function Count(m: Message, ms: seq<Message>): nat {
    if ms == [] then 0 else Count(m, ms[..|ms| - 1]) + if ms[|ms| - 1] == m then 1 else 0
  }

  /** How many of the messages absorbed after the final response were responses. */
  function Responses(ms: seq<Message>): nat {
    if ms == [] then 0 else Responses(ms[..|ms| - 1]) + if ms[|ms| - 1].Response? then 1 else 0
  }

  /** The moves a client transaction can make. */
  predicate Edge(verb: Method, a: State, b: State) {
    || (a == StartState(verb) && b in {Proceeding, Completed, Terminated})
    || (a == Proceeding && b in {Completed, Terminated})
    || (a == Completed && b == Terminated)
  }

  ghost predicate AlongEdges(verb: Method, trail: seq<State>) {
    && trail != [] && trail[0] == StartState(verb)
    && forall i :: 0 < i < |trail| ==> Edge(verb, trail[i - 1], trail[i])
  }

  /** The last move was from Proceeding straight to Terminated. */
  predicate LeapsFromProceeding(trail: seq<State>) {
    |trail| >= 2 && trail[|trail| - 2].Proceeding? && trail[|trail| - 1].Terminated?
  }

  /** An ACK is for an INVITE on unreliable transport whose final response is in the asserted range. */
  predicate Acknowledges(c: Client) {
    c.verb.Invite? && !c.reliable && c.final.Some? && InAckRange(c.final.value)
  }

  /** The provisional responses were taken first, in order, then the final one, and then what the task absorbed. */
  ghost predicate TakenInOrder(c: Client) {
    var n := |c.provisionals|;
    && n <= |c.taken|
    && (forall i :: 0 <= i < n ==>
        c.taken[i].Response? && IsProvisional(c.taken[i].code) && c.taken[i].code == c.provisionals[i])
    && match c.final
       case None => |c.taken| == n
       case Some(code) => |c.taken| > n && c.taken[n].Response? && IsFinal(code) && c.taken[n].code == code
  }

  ghost predicate QueueInv(c: Client) {
    && c.taken + c.queue == c.arrived
    && TakenInOrder(c)
  }

  /** One original request at first, and ACKs exactly as `Acknowledges` has it. */
  ghost predicate WireInv(c: Client) {
    && c.verb != Ack
    && (c.reliable ==> Count(c.Request(), c.wire) == 1)
    && (forall m :: m in c.wire ==> m == c.Request() || m == c.AckRequest())
    && |c.provisionals| <= |c.taken|
    && (if Acknowledges(c) then
          |c.provisionals| < |c.taken|
          && Count(c.AckRequest(), c.wire) == 1 + Responses(c.taken[|c.provisionals| + 1..])
        else
          Count(c.AckRequest(), c.wire) == 0)
  }

  ghost predicate PhaseInv(c: Client) {
    && AlongEdges(c.verb, c.trail)
    && !c.phase.Panicked?
    && (c.phase.Idle? || c.Waiting() ==> c.final.None? && (c.State() == StartState(c.verb) || c.State() == Proceeding))
    && (c.phase.Absorbing? ==> c.final.Some? && c.State().Completed? && !c.reliable
                               && (c.verb.Invite? ==> InAckRange(c.final.value)))
    && (c.final.Some? && !c.phase.Absorbing? ==> c.phase.Over? && c.State().Terminated?)
    && (c.verb.Invite? && c.final.Some? ==> InSuccessRange(c.final.value) != InAckRange(c.final.value))
    && (c.verb.Invite? && LeapsFromProceeding(c.trail) ==> c.final.Some?)
  }

  ghost predicate Inv(c: Client) {
    PhaseInv(c) && QueueInv(c) && WireInv(c)
  }

  /** The look that ends the wait for the final response. */
  lemma LookForFinal(c: Client, m: Message)
    requires c.trail != [] && c.phase.AwaitFinal? && c.queue == [m]
    ensures var e := Next(c, Look);
            && e.provisionals == c.provisionals
            && (if m.Response? && IsFinal(m.code) then
                  var d := Finish(c, m.code);
                  e.queue == [] && e.final == d.final && e.phase == d.phase && e.trail == d.trail && e.wire == d.wire
                else
                  e == c.(phase := Over))
  {
  }

  lemma StartInv(verb: Method, branch: string, reliable: bool)
    requires verb != Ack
    ensures Inv(Start(verb, branch, reliable))
  {
  }

  lemma CountPush(m: Message, ms: seq<Message>, x: Message)
    ensures Count(m, ms + [x]) == Count(m, ms) + if x == m then 1 else 0
  {
    assert (ms + [x])[..|ms|] == ms;
  }

  lemma FinishPhaseInv(c: Client)
    requires PhaseInv(c) && c.phase.AwaitFinal? && c.queue != [] && c.Wanted(c.queue[0])
    ensures PhaseInv(Take(c))
  {
    FinalCodeRanges(c.queue[0].code);
  }

  /** Taking a message off the queue loses nothing. */
  lemma TakenFromQueue(taken: seq<Message>, queue: seq<Message>)
    requires queue != []
    ensures (taken + [queue[0]]) + queue[1..] == taken + queue
  {
  }

  lemma FinishQueueInv(c: Client)
    requires QueueInv(c) && c.final.None? && c.phase.AwaitFinal? && c.trail != [] && c.queue != [] && c.Wanted(c.queue[0])
    ensures QueueInv(Take(c))
  {
    TakenFromQueue(c.taken, c.queue);
  }

  lemma FinishWireInv(c: Client)
    requires WireInv(c) && TakenInOrder(c) && PhaseInv(c)
    requires c.phase.AwaitFinal? && c.queue != [] && c.Wanted(c.queue[0])
    ensures WireInv(Take(c))
  {
    var m, r := c.queue[0], Take(c);
    FinalCodeRanges(m.code);
    CountPush(c.AckRequest(), c.wire, c.AckRequest());
    CountPush(c.Request(), c.wire, c.AckRequest());
    assert r.taken[|r.provisionals| + 1..] == [];
    assert Responses([]) == 0;
    hide Count, Responses, AlongEdges, InAckRange, InSuccessRange;
  }

  lemma ProvisionalQueueInv(c: Client)
    requires QueueInv(c) && c.final.None? && c.phase.AwaitProvisional? && c.trail != [] && c.queue != []
    ensures QueueInv(Take(c))
  {
    TakenFromQueue(c.taken, c.queue);
  }

  /** Leaving a wait for a provisional response always ends in Proceeding, with a response or without. */
  lemma ProvisionalInv(c: Client)
    requires Inv(c) && c.phase.AwaitProvisional? && c.queue != []
    ensures Inv(Take(c))
  {
    ProvisionalQueueInv(c);
    hide QueueInv, TakenInOrder, Count, Responses, InAckRange, InSuccessRange;
  }

  lemma AbsorbQueueInv(c: Client)
    requires QueueInv(c) && c.final.Some? && c.queue != []
    ensures QueueInv(Absorb(c))
  {
    TakenFromQueue(c.taken, c.queue);
    var r := Absorb(c);
    assert forall i :: 0 <= i < |c.taken| ==> r.taken[i] == c.taken[i];
  }

  lemma AbsorbWireInv(c: Client)
    requires WireInv(c) && c.queue != [] && |c.provisionals| < |c.taken|
    requires c.final.Some? && !c.reliable && (c.verb.Invite? ==> InAckRange(c.final.value))
    ensures WireInv(Absorb(c))
  {
    hide Count, Responses, InAckRange;
    var m, n, r := c.queue[0], |c.provisionals| + 1, Absorb(c);
    assert r.taken[n..] == c.taken[n..] + [m];
    ResponsesPush(c.taken[n..], m);
    CountPush(c.AckRequest(), c.wire, c.AckRequest());
    assert forall x :: x in r.wire ==> x in c.wire || x == c.AckRequest();
  }

  lemma ResponsesPush(ms: seq<Message>, m: Message)
    ensures Responses(ms + [m]) == Responses(ms) + if m.Response? then 1 else 0
  {
    assert (ms + [m])[..|ms|] == ms;
  }

  lemma LookInv(c: Client)
    requires Inv(c)
    ensures Inv(Next(c, Look))
  {
    hide Count, Responses, InAckRange, InSuccessRange;
    if c.queue != [] {
      if c.phase.AwaitProvisional? {
        ProvisionalInv(c);
      } else if c.phase.AwaitFinal? && c.Wanted(c.queue[0]) {
        FinishPhaseInv(c);
        FinishQueueInv(c);
        FinishWireInv(c);
      } else if c.phase.Absorbing? {
        AbsorbQueueInv(c);
        AbsorbWireInv(c);
      }
    }
  }

  lemma NextInv(c: Client, e: Event)
    requires Inv(c)
    ensures Inv(Next(c, e))
  {
    match e
    case Look =>
      hide Inv;
      LookInv(c);
    case Interval =>
      hide Inv;
      IntervalKeeps(c);
    case Arrive(m) =>
      assert c.taken + (c.queue + [m]) == (c.taken + c.queue) + [m];
      hide WireInv, PhaseInv;
      ArriveKeeps(c, m);
    case _ =>
      hide Inv;
      ShortKeeps(c, e);
  }

  lemma IntervalKeeps(c: Client)
    requires Inv(c)
    ensures Inv(Next(c, Interval))
  {
    CountPush(c.AckRequest(), c.wire, c.Request());
    SameQueue(c, Next(c, Interval));
    hide Count, Responses, QueueInv, AlongEdges, InAckRange, InSuccessRange;
  }

  lemma SameQueue(c: Client, d: Client)
    requires QueueInv(c) && d.taken == c.taken && d.queue == c.queue && d.arrived == c.arrived
    requires d.provisionals == c.provisionals && d.final == c.final
    ensures QueueInv(d)
  {
  }

  lemma ShortKeeps(c: Client, e: Event)
    requires Inv(c) && (e.CallProvisional? || e.CallFinal? || e.Deadline?)
    ensures Inv(Next(c, e))
  {
    SameQueue(c, Next(c, e));
    hide Count, Responses, QueueInv, InAckRange, InSuccessRange;
  }

  lemma ArriveKeeps(c: Client, m: Message)
    requires WireInv(c) && PhaseInv(c)
    ensures var d := c.(arrived := c.arrived + [m], queue := c.queue + [m]); WireInv(d) && PhaseInv(d)
  {
    hide Count, Responses;
  }

  lemma {:induction false} RunInv(verb: Method, branch: string, reliable: bool, es: seq<Event>)
    requires verb != Ack
    ensures Inv(Run(Start(verb, branch, reliable), es))
  {
    if es == [] {
      StartInv(verb, branch, reliable);
    } else {
      RunInv(verb, branch, reliable, es[..|es| - 1]);
      NextInv(Run(Start(verb, branch, reliable), es[..|es| - 1]), es[|es| - 1]);
    }
  }

  /**
   * For every user and every schedule: the states go along the edges of section 17.1 of RFC 3261, always upwards, an
   * INVITE client is never Trying and no client is ever Confirmed, and an INVITE client goes from Proceeding to
   * Terminated only with a final response, never by a timer.
   */
  lemma StatesOfEveryRun(verb: Method, branch: string, reliable: bool, es: seq<Event>)
    requires verb != Ack
    ensures var c := Run(Start(verb, branch, reliable), es);
            && AlongEdges(verb, c.trail)
            && (forall i, j :: 0 <= i < j < |c.trail| ==> Rank(c.trail[i]) < Rank(c.trail[j]))
            && Confirmed !in c.trail && (verb.Invite? ==> Trying !in c.trail)
            && (verb.Invite? && LeapsFromProceeding(c.trail) ==> c.final.Some?)
  {
    hide Run, Next, Count, Responses;
    RunInv(verb, branch, reliable, es);
    var trail := Run(Start(verb, branch, reliable), es).trail;
    EdgesGoUp(verb, trail);
    assert trail[0] == StartState(verb);
    forall i | 0 <= i < |trail|
      ensures trail[i] != Confirmed && (verb.Invite? ==> trail[i] != Trying)
    {
      assert i == 0 || Edge(verb, trail[i - 1], trail[i]);
    }
  }

  lemma {:induction false} EdgesGoUp(verb: Method, trail: seq<State>)
    requires AlongEdges(verb, trail)
    ensures forall i, j :: 0 <= i < j < |trail| ==> Rank(trail[i]) < Rank(trail[j])
  {
    if |trail| > 1 {
      EdgesGoUp(verb, trail[..|trail| - 1]);
      assert Edge(verb, trail[|trail| - 2], trail[|trail| - 1]);
    }
  }

  /**
   * For every user and every schedule: neither the assertion on the status code of an ACK nor the unreachable arm of
   * the wait is ever hit, and an INVITE answered with 300-699 over unreliable transport is acknowledged once and then
   * once more for each response absorbed; nothing else is ever acknowledged.
   */
  lemma AcknowledgementsOfEveryRun(verb: Method, branch: string, reliable: bool, es: seq<Event>)
    requires verb != Ack
    ensures var c := Run(Start(verb, branch, reliable), es);
            && !c.phase.Panicked?
            && (c.final.Some? ==> |c.provisionals| < |c.taken|)
            && Count(c.AckRequest(), c.wire)
                 == (if verb.Invite? && !reliable && c.final.Some? && 300 <= c.final.value <= 699
                     then 1 + Responses(c.taken[|c.provisionals| + 1..]) else 0)
  {
    RunInv(verb, branch, reliable, es);
  }

  /**
   * For every user and every schedule: what has been taken and what is still queued make up the arrivals, in order,
   * and if a final response was returned then it is the arrival right after the provisional ones that were returned.
   */
  lemma ResponsesInArrivalOrder(verb: Method, branch: string, reliable: bool, es: seq<Event>)
    requires verb != Ack
    ensures var c := Run(Start(verb, branch, reliable), es);
            var n := |c.provisionals|;
            && c.taken + c.queue == c.arrived
            && n <= |c.arrived|
            && (forall i :: 0 <= i < n ==> c.arrived[i].Response? && IsProvisional(c.arrived[i].code)
                                            && c.arrived[i].code == c.provisionals[i])
            && (c.final.Some? ==> n < |c.arrived| && c.arrived[n].Response? && c.arrived[n].code == c.final.value
                                  && IsFinal(c.final.value))
  {
    RunInv(verb, branch, reliable, es);
    var c := Run(Start(verb, branch, reliable), es);
    assert forall i :: 0 <= i < |c.taken| ==> c.taken[i] == c.arrived[i];
  }

  lemma NextAfterProgress(c: Client, e: Event)
    requires PhaseInv(c) && c.verb != Ack && Rank(c.State()) >= Rank(Proceeding)
    ensures Rank(Next(c, e).State()) >= Rank(Proceeding)
    ensures Count(c.Request(), Next(c, e).wire) == Count(c.Request(), c.wire)
  {
    CountPush(c.Request(), c.wire, c.AckRequest());
  }

  /** Once a client has left Calling and Trying, its request is never sent again. */
  lemma {:induction false} NoRequestAfterProgress(c: Client, es: seq<Event>)
    requires Inv(c) && Rank(c.State()) >= Rank(Proceeding)
    ensures Inv(Run(c, es)) && Rank(Run(c, es).State()) >= Rank(Proceeding)
    ensures Count(c.Request(), Run(c, es).wire) == Count(c.Request(), c.wire)
  {
    if es != [] {
      var d, e := Run(c, es[..|es| - 1]), es[|es| - 1];
      NoRequestAfterProgress(c, es[..|es| - 1]);
      NextInv(d, e);
      NextAfterProgress(d, e);
    }
  }

  /** The user who asks for provisional responses until there is none and then for the final one. */
  datatype Collector = Collector(c: Client, refused: bool)

  /** The call that is due, whichever call the schedule has. */
  function Due(u: Collector, e: Event): Event {
    if e.CallProvisional? || e.CallFinal? then (if u.refused then CallFinal else CallProvisional) else e
  }

  function CollectorNext(u: Collector, e: Event): (v: Collector)
    requires u.c.trail != []
    ensures v.c.trail != []
  {
    var d := Next(u.c, Due(u, e));
    Collector(d, u.refused || (u.c.phase.AwaitProvisional? && d.phase.Idle? && d.provisionals == u.c.provisionals))
  }

  function CollectorRun(u: Collector, es: seq<Event>): (v: Collector)
    requires u.c.trail != []
    ensures v.c.trail != []
  {
    if es == [] then u else CollectorNext(CollectorRun(u, es[..|es| - 1]), es[|es| - 1])
  }

  predicate IsEarly(m: Message) { m.Response? && IsProvisional(m.code) }

  predicate AllEarly(ms: seq<Message>) { forall i :: 0 <= i < |ms| ==> IsEarly(ms[i]) }

  /** How many messages at the front are provisional responses. */
  function Leading(ms: seq<Message>): (n: nat)
    ensures n <= |ms| && (forall i :: 0 <= i < n ==> IsEarly(ms[i])) && (n < |ms| ==> !IsEarly(ms[n]))
  {
    if ms == [] || !IsEarly(ms[0]) then 0 else 1 + Leading(ms[1..])
  }

  /** Whether the wait for the final response ended with the error that something else is in front. */
  predicate Failed(c: Client)
    requires c.trail != []
  {
    c.phase.Over? && c.final.None? && !c.State().Terminated?
  }

  ghost predicate CollectorInv(u: Collector) {
    var c := u.c;
    && Inv(c)
    && (c.phase.AwaitFinal? || c.final.Some? || Failed(c) ==> u.refused)
    && (u.refused ==> !c.phase.AwaitProvisional? && |c.provisionals| == Leading(c.arrived) < |c.arrived|)
    && (Failed(c) ==> !c.arrived[|c.provisionals|].Response?)
  }

  /** As long as there is no final response, the next message to take is behind the provisional ones. */
  lemma FrontIs(c: Client)
    requires QueueInv(c) && c.final.None?
    ensures |c.provisionals| <= Leading(c.arrived) && |c.provisionals| + |c.queue| == |c.arrived|
    ensures c.queue != [] ==> c.queue[0] == c.arrived[|c.provisionals|]
  {
    assert forall i :: 0 <= i < |c.taken| ==> c.arrived[i] == c.taken[i];
    assert forall i :: 0 <= i < |c.provisionals| ==> IsEarly(c.arrived[i]);
  }

  lemma LeadingIs(ms: seq<Message>, n: nat)
    requires n < |ms| && !IsEarly(ms[n])
    ensures Leading(ms) <= n
  {
  }

  lemma LeadingGrows(ms: seq<Message>, m: Message)
    requires Leading(ms) < |ms|
    ensures Leading(ms + [m]) == Leading(ms)
  {
    assert forall i :: 0 <= i < |ms| ==> (ms + [m])[i] == ms[i];
  }

  lemma CollectorStep(u: Collector, e: Event)
    requires CollectorInv(u)
    ensures CollectorInv(CollectorNext(u, e))
  {
    NextInv(u.c, Due(u, e));
    hide Inv, Next, Leading;
    match e
    case Arrive(m) => CollectorArrives(u, m);
    case Look => CollectorLooks(u);
    case _ => CollectorElse(u, e);
  }

  lemma CollectorArrives(u: Collector, m: Message)
    requires CollectorInv(u) && Inv(Next(u.c, Arrive(m)))
    ensures CollectorInv(CollectorNext(u, Arrive(m)))
  {
    hide Inv, Leading;
    if u.refused { LeadingGrows(u.c.arrived, m); }
  }

  lemma CollectorElse(u: Collector, e: Event)
    requires CollectorInv(u) && !e.Arrive? && !e.Look? && Inv(Next(u.c, Due(u, e)))
    ensures CollectorInv(CollectorNext(u, e))
  {
    PhaseOfInv(u.c);
    hide Inv, Leading, InSuccessRange, InAckRange;
  }

  lemma PhaseOfInv(c: Client)
    requires Inv(c)
    ensures QueueInv(c) && c.trail != [] && !c.phase.Panicked?
    ensures c.phase.Idle? || c.Waiting() ==> c.final.None? && c.State() in {Calling, Trying, Proceeding}
    ensures c.phase.Absorbing? ==> c.final.Some?
    ensures c.phase.Over? ==> c.final.None? || c.State().Terminated?
  {
  }

  lemma CollectorLooks(u: Collector)
    requires CollectorInv(u) && Inv(Next(u.c, Look))
    ensures CollectorInv(CollectorNext(u, Look))
  {
    var c := u.c;
    PhaseOfInv(c);
    PhaseOfInv(Next(c, Look));
    hide Inv, Leading, InSuccessRange, InAckRange, Absorb, Take, QueueInv;
    if c.queue != [] && c.Waiting() {
      CollectorTakes(u);
    } else if c.queue != [] && c.phase.Absorbing? {
      AbsorbKeeps(c);
    }
  }

  lemma CollectorTakes(u: Collector)
    requires u.c.trail != [] && CollectorInv(u) && Inv(Next(u.c, Look)) && QueueInv(u.c)
    requires u.c.final.None? && u.c.Waiting() && u.c.queue != []
    ensures CollectorInv(CollectorNext(u, Look))
  {
    var c := u.c;
    hide Inv, Leading, InSuccessRange, InAckRange, Absorb, QueueInv, TakenInOrder, Take;
    FrontIs(c);
    if !IsEarly(c.queue[0]) { LeadingIs(c.arrived, |c.provisionals|); }
    if c.phase.AwaitProvisional? { TakenProvisional(c); } else { TakenFinal(c); }
  }

  lemma TakenProvisional(c: Client)
    requires c.trail != [] && c.queue != [] && c.phase.AwaitProvisional?
    ensures var d := Take(c);
            && d.phase.Idle? && d.final == c.final && d.arrived == c.arrived
            && |d.provisionals| == |c.provisionals| + if IsEarly(c.queue[0]) then 1 else 0
  {
  }

  lemma TakenFinal(c: Client)
    requires c.trail != [] && c.queue != [] && c.phase.AwaitFinal?
    ensures var d := Take(c);
            && d.provisionals == c.provisionals && d.arrived == c.arrived && !d.phase.AwaitProvisional? && !d.phase.Idle?
            && (c.queue[0].Response? && IsFinal(c.queue[0].code) ==> d.final.Some?)
  {
  }

  lemma AbsorbKeeps(c: Client)
    requires c.trail != []
    ensures c.queue != [] ==>
              var d := Absorb(c);
              && d.provisionals == c.provisionals && d.final == c.final && d.arrived == c.arrived
              && (d.phase == c.phase || d.phase.Over?)
  {
  }

  /**
   * For every schedule, with arrivals, intervals and timeouts anywhere between the calls: that user is handed nothing but
   * leading provisional responses, in order; the final response is the first message that is no provisional response, after
   * all of them; and it ends without one only by a timeout, or because that message is not a response at all.
   */
  lemma CollectorGetsAll(verb: Method, branch: string, reliable: bool, es: seq<Event>)
    requires verb != Ack
    ensures var c := CollectorRun(Collector(Start(verb, branch, reliable), false), es).c;
            var n := Leading(c.arrived);
            && !c.phase.Panicked? && |c.provisionals| <= n
            && (forall i :: 0 <= i < |c.provisionals| ==> c.arrived[i].Response? && c.provisionals[i] == c.arrived[i].code)
            && (c.final.Some? ==>
                  |c.provisionals| == n < |c.arrived| && c.arrived[n].Response? && c.arrived[n].code == c.final.value)
            && (c.phase.Over? && c.final.None? ==>
                  c.State().Terminated? || (|c.provisionals| == n < |c.arrived| && !c.arrived[n].Response?))
  {
    hide CollectorRun, Next, Leading;
    CollectorRunInv(verb, branch, reliable, es);
    var c := CollectorRun(Collector(Start(verb, branch, reliable), false), es).c;
    hide Inv;
    PhaseOfInv(c);
    TakenIsArrived(c);
    if c.final.None? { FrontIs(c); }
  }

  lemma TakenIsArrived(c: Client)
    requires QueueInv(c)
    ensures var n := |c.provisionals|;
            && n <= |c.arrived|
            && (forall i :: 0 <= i < n ==> c.arrived[i].Response? && c.provisionals[i] == c.arrived[i].code)
            && (c.final.Some? ==> n < |c.arrived| && c.arrived[n].Response? && c.arrived[n].code == c.final.value)
  {
    assert forall i :: 0 <= i < |c.taken| ==> c.arrived[i] == c.taken[i];
  }

  lemma {:induction false} CollectorRunInv(verb: Method, branch: string, reliable: bool, es: seq<Event>)
    requires verb != Ack
    ensures CollectorInv(CollectorRun(Collector(Start(verb, branch, reliable), false), es))
  {
    var u := Collector(Start(verb, branch, reliable), false);
    if es == [] {
      StartInv(verb, branch, reliable);
    } else {
      hide CollectorNext, CollectorInv;
      CollectorRunInv(verb, branch, reliable, es[..|es| - 1]);
      CollectorStep(CollectorRun(u, es[..|es| - 1]), es[|es| - 1]);
    }
  }

  lemma {:induction false} CollectorAppend(u: Collector, es: seq<Event>, fs: seq<Event>)
    requires u.c.trail != []
    ensures CollectorRun(u, es + fs) == CollectorRun(CollectorRun(u, es), fs)
  {
    hide CollectorNext;
    if fs == [] {
      assert es + fs == es;
    } else {
      CollectorAppend(u, es, fs[..|fs| - 1]);
      assert (es + fs)[..|es + fs| - 1] == es + fs[..|fs| - 1];
    }
  }

  /** What may happen while a call waits: messages come, and intervals run out. */
  predicate Meanwhile(es: seq<Event>) { forall e :: e in es ==> e.Arrive? || e.Interval? }

  function Arrivals(es: seq<Event>): seq<Message> {
    if es == [] then [] else Arrivals(es[..|es| - 1]) + if es[|es| - 1].Arrive? then [es[|es| - 1].msg] else []
  }

  /** A call, what happens meanwhile, and the end of the wait. */
  function Round(es: seq<Event>): seq<Event> { [CallProvisional] + es + [Look] }

  function Rounds(rounds: seq<seq<Event>>): seq<Event> {
    if rounds == [] then [] else Round(rounds[0]) + Rounds(rounds[1..])
  }

  function AllArrivals(rounds: seq<seq<Event>>): seq<Message> {
    if rounds == [] then [] else Arrivals(rounds[0]) + AllArrivals(rounds[1..])
  }

  /** At the end of each round there is a message; the last two rounds, of which the first is in vain, share one. */
  predicate Fed(queued: nat, rounds: seq<seq<Event>>)
    decreases |rounds|
  {
    rounds == [] || (
      var n := queued + |Arrivals(rounds[0])|;
      n > 0 && Fed(if |rounds| == 2 then n else n - 1, rounds[1..]))
  }

  lemma {:induction false} WhileWaiting(u: Collector, es: seq<Event>)
    requires u.c.trail != [] && u.c.Waiting() && Meanwhile(es)
    ensures var v := CollectorRun(u, es);
            && v.refused == u.refused && v.c.phase == u.c.phase && v.c.trail == u.c.trail
            && v.c.queue == u.c.queue + Arrivals(es)
            && v.c.provisionals == u.c.provisionals && v.c.taken == u.c.taken && v.c.final == u.c.final
  {
    hide CollectorNext;
    if es == [] {
      assert u.c.queue + Arrivals(es) == u.c.queue;
    } else {
      var e := es[|es| - 1];
      WhileWaiting(u, es[..|es| - 1]);
      assert e in es;
      MeanwhileStep(CollectorRun(u, es[..|es| - 1]), e);
      Regroup(u.c.queue, Arrivals(es[..|es| - 1]), if e.Arrive? then [e.msg] else []);
    }
  }

  lemma Regroup<T>(a: seq<T>, b: seq<T>, c: seq<T>)
    ensures (a + b) + c == a + (b + c)
  {
  }

  lemma MeanwhileStep(u: Collector, e: Event)
    requires u.c.trail != [] && u.c.Waiting() && (e.Arrive? || e.Interval?)
    ensures var v := CollectorNext(u, e);
            && v.refused == u.refused && v.c.phase == u.c.phase && v.c.trail == u.c.trail
            && v.c.queue == u.c.queue + (if e.Arrive? then [e.msg] else [])
            && v.c.provisionals == u.c.provisionals && v.c.taken == u.c.taken && v.c.final == u.c.final
  {
  }

  /** One round of the user, with `m` in front at its end. */
  lemma OneRound(u: Collector, es: seq<Event>, m: Message)
    requires u.c.trail != [] && u.c.phase.Idle? && u.c.State() in {Calling, Trying, Proceeding} && Meanwhile(es)
    requires u.c.queue + Arrivals(es) != [] && m == (u.c.queue + Arrivals(es))[0] && m.Response? && (u.refused ==> !IsEarly(m))
    ensures var v := CollectorRun(u, Round(es));
            && v.refused == (u.refused || !IsEarly(m))
            && (if u.refused then v.c.final == Some(m.code)
                else v.c.phase.Idle? && v.c.State().Proceeding? && v.c.final == u.c.final)
            && v.c.provisionals == u.c.provisionals + (if IsEarly(m) then [m.code] else [])
            && (if u.refused || IsEarly(m) then
                  v.c.taken == u.c.taken + [m] && v.c.queue == (u.c.queue + Arrivals(es))[1..]
                else
                  v.c.taken == u.c.taken && v.c.queue == u.c.queue + Arrivals(es))
  {
    hide CollectorRun, Next, Arrivals;
    var a := CollectorNext(u, CallProvisional);
    Called(u);
    OneStep(u, CallProvisional);
    CollectorAppend(u, [CallProvisional], es);
    WhileWaiting(a, es);
    var b := CollectorRun(a, es);
    CollectorAppend(u, [CallProvisional] + es, [Look]);
    OneStep(b, Look);
    assert a.c.queue + Arrivals(es) == u.c.queue + Arrivals(es);
    LookedAt(b, m);
  }

  lemma OneStep(u: Collector, e: Event)
    requires u.c.trail != []
    ensures CollectorRun(u, [e]) == CollectorNext(u, e)
  {
    assert [e][..0] == [];
    assert CollectorRun(u, []) == u;
  }

  lemma Called(u: Collector)
    requires u.c.trail != [] && u.c.phase.Idle? && u.c.State() in {Calling, Trying, Proceeding}
    ensures CollectorNext(u, CallProvisional)
         == u.(c := u.c.(phase := if u.refused then AwaitFinal else AwaitProvisional))
  {
  }

  lemma LookedAt(u: Collector, m: Message)
    requires u.c.trail != [] && u.c.Waiting() && (u.c.phase.AwaitFinal? <==> u.refused)
    requires u.c.queue != [] && m == u.c.queue[0] && m.Response? && (u.refused ==> !IsEarly(m))
    ensures var v := CollectorNext(u, Look);
            && v.refused == (u.refused || !IsEarly(m))
            && (if u.refused then v.c.final == Some(m.code)
                else v.c.phase.Idle? && v.c.State().Proceeding? && v.c.final == u.c.final)
            && v.c.provisionals == u.c.provisionals + (if IsEarly(m) then [m.code] else [])
            && (if u.refused || IsEarly(m) then v.c.taken == u.c.taken + [m] && v.c.queue == u.c.queue[1..]
                else v.c.taken == u.c.taken && v.c.queue == u.c.queue)
  {
  }

  function Codes(ms: seq<Message>): seq<StatusCode>
    requires AllEarly(ms)
  {
    if ms == [] then [] else [ms[0].code] + Codes(ms[1..])
  }

  /** `d` came from `c` by taking `early` as provisional responses and `last` as the final one. */
  ghost predicate Gathered(c: Client, d: Client, early: seq<Message>, last: Message, rest: seq<Message>)
    requires AllEarly(early)
    requires last.Response?
  {
    && d.provisionals == c.provisionals + Codes(early) && d.final == Some(last.code)
    && d.taken == c.taken + early + [last] && d.queue == rest
  }

  lemma GatheredOneMore(c: Client, b: Client, d: Client, early: seq<Message>, last: Message, rest: seq<Message>)
    requires early != [] && AllEarly(early) && last.Response?
    requires b.provisionals == c.provisionals + [early[0].code] && b.taken == c.taken + [early[0]]
    requires Gathered(b, d, early[1..], last, rest)
    ensures Gathered(c, d, early, last, rest)
  {
    assert early == [early[0]] + early[1..];
  }

  /** The state in which that user makes its next call. */
  ghost predicate Ready(u: Collector) {
    u.c.trail != [] && u.c.phase.Idle? && u.c.State() in {Calling, Trying, Proceeding}
  }

  /**
   * That user also gets there: as many rounds as there are provisional responses, one in vain and one for the final
   * response are enough, whatever arrives and however many intervals run out while its calls wait, if at the end of each
   * round there is a message.
   */
  lemma {:induction false} CollectGetsAll(u: Collector, rounds: seq<seq<Event>>, early: seq<Message>, last: Message, rest: seq<Message>)
    requires Ready(u) && !u.refused
    requires |rounds| == |early| + 2 && (forall r :: r in rounds ==> Meanwhile(r)) && Fed(|u.c.queue|, rounds)
    requires u.c.queue + AllArrivals(rounds) == early + [last] + rest
    requires AllEarly(early)
    requires last.Response? && IsFinal(last.code)
    ensures Gathered(u.c, CollectorRun(u, Rounds(rounds)).c, early, last, rest)
    decreases |early|
  {
    hide CollectorRun, Round, Arrivals;
    assert rounds[0] in rounds;
    var now := u.c.queue + Arrivals(rounds[0]);
    var m := now[0];
    assert m == (early + [last] + rest)[0];
    assert IsEarly(m) <==> early != [];
    assert now + AllArrivals(rounds[1..]) == u.c.queue + AllArrivals(rounds);
    OneRound(u, rounds[0], m);
    CollectorAppend(u, Round(rounds[0]), Rounds(rounds[1..]));
    var v := CollectorRun(u, Round(rounds[0]));
    if early == [] {
      assert early + [last] + rest == [last] + rest;
      LastRound(v, rounds[1..], last, rest);
    } else {
      assert now[1..] + AllArrivals(rounds[1..]) == (now + AllArrivals(rounds[1..]))[1..];
      assert now[1..] + AllArrivals(rounds[1..]) == early[1..] + [last] + rest;
      CollectGetsAll(v, rounds[1..], early[1..], last, rest);
      GatheredOneMore(u.c, v.c, CollectorRun(u, Rounds(rounds)).c, early, last, rest);
    }
  }

  lemma LastRound(u: Collector, rounds: seq<seq<Event>>, last: Message, rest: seq<Message>)
    requires Ready(u) && u.refused && |rounds| == 1 && Meanwhile(rounds[0])
    requires u.c.queue + AllArrivals(rounds) == [last] + rest && last.Response? && IsFinal(last.code)
    ensures Gathered(u.c, CollectorRun(u, Rounds(rounds)).c, [], last, rest)
  {
    hide CollectorRun, Round, Arrivals;
    var es := rounds[0];
    assert rounds[1..] == [];
    assert AllArrivals(rounds) == Arrivals(es) + [] == Arrivals(es);
    assert Rounds(rounds) == Round(es) + [] == Round(es);
    OneRound(u, es, last);
    assert u.c.taken + [] + [last] == u.c.taken + [last];
  }
}
