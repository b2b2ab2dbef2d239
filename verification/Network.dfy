/**
 * One INVITE client and one INVITE server over an unreliable network. Whatever was ever sent can be delivered any
 * number of times, in any order, or never, and so can messages that others send: on other branches, or the CANCEL of
 * this very branch. A delivered message goes to the transaction whose key it has, or nowhere.
 */
module Network {
  import opened Wrappers
  import opened Fsm
  import opened Messages
  import C = ClientMachine
  import S = ServerMachine

  datatype System = System(client: C.Client, server: Option<S.Server>, foreign: set<Message>)

  datatype Step =
    | ClientStep(clientEvent: C.Event)
    | ServerStep(serverEvent: S.Event)
    | ToClient(msg: Message)
    | ToServer(msg: Message)
    | Open(msg: Message)
    | Inject(msg: Message)

  function Start(branch: string): System { System(C.Start(Invite, branch, false), None, {}) }

  function OnWire(branch: string, reply: S.Reply): Message { Response(reply.code, Invite, branch) }

  ghost predicate SentByServer(sys: System, m: Message) {
    sys.server.Some? && exists r :: r in sys.server.value.wire && m == OnWire(sys.client.branch, r)
  }

  ghost predicate Sent(sys: System, m: Message) {
    m in sys.client.wire || m in sys.foreign || SentByServer(sys, m)
  }

  /** A message of some other transaction. */
  predicate Foreign(branch: string, m: Message) { m.branch != branch || m.verb.Cancel? }

  function ClientKey(sys: System): Key { NewKey(Uac, Invite, sys.client.branch) }

  function ServerKey(sys: System): Key { NewKey(Uas, Invite, sys.client.branch) }

  /** One step; a step that is not possible leaves the system as it is. */
  ghost function Next(sys: System, step: Step): System
    requires sys.client.trail != [] && (sys.server.Some? ==> sys.server.value.trail != [])
  {
    match step
    case ClientStep(e) => if e.Arrive? then sys else sys.(client := C.Next(sys.client, e))
    case ServerStep(e) =>
      if e.Arrive? || sys.server.None? then sys else sys.(server := Some(S.Next(sys.server.value, e)))
    case ToClient(m) =>
      if Sent(sys, m) && KeyOf(m) == ClientKey(sys) then sys.(client := C.Next(sys.client, C.Arrive(m))) else sys
    case ToServer(m) =>
      if Sent(sys, m) && KeyOf(m) == ServerKey(sys) && sys.server.Some? then
        sys.(server := Some(S.Next(sys.server.value, S.Arrive(m))))
      else sys
    case Open(m) =>
      if Sent(sys, m) && m.Request? && m.verb.Invite? && m.branch == sys.client.branch && sys.server.None? then
        sys.(server := Some(S.Start(Invite, m.branch, false)))
      else sys
    case Inject(m) => if Foreign(sys.client.branch, m) then sys.(foreign := sys.foreign + {m}) else sys
  }

  ghost function Run(branch: string, steps: seq<Step>): (sys: System)
    ensures sys.client.trail != [] && (sys.server.Some? ==> sys.server.value.trail != [])
  {
    if steps == [] then Start(branch) else Next(Run(branch, steps[..|steps| - 1]), steps[|steps| - 1])
  }

  /** Everything the client was given came from the server, and everything the server was given from the client. */
  ghost predicate DeliveryInv(sys: System) {
    && (forall m :: m in sys.client.arrived ==> SentByServer(sys, m))
    && (sys.server.Some? ==> forall m :: m in sys.server.value.arrived ==> m in sys.client.wire)
    && (forall m :: m in sys.foreign ==> Foreign(sys.client.branch, m))
  }

  ghost predicate Inv(branch: string, sys: System) {
    && C.Inv(sys.client) && sys.client.verb == Invite && sys.client.branch == branch && !sys.client.reliable
    && (sys.server.Some? ==> S.Inv(sys.server.value) && sys.server.value.verb == Invite)
    && DeliveryInv(sys)
  }

  lemma WireGrows(c: C.Client, e: C.Event)
    requires c.trail != []
    ensures var d := C.Next(c, e); d.verb == c.verb && d.branch == c.branch && d.reliable == c.reliable
    ensures |c.wire| <= |C.Next(c, e).wire| && C.Next(c, e).wire[..|c.wire|] == c.wire
    ensures C.Next(c, e).arrived == c.arrived || (e.Arrive? && C.Next(c, e).arrived == c.arrived + [e.msg])
  {
  }

  lemma RepliesGrow(s: S.Server, e: S.Event)
    requires s.trail != []
    ensures |s.wire| <= |S.Next(s, e).wire| && S.Next(s, e).wire[..|s.wire|] == s.wire
    ensures S.Next(s, e).arrived == s.arrived || (e.Arrive? && S.Next(s, e).arrived == s.arrived + [e.msg])
  {
    hide S.Next;
    S.OneAtATime(s, e);
    OnlyArrivalsArrive(s, e);
  }

  lemma OnlyArrivalsArrive(s: S.Server, e: S.Event)
    requires s.trail != []
    ensures S.Next(s, e).arrived == s.arrived || (e.Arrive? && S.Next(s, e).arrived == s.arrived + [e.msg])
  {
  }

  /** More on the wires keeps what was delivered before explained. */
  lemma DeliveryKept(sys: System, next: System)
    requires DeliveryInv(sys) && next.foreign == sys.foreign && next.client.branch == sys.client.branch
    requires forall m :: m in sys.client.wire ==> m in next.client.wire
    requires sys.server.Some? ==> next.server.Some?
    requires sys.server.Some? ==> forall r :: r in sys.server.value.wire ==> r in next.server.value.wire
    requires forall m :: m in next.client.arrived ==> m in sys.client.arrived || SentByServer(sys, m)
    requires next.server.Some? ==> forall m :: m in next.server.value.arrived ==>
               (sys.server.Some? && m in sys.server.value.arrived) || m in sys.client.wire
    ensures DeliveryInv(next)
  {
    forall m | m in next.client.arrived
      ensures SentByServer(next, m)
    {
      assert SentByServer(sys, m);
    }
  }

  lemma ClientStepInv(branch: string, sys: System, e: C.Event)
    requires Inv(branch, sys) && (e.Arrive? ==> SentByServer(sys, e.msg))
    ensures Inv(branch, sys.(client := C.Next(sys.client, e)))
  {
    assert sys.client.trail != [];
    hide C.PhaseInv, C.QueueInv, C.WireInv, S.Inv;
    var next := sys.(client := C.Next(sys.client, e));
    C.NextInv(sys.client, e);
    WireGrows(sys.client, e);
    DeliveryKept(sys, next);
  }

  lemma ServerStepInv(branch: string, sys: System, e: S.Event)
    requires Inv(branch, sys) && sys.server.Some? && (e.Arrive? ==> e.msg in sys.client.wire)
    ensures Inv(branch, sys.(server := Some(S.Next(sys.server.value, e))))
  {
    var s := sys.server.value;
    assert s.trail != [];
    hide C.Inv, S.PhaseInv, S.OwnerInv, S.TaskInv, S.TrafficInv;
    var next := sys.(server := Some(S.Next(s, e)));
    S.NextInv(s, e);
    RepliesGrow(s, e);
    DeliveryKept(sys, next);
  }


  /** What has the client's key is a response of the server; what has the server's key is a request of the client. */
  lemma Routed(branch: string, sys: System, m: Message)
    requires Inv(branch, sys) && Sent(sys, m)
    ensures KeyOf(m) == ClientKey(sys) ==> SentByServer(sys, m)
    ensures KeyOf(m) == ServerKey(sys) ==> m in sys.client.wire
  {
    assert m in sys.client.wire ==> m == sys.client.Request() || m == sys.client.AckRequest();
  }

  lemma NextInv(branch: string, sys: System, step: Step)
    requires Inv(branch, sys)
    ensures Inv(branch, Next(sys, step))
  {
    match step
    case ClientStep(e) => if !e.Arrive? { ClientStepInv(branch, sys, e); }
    case ServerStep(e) => if !e.Arrive? && sys.server.Some? { ServerStepInv(branch, sys, e); }
    case ToClient(m) =>
      if Sent(sys, m) && KeyOf(m) == ClientKey(sys) {
        Routed(branch, sys, m);
        ClientStepInv(branch, sys, C.Arrive(m));
      }
    case ToServer(m) =>
      if Sent(sys, m) && KeyOf(m) == ServerKey(sys) && sys.server.Some? {
        Routed(branch, sys, m);
        ServerStepInv(branch, sys, S.Arrive(m));
      }
    case Open(m) => OpenInv(branch, sys, m);
    case Inject(m) => InjectInv(branch, sys, m);
  }

  lemma OpenInv(branch: string, sys: System, m: Message)
    requires Inv(branch, sys)
    ensures Inv(branch, Next(sys, Open(m)))
  {
    var next := Next(sys, Open(m));
    S.StartInv(Invite, m.branch, false);
    DeliveryKept(sys, next);
  }

  lemma InjectInv(branch: string, sys: System, m: Message)
    requires Inv(branch, sys)
    ensures Inv(branch, Next(sys, Inject(m)))
  {
    var next := Next(sys, Inject(m));
    forall x | x in next.client.arrived
      ensures SentByServer(next, x)
    {
      assert SentByServer(sys, x);
    }
  }

  lemma {:induction false} RunInv(branch: string, steps: seq<Step>)
    ensures Inv(branch, Run(branch, steps))
  {
    if steps == [] {
      C.StartInv(Invite, branch, false);
    } else {
      RunInv(branch, steps[..|steps| - 1]);
      NextInv(branch, Run(branch, steps[..|steps| - 1]), steps[|steps| - 1]);
    }
  }

  lemma FinalCameFromServer(branch: string, sys: System)
    requires Inv(branch, sys) && sys.client.final.Some?
    ensures sys.server.Some? && sys.server.value.final.Some?
    ensures sys.server.value.final.value.code == sys.client.final.value
  {
    var c, n := sys.client, |sys.client.provisionals|;
    assert c.taken[n] == c.arrived[n];
    assert SentByServer(sys, c.arrived[n]);
  }

  lemma AckWasSent(c: C.Client, ms: seq<Message>)
    requires c.AckRequest() in ms
    ensures C.Count(c.AckRequest(), ms) > 0
  {
    var k :| 0 <= k < |ms| && ms[k] == c.AckRequest();
    if k < |ms| - 1 {
      assert ms[..|ms| - 1][k] == c.AckRequest();
      AckWasSent(c, ms[..|ms| - 1]);
    }
  }

  /** In every run: the final response a client takes is the one and only final response of the server. */
  lemma Agreement(branch: string, steps: seq<Step>)
    ensures var sys := Run(branch, steps);
            sys.client.final.Some? ==>
              && sys.server.Some? && sys.server.value.final.Some?
              && sys.server.value.final.value.code == sys.client.final.value
              && (forall r :: r in sys.server.value.wire && IsFinal(r.code) ==> Some(r) == sys.server.value.final)
              && (InSuccessRange(sys.client.final.value) ==>
                    Completed !in sys.server.value.trail && Confirmed !in sys.server.value.trail)
  {
    RunInv(branch, steps);
    var sys := Run(branch, steps);
    if sys.client.final.Some? { FinalCameFromServer(branch, sys); }
  }

  /**
   * In every run: if the server was ever Confirmed then the client took a response of 300-699, has sent an ACK and is
   * Completed or Terminated, and that response is the server's one and only final response.
   */
  lemma ConfirmedMeansAcknowledged(branch: string, steps: seq<Step>)
    ensures var sys := Run(branch, steps);
            sys.server.Some? && Confirmed in sys.server.value.trail ==>
              && sys.client.final.Some? && 300 <= sys.client.final.value <= 699
              && (sys.client.State() == Completed || sys.client.State() == Terminated)
              && sys.client.AckRequest() in sys.client.wire
              && sys.server.value.final.Some? && sys.server.value.final.value.code == sys.client.final.value
              && (forall r :: r in sys.server.value.wire && IsFinal(r.code) ==> Some(r) == sys.server.value.final)
  {
    RunInv(branch, steps);
    var sys := Run(branch, steps);
    if sys.server.Some? && Confirmed in sys.server.value.trail {
      var s, c := sys.server.value, sys.client;
      var m :| m in s.loopTook && S.IsAck(m);
      assert s.arrived == s.taskTook + s.loopTook + s.queue;
      assert m in s.arrived && m in c.wire && m == c.AckRequest();
      AckWasSent(c, c.wire);
      FinalCameFromServer(branch, sys);
    }
  }

  lemma RunStep(branch: string, steps: seq<Step>, step: Step)
    ensures Run(branch, steps + [step]) == Next(Run(branch, steps), step)
  {
    hide Next;
    assert (steps + [step])[..|steps|] == steps;
  }

  /** The server answers 486 at once and waits for the ACK. */
  lemma ServerLoops(branch: string) returns (server: S.Server)
    ensures server == S.Next(S.Next(S.Next(S.Start(Invite, branch, false), S.Final(S.Reply(486, ""))), S.Decide), S.Join)
    ensures server.verb == Invite && server.trail == [Proceeding, Completed] && server.queue == []
    ensures server.wire == [S.Reply(486, "")] && server.phase == S.Looping(S.Reply(486, ""))
  {
    var busy := S.Reply(486, "");
    var s0 := S.Start(Invite, branch, false);
    var s2 := S.Next(S.Next(s0, S.Final(busy)), S.Decide);
    assert s2 == s0.(final := Some(busy), wire := [busy], trail := [Proceeding, Completed], phase := S.Joining(busy));
    server := S.Next(s2, S.Join);
  }

  lemma ServerAnswers(branch: string) returns (steps: seq<Step>, server: S.Server)
    ensures Run(branch, steps) == Start(branch).(server := Some(server))
    ensures server.verb == Invite && server.trail == [Proceeding, Completed] && server.queue == []
    ensures server.wire == [S.Reply(486, "")] && server.phase == S.Looping(S.Reply(486, ""))
  {
    hide S.Next, Run;
    server := ServerLoops(branch);
    assert Request(Invite, branch) in Start(branch).client.wire;
    RunNothing(branch);
    steps := [Open(Request(Invite, branch))];
    RunStep(branch, [], Open(Request(Invite, branch)));
    assert [] + steps == steps;
    RunStep(branch, steps, ServerStep(S.Final(S.Reply(486, ""))));
    steps := steps + [ServerStep(S.Final(S.Reply(486, "")))];
    RunStep(branch, steps, ServerStep(S.Decide));
    steps := steps + [ServerStep(S.Decide)];
    RunStep(branch, steps, ServerStep(S.Join));
    steps := steps + [ServerStep(S.Join)];
  }

  lemma RunNothing(branch: string)
    ensures Run(branch, []) == Start(branch)
  {
  }

  /** The client waits for the final response, takes it, and acknowledges it. */
  lemma ClientAcknowledges(branch: string) returns (busy: Message, c: C.Client)
    ensures busy == Response(486, Invite, branch)
    ensures c == C.Next(C.Next(C.Next(C.Start(Invite, branch, false), C.Arrive(busy)), C.CallFinal), C.Look)
    ensures Request(Ack, branch) in c.wire && c.trail != [] && c.branch == branch
  {
    busy := Response(486, Invite, branch);
    var c1 := C.Next(C.Start(Invite, branch, false), C.Arrive(busy));
    assert c1.queue == [busy];
    var c2 := C.Next(c1, C.CallFinal);
    assert c2.phase.AwaitFinal? && c2.queue == [busy] && c2.Wanted(busy);
    c := C.Next(c2, C.Look);
    assert c.wire == c2.wire + [Request(Ack, branch)];
  }

  /** What is said of a Confirmed server is not empty: there is a run in which the server is Confirmed. */
  lemma ConfirmedHappens(branch: string) returns (steps: seq<Step>)
    ensures var sys := Run(branch, steps); sys.server.Some? && Confirmed in sys.server.value.trail
  {
    hide C.Next, Run;
    var server, busy, c;
    steps, server := ServerAnswers(branch);
    busy, c := ClientAcknowledges(branch);
    var ack := Request(Ack, branch);
    var sys := Run(branch, steps);
    assert S.Reply(486, "") in server.wire;
    assert SentByServer(sys, busy);
    RunStep(branch, steps, ToClient(busy));
    steps := steps + [ToClient(busy)];
    RunStep(branch, steps, ClientStep(C.CallFinal));
    steps := steps + [ClientStep(C.CallFinal)];
    RunStep(branch, steps, ClientStep(C.Look));
    steps := steps + [ClientStep(C.Look)];
    assert Run(branch, steps).client == c;
    RunStep(branch, steps, ToServer(ack));
    steps := steps + [ToServer(ack)];
    RunStep(branch, steps, ServerStep(S.Take));
    steps := steps + [ServerStep(S.Take)];
    AckConfirms(server, ack);
  }

  lemma AckConfirms(s: S.Server, ack: Message)
    requires s.phase.Looping? && s.verb == Invite && s.trail != [] && s.queue == [] && S.IsAck(ack)
    ensures Confirmed in S.Next(S.Next(s, S.Arrive(ack)), S.Take).trail
  {
  }
}
