/**
 * The server transaction as a machine of atomic steps: the calls of its user cut at their awaits, one selection of the
 * task that retransmits provisional responses, the arrivals, and the steps of the loop after a final response. The
 * receiving end of the channel is a token that is in one of three places: with the transaction, with the task (or its
 * join handle), or with that loop.
 */
module ServerMachine {
  import opened Wrappers
  import opened Fsm
  import opened Messages

  datatype Reply = Reply(code: StatusCode, body: string)

  /** Where the user stands. `Over`: the transaction was dropped, or its last task has ended. */
  datatype Phase =
    | Idle | Queueing(reply: Reply)
    | FinalSent(reply: Reply) | Joining(reply: Reply) | Looping(reply: Reply) | Lingering | Over | Panicked

  /** `tu` are the provisional responses the user has handed over since `reply`; `seen` is the trail at the subscription. */
  datatype Task = NoTask | Running(reply: Reply, tu: seq<Reply>, seen: nat) | Finished

  datatype Server = Server(
    verb: Method, branch: string, reliable: bool,
    trail: seq<State>, phase: Phase,
    receiver: bool, task: Task, channel: bool,
    arrived: seq<Message>, queue: seq<Message>, taskTook: seq<Message>, loopTook: seq<Message>,
    queued: seq<Reply>, final: Option<Reply>, wire: seq<Reply>)
  {
    function State(): State
      requires trail != []
    {
      trail[|trail| - 1]
    }

    function Owners(): nat {
      (if receiver then 1 else 0) + (if task.NoTask? then 0 else 1) + (if channel then 1 else 0)
    }
  }

  datatype Event =
    | Provisional(reply: Reply) | Queue | Select | Arrive(msg: Message)
    | Final(reply: Reply) | Decide | Join | Take | Interval | Deadline | Quit

  function StartState(verb: Method): State { if verb.Invite? then Proceeding else Trying }

  function Start(verb: Method, branch: string, reliable: bool): Server {
    Server(verb, branch, reliable, [StartState(verb)], Idle, true, NoTask, false, [], [], [], [], [], None, [])
  }

  predicate IsAck(m: Message) { m.Request? && m.verb.Ack? }

  predicate SameSetting(s: Server, t: Server) {
    t.verb == s.verb && t.branch == s.branch && t.reliable == s.reliable
  }

  /** The second half of `send_provisional_response`: the response goes to the task, or the task is spawned with it. */
  function Hand(s: Server, reply: Reply): (t: Server)
    requires s.trail != []
    ensures t.trail != [] && SameSetting(s, t)
  {
    var q := s.queued + [reply];
    match s.task
    case Running(current, tu, seen) => s.(phase := Idle, queued := q, task := Running(current, tu + [reply], seen))
    case Finished => s.(phase := Idle)
    case NoTask =>
      if s.receiver then
        var trail := s.trail + [Proceeding];
        s.(phase := Idle, queued := q, receiver := false, trail := trail, task := Running(reply, [], |trail|))
      else
        s.(phase := Panicked)
  }

  /** One biased selection: a state change first, then a response of the user, then a message of the peer. */
  function SelectOne(s: Server): (t: Server)
    requires s.task.Running?
    ensures t.trail == s.trail && SameSetting(s, t)
  {
    if |s.trail| > s.task.seen then
      s.(task := Finished)
    else if s.task.tu != [] then
      s.(task := s.task.(reply := s.task.tu[0], tu := s.task.tu[1..]))
    else if s.queue != [] then
      s.(taskTook := s.taskTook + [s.queue[0]], queue := s.queue[1..], wire := s.wire + [s.task.reply])
    else
      s
  }

  /** `send_final_response` between sending and joining. */
  function Settle(s: Server, reply: Reply): (t: Server)
    requires s.trail != []
    ensures t.trail != [] && SameSetting(s, t)
  {
    if s.verb.Invite? && InSuccessRange(reply.code) then
      s.(trail := s.trail + [Terminated], phase := Over)
    else if s.reliable then
      s.(trail := s.trail + [Completed, Terminated], phase := Over)
    else
      s.(trail := s.trail + [Completed], phase := Joining(reply))
  }

  function TakeOne(s: Server, reply: Reply): (t: Server)
    requires s.trail != [] && s.queue != []
    ensures t.trail != [] && SameSetting(s, t)
  {
    var t := s.(loopTook := s.loopTook + [s.queue[0]], queue := s.queue[1..]);
    if s.verb.Invite? && IsAck(s.queue[0]) then
      t.(trail := s.trail + [Confirmed], phase := Lingering)
    else
      t.(wire := s.wire + [reply])
  }

  /**
   * One step; a step that is not possible in `s` leaves it as it is. A response that is not final is refused and the
   * transaction dropped, which ends the task, because it looks at the state first.
   */
  function Next(s: Server, e: Event): (t: Server)
    requires s.trail != []
    ensures t.trail != [] && SameSetting(s, t)
  {
    match e
    case Provisional(reply) =>
      if s.phase.Idle? && IsProvisional(reply.code) then
        s.(phase := Queueing(reply), wire := s.wire + [reply])
      else s
    case Queue => if s.phase.Queueing? then Hand(s, s.phase.reply) else s
    case Select => if s.task.Running? then SelectOne(s) else s
    case Arrive(m) =>
      if s.phase.Over? || s.phase.Panicked? then s else s.(arrived := s.arrived + [m], queue := s.queue + [m])
    case Final(reply) =>
      if !s.phase.Idle? then s
      else if IsFinal(reply.code) then
        s.(phase := FinalSent(reply), final := Some(reply), wire := s.wire + [reply])
      else s.(phase := Over, task := if s.task.Running? then Finished else s.task)
    case Decide => if s.phase.FinalSent? then Settle(s, s.phase.reply) else s
    case Join =>
      if !s.phase.Joining? then s
      else if s.task.Finished? then s.(task := NoTask, channel := true, phase := Looping(s.phase.reply))
      else if s.task.Running? then s
      else if s.receiver then s.(receiver := false, channel := true, phase := Looping(s.phase.reply))
      else s.(phase := Panicked)
    case Take => if s.phase.Looping? && s.queue != [] then TakeOne(s, s.phase.reply) else s
    case Interval => if s.phase.Looping? && s.verb.Invite? then s.(wire := s.wire + [s.phase.reply]) else s
    case Deadline =>
      if s.phase.Looping? then s.(trail := s.trail + [Terminated], phase := Over) else s
    case Quit =>
      if s.phase.Lingering? then s.(trail := s.trail + [Terminated], phase := Over) else s
  }

  function Run(s: Server, es: seq<Event>): (r: Server)
    requires s.trail != []
    ensures r.trail != [] && SameSetting(s, r)
  {
    if es == [] then s else Next(Run(s, es[..|es| - 1]), es[|es| - 1])
  }

  predicate Edge(verb: Method, a: State, b: State) {
    || (a in {Trying, Proceeding} && a != b && b in {Proceeding, Completed})
    || (a == Proceeding && b == Proceeding)
    || (verb.Invite? && a == Proceeding && b == Terminated)
    || (verb.Invite? && a == Completed && b == Confirmed)
    || (a in {Completed, Confirmed} && b == Terminated)
  }

  ghost predicate AlongEdges(verb: Method, trail: seq<State>) {
    && trail != [] && trail[0] == StartState(verb)
    && forall i :: 0 < i < |trail| ==> Edge(verb, trail[i - 1], trail[i])
  }

  /** The task has the newest responses that were handed over, in order: one to repeat and the rest still to take. */
  ghost predicate TaskInv(s: Server) {
    match s.task
    case NoTask => s.queued == [] || s.channel
    case Finished => s.queued != [] && (s.phase.Joining? || s.phase.Over?)
    case Running(reply, tu, seen) =>
      && |tu| < |s.queued| && seen <= |s.trail|
      && s.queued[|s.queued| - 1 - |tu|..] == [reply] + tu
      && (|s.trail| > seen ==> s.phase.Joining? || s.phase.Over?)
      && (s.final.Some? && !s.phase.FinalSent? ==> |s.trail| > seen)
  }

  /** The token is in exactly one place, and in the right one for the phase. */
  predicate OwnerInv(s: Server) {
    && s.Owners() == 1
    && (s.channel <==> s.phase.Looping? || s.phase.Lingering? || (s.phase.Over? && s.channel))
    && (s.phase.Looping? || s.phase.Lingering? ==> s.task.NoTask?)
    && !s.phase.Panicked?
  }

  ghost predicate PhaseInv(s: Server) {
    && s.verb != Ack && AlongEdges(s.verb, s.trail)
    && (s.phase.Idle? || s.phase.Queueing? ==> s.final.None?)
    && (s.phase.FinalSent? || s.phase.Joining? || s.phase.Looping? ==> s.final == Some(s.phase.reply))
    && (s.phase.Lingering? ==> s.final.Some?)
    && (s.phase.Idle? || s.phase.Queueing? || s.phase.FinalSent? ==>
          s.State() in {Trying, Proceeding} && (s.verb.Invite? ==> s.State() == Proceeding))
    && (s.phase.Joining? || s.phase.Looping? ==> s.State() == Completed && !s.reliable)
    && (s.phase.Lingering? <==> s.State() == Confirmed)
    && (s.final.Some? ==> IsFinal(s.final.value.code))
    && (Completed in s.trail ==> s.final.Some? && !(s.verb.Invite? && InSuccessRange(s.final.value.code)))
    && (s.phase.Over? && s.final.Some? ==>
          s.State() == Terminated && ((s.verb.Invite? && InSuccessRange(s.final.value.code)) || Completed in s.trail))
    && (Terminated in s.trail ==> s.final.Some? && s.phase.Over?)
    && (Confirmed in s.trail ==> s.verb.Invite? && Completed in s.trail)
  }

  /** Who took which messages, and what is on the wire. */
  ghost predicate TrafficInv(s: Server) {
    && s.taskTook + s.loopTook + s.queue == s.arrived
    && (s.loopTook != [] ==> s.channel)
    && (forall r :: r in s.wire ==> IsProvisional(r.code) || s.final == Some(r))
    && (s.final.Some? ==> s.final.value in s.wire)
    && (s.phase.Queueing? ==> IsProvisional(s.phase.reply.code))
    && (forall r :: r in s.queued ==> IsProvisional(r.code))
    && (Confirmed in s.trail ==> exists m :: m in s.loopTook && IsAck(m))
  }

  ghost predicate Inv(s: Server) {
    PhaseInv(s) && OwnerInv(s) && TaskInv(s) && TrafficInv(s)
  }

  lemma StartInv(verb: Method, branch: string, reliable: bool)
    requires verb != Ack
    ensures Inv(Start(verb, branch, reliable))
  {
  }

  lemma HandKeepsPhase(s: Server)
    requires PhaseInv(s) && OwnerInv(s) && TaskInv(s) && s.phase.Queueing?
    ensures PhaseInv(Hand(s, s.phase.reply)) && OwnerInv(Hand(s, s.phase.reply))
  {
    hide InSuccessRange, IsFinal;
    var t := Hand(s, s.phase.reply);
    assert forall i :: 0 <= i < |s.trail| ==> t.trail[i] == s.trail[i];
  }

  lemma HandKeepsTask(s: Server)
    requires PhaseInv(s) && OwnerInv(s) && TaskInv(s) && s.phase.Queueing?
    ensures TaskInv(Hand(s, s.phase.reply))
  {
    var reply, t := s.phase.reply, Hand(s, s.phase.reply);
    hide AlongEdges, InSuccessRange, IsFinal;
    if s.task.Running? {
      var q, tu := s.queued, s.task.tu;
      assert t.queued[|t.queued| - 1 - |t.task.tu|..] == q[|q| - 1 - |tu|..] + [reply];
      assert [s.task.reply] + tu + [reply] == [s.task.reply] + (tu + [reply]);
    } else if t.task.Running? {
      assert t.queued[|t.queued| - 1..] == [reply] + [];
    }
  }

  lemma HandKeepsTraffic(s: Server)
    requires PhaseInv(s) && OwnerInv(s) && TrafficInv(s) && s.phase.Queueing?
    ensures TrafficInv(Hand(s, s.phase.reply))
  {
    hide AlongEdges, InSuccessRange, IsFinal;
  }

  lemma HandInv(s: Server)
    requires Inv(s) && s.phase.Queueing?
    ensures Inv(Hand(s, s.phase.reply))
  {
    HandKeepsPhase(s);
    HandKeepsTask(s);
    HandKeepsTraffic(s);
  }

  /** The task takes the next response: the newest ones stay one to repeat and the rest still to take. */
  lemma Adopted(q: seq<Reply>, reply: Reply, tu: seq<Reply>)
    requires tu != [] && |tu| < |q| && q[|q| - 1 - |tu|..] == [reply] + tu
    ensures q[|q| - |tu|..] == [tu[0]] + tu[1..]
  {
    assert q[|q| - |tu|..] == q[|q| - 1 - |tu|..][1..];
  }

  lemma SelectKeepsTask(s: Server)
    requires TaskInv(s) && PhaseInv(s) && s.task.Running?
    ensures TaskInv(SelectOne(s))
  {
    hide PhaseInv, IsFinal;
    if |s.trail| <= s.task.seen && s.task.tu != [] {
      Adopted(s.queued, s.task.reply, s.task.tu);
      assert |SelectOne(s).task.tu| == |s.task.tu| - 1;
    }
  }

  lemma SelectKeepsTraffic(s: Server)
    requires TrafficInv(s) && TaskInv(s) && OwnerInv(s) && s.task.Running?
    ensures TrafficInv(SelectOne(s))
  {
    RepliesAreQueued(s);
    hide TaskInv, IsFinal, IsProvisional, IsAck;
    var t := SelectOne(s);
    assert s.loopTook == [];
    if s.queue != [] { assert s.queue == [s.queue[0]] + s.queue[1..]; }
    assert t.taskTook + t.loopTook + t.queue == s.arrived;
  }

  lemma RepliesAreQueued(s: Server)
    requires TaskInv(s) && s.task.Running?
    ensures s.task.reply in s.queued
  {
    assert s.queued[|s.queued| - 1 - |s.task.tu|..][0] == s.task.reply;
  }

  lemma SelectInv(s: Server)
    requires Inv(s) && s.task.Running?
    ensures Inv(SelectOne(s))
  {
    SelectKeepsTask(s);
    SelectKeepsTraffic(s);
    hide TaskInv, TrafficInv, AlongEdges, InSuccessRange, IsFinal;
    assert PhaseInv(SelectOne(s));
  }

  lemma SettleKeepsPhase(s: Server)
    requires PhaseInv(s) && s.phase.FinalSent?
    ensures PhaseInv(Settle(s, s.phase.reply))
  {
    hide InSuccessRange, IsFinal;
    var t := Settle(s, s.phase.reply);
    assert forall i :: 0 <= i < |s.trail| ==> t.trail[i] == s.trail[i];
  }

  lemma SettleInv(s: Server)
    requires Inv(s) && s.phase.FinalSent?
    ensures Inv(Settle(s, s.phase.reply))
  {
    SettleKeepsPhase(s);
    var t := Settle(s, s.phase.reply);
    hide AlongEdges, InSuccessRange, IsFinal;
    assert OwnerInv(t);
    assert TaskInv(t);
    assert TrafficInv(t);
  }

  lemma TakeInv(s: Server)
    requires Inv(s) && s.phase.Looping? && s.queue != []
    ensures Inv(TakeOne(s, s.phase.reply))
  {
    var t := TakeOne(s, s.phase.reply);
    assert PhaseInv(t);
    assert OwnerInv(t);
    assert TaskInv(t);
    assert TrafficInv(t);
  }

  /** The events that are done in one assignment. */
  predicate Short(e: Event) { !e.Queue? && !e.Select? && !e.Decide? && !e.Take? }

  lemma ShortKeepsPhase(s: Server, e: Event)
    requires PhaseInv(s) && OwnerInv(s) && Short(e)
    ensures PhaseInv(Next(s, e))
  {
    hide Hand, SelectOne, Settle, TakeOne, InSuccessRange, IsFinal;
  }

  lemma ShortKeepsOwner(s: Server, e: Event)
    requires PhaseInv(s) && OwnerInv(s) && Short(e)
    ensures OwnerInv(Next(s, e))
  {
    hide Hand, SelectOne, Settle, TakeOne, AlongEdges, InSuccessRange;
  }

  lemma ShortKeepsTask(s: Server, e: Event)
    requires PhaseInv(s) && OwnerInv(s) && TaskInv(s) && Short(e)
    ensures TaskInv(Next(s, e))
  {
    assert s.phase.Idle? || s.phase.Queueing? || s.phase.FinalSent? || s.phase.Joining? || s.phase.Looping? ||
           s.phase.Lingering? || s.phase.Over?;
    assert s.trail != [];
    hide Hand, SelectOne, Settle, TakeOne, PhaseInv, InSuccessRange, IsProvisional, IsFinal;
  }

  lemma ShortKeepsTraffic(s: Server, e: Event)
    requires PhaseInv(s) && OwnerInv(s) && TaskInv(s) && TrafficInv(s) && Short(e)
    ensures TrafficInv(Next(s, e))
  {
    hide Hand, SelectOne, Settle, TakeOne, AlongEdges, TaskInv, InSuccessRange;
    if e.Arrive? {
      assert s.taskTook + s.loopTook + (s.queue + [e.msg]) == s.arrived + [e.msg];
    }
  }

  lemma NextInv(s: Server, e: Event)
    requires Inv(s)
    ensures Inv(Next(s, e))
  {
    if Short(e) {
      hide Next, PhaseInv, OwnerInv, TaskInv, TrafficInv;
      ShortKeepsPhase(s, e);
      ShortKeepsOwner(s, e);
      ShortKeepsTask(s, e);
      ShortKeepsTraffic(s, e);
    } else {
      hide Inv, Hand, SelectOne, Settle, TakeOne;
      match e
      case Queue => if s.phase.Queueing? { HandInv(s); }
      case Select => if s.task.Running? { SelectInv(s); }
      case Decide => if s.phase.FinalSent? { SettleInv(s); }
      case Take => if s.phase.Looping? && s.queue != [] { TakeInv(s); }
    }
  }

  lemma {:induction false} RunInv(verb: Method, branch: string, reliable: bool, es: seq<Event>)
    requires verb != Ack
    ensures Inv(Run(Start(verb, branch, reliable), es))
  {
    if es == [] {
      StartInv(verb, branch, reliable);
    } else {
      var s, e := Run(Start(verb, branch, reliable), es[..|es| - 1]), es[|es| - 1];
      RunInv(verb, branch, reliable, es[..|es| - 1]);
      NextInv(s, e);
    }
  }

  /**
   * For every user and every schedule: the states go along the edges of section 17.2 of RFC 3261, never downwards;
   * only an INVITE server is ever Confirmed; and once the user's final response has settled the state, Completed was
   * skipped exactly if an INVITE was answered with success.
   */
  lemma StatesOfEveryRun(verb: Method, branch: string, reliable: bool, es: seq<Event>)
    requires verb != Ack
    ensures var s := Run(Start(verb, branch, reliable), es);
            && AlongEdges(verb, s.trail)
            && (forall i, j :: 0 <= i <= j < |s.trail| ==> Rank(s.trail[i]) <= Rank(s.trail[j]))
            && (Confirmed in s.trail ==> verb.Invite?)
            && (s.final.Some? && !s.phase.FinalSent? ==>
                  (Completed !in s.trail <==> verb.Invite? && InSuccessRange(s.final.value.code)))
  {
    hide Run, Next;
    RunInv(verb, branch, reliable, es);
    EdgesGoUp(verb, Run(Start(verb, branch, reliable), es).trail);
  }

  lemma {:induction false} EdgesGoUp(verb: Method, trail: seq<State>)
    requires AlongEdges(verb, trail)
    ensures forall i, j :: 0 <= i <= j < |trail| ==> Rank(trail[i]) <= Rank(trail[j])
  {
    if |trail| > 1 {
      EdgesGoUp(verb, trail[..|trail| - 1]);
      assert Edge(verb, trail[|trail| - 2], trail[|trail| - 1]);
    }
  }

  /**
   * For every user and every schedule: the receiving end has exactly one owner, so neither of the two places that
   * expect it with the transaction fails, and what the task took, then the final loop took, and then is still queued,
   * make up the arrivals in order.
   */
  lemma OneOwnerOfTheQueue(verb: Method, branch: string, reliable: bool, es: seq<Event>)
    requires verb != Ack
    ensures var s := Run(Start(verb, branch, reliable), es);
            && s.Owners() == 1 && !s.phase.Panicked?
            && s.taskTook + s.loopTook + s.queue == s.arrived
  {
    hide Run, Next;
    RunInv(verb, branch, reliable, es);
  }

  /** The provisional response a selection puts on the wire, if it is one that answers a message. */
  predicate Answers(s: Server) {
    s.task.Running? && |s.trail| <= s.task.seen && s.task.tu == [] && s.queue != []
  }

  /** Every message that the task picks up is answered with the newest provisional response handed over so far. */
  lemma AnsweredWithNewest(verb: Method, branch: string, reliable: bool, es: seq<Event>)
    requires verb != Ack
    ensures var s := Run(Start(verb, branch, reliable), es);
            var t := Next(s, Select);
            if Answers(s) then
              && |s.queued| > 0 && t.wire == s.wire + [s.queued[|s.queued| - 1]]
              && t.taskTook == s.taskTook + [s.queue[0]] && t.queue == s.queue[1..]
            else
              t.wire == s.wire && t.taskTook == s.taskTook && t.queue == s.queue
  {
    hide Run;
    RunInv(verb, branch, reliable, es);
    var s := Run(Start(verb, branch, reliable), es);
    if Answers(s) {
      assert s.queued[|s.queued| - 1..] == [s.task.reply] + s.task.tu;
    }
  }

  lemma {:induction false} QueuedGrows(s: Server, es: seq<Event>)
    requires s.trail != []
    ensures s.queued <= Run(s, es).queued
  {
    hide Next;
    if es != [] {
      QueuedGrows(s, es[..|es| - 1]);
      StepKeepsQueued(Run(s, es[..|es| - 1]), es[|es| - 1]);
    }
  }

  lemma StepKeepsQueued(s: Server, e: Event)
    requires s.trail != []
    ensures s.queued <= Next(s, e).queued
  {
  }

  lemma {:induction false} RunAppend(s: Server, es: seq<Event>, fs: seq<Event>)
    requires s.trail != []
    ensures Run(s, es + fs) == Run(Run(s, es), fs)
  {
    hide Next;
    if fs == [] {
      assert es + fs == es;
    } else {
      RunAppend(s, es, fs[..|fs| - 1]);
      assert (es + fs)[..|es + fs| - 1] == es + fs[..|fs| - 1];
    }
  }

  /** The k-th event of the run makes the task answer a message. */
  ghost predicate AnswersAt(s: Server, es: seq<Event>, k: nat)
    requires s.trail != []
  {
    k < |es| && es[k].Select? && Answers(Run(s, es[..k]))
  }

  /** An answer is the newest response handed over at its time; seen from the end of the run it has a place in `queued`. */
  lemma AnswerHasPlace(verb: Method, branch: string, reliable: bool, es: seq<Event>, k: nat) returns (place: nat)
    requires verb != Ack && AnswersAt(Start(verb, branch, reliable), es, k)
    ensures var s := Start(verb, branch, reliable);
            var before, queued := Run(s, es[..k]), Run(s, es).queued;
            && place == |before.queued| - 1 && before.queued <= queued
            && Run(s, es[..k + 1]).wire == before.wire + [queued[place]]
  {
    hide Run, Next;
    var s := Start(verb, branch, reliable);
    AnsweredWithNewest(verb, branch, reliable, es[..k]);
    place := |Run(s, es[..k]).queued| - 1;
    RunStep(s, es[..k], Select);
    assert es[..k] + [Select] == es[..k + 1];
    RunAppend(s, es[..k], es[k..]);
    assert es[..k] + es[k..] == es;
    QueuedGrows(Run(s, es[..k]), es[k..]);
  }

  /**
   * In every run, whatever the task sends at a later selection is never older than what it sent at an earlier one: the two
   * responses are those at the places `a <= b` of the responses in the order in which they were handed over.
   */
  lemma NeverAnOlderOne(verb: Method, branch: string, reliable: bool, es: seq<Event>, i: nat, j: nat) returns (a: nat, b: nat)
    requires verb != Ack && i <= j
    requires AnswersAt(Start(verb, branch, reliable), es, i) && AnswersAt(Start(verb, branch, reliable), es, j)
    ensures var s := Start(verb, branch, reliable);
            var queued := Run(s, es).queued;
            && a <= b < |queued|
            && Run(s, es[..i + 1]).wire == Run(s, es[..i]).wire + [queued[a]]
            && Run(s, es[..j + 1]).wire == Run(s, es[..j]).wire + [queued[b]]
  {
    hide Run, Next;
    var s := Start(verb, branch, reliable);
    a := AnswerHasPlace(verb, branch, reliable, es, i);
    b := AnswerHasPlace(verb, branch, reliable, es, j);
    RunAppend(s, es[..i], es[i..j]);
    assert es[..i] + es[i..j] == es[..j];
    QueuedGrows(Run(s, es[..i]), es[i..j]);
  }

  predicate Joined(s: Server) { s.phase.Looping? || s.phase.Lingering? || (s.phase.Over? && s.channel) }

  /** What happens after the join: only the final response is sent, and the task has taken its last message. */
  ghost predicate OnlyFinalSince(s: Server, t: Server) {
    && Joined(t) && t.final == s.final && t.task.NoTask? && t.taskTook == s.taskTook
    && |s.wire| <= |t.wire| && t.wire[..|s.wire|] == s.wire
    && forall i :: |s.wire| <= i < |t.wire| ==> Some(t.wire[i]) == s.final
  }

  lemma OnlyFinalNext(s: Server, t: Server, e: Event)
    requires OnlyFinalSince(s, t) && PhaseInv(t) && OwnerInv(t)
    ensures OnlyFinalSince(s, Next(t, e))
  {
  }

  /** After the join only the final response is sent, and the task never runs again. */
  lemma {:induction false} OnlyFinalAfterJoin(s: Server, es: seq<Event>)
    requires Inv(s) && Joined(s)
    ensures Inv(Run(s, es)) && OnlyFinalSince(s, Run(s, es))
  {
    if es != [] {
      var t, e := Run(s, es[..|es| - 1]), es[|es| - 1];
      hide Next, TaskInv, TrafficInv;
      OnlyFinalAfterJoin(s, es[..|es| - 1]);
      NextInv(t, e);
      OnlyFinalNext(s, t, e);
    }
  }

  lemma RunStep(s: Server, es: seq<Event>, e: Event)
    requires s.trail != []
    ensures Run(s, es + [e]) == Next(Run(s, es), e)
  {
    assert (es + [e])[..|es|] == es;
    hide Next;
  }

  /** A provisional response comes behind a final one. */
  ghost predicate BehindFinal(wire: seq<Reply>) {
    exists i, j :: 0 <= i < j < |wire| && IsFinal(wire[i].code) && IsProvisional(wire[j].code)
  }

  /** The step `e` puts a provisional response on the wire. */
  predicate SendsProvisional(s: Server, e: Event)
    requires s.trail != []
  {
    var t := Next(s, e); |t.wire| > |s.wire| && IsProvisional(t.wire[|s.wire|].code)
  }

  lemma OneAtATime(s: Server, e: Event)
    requires s.trail != []
    ensures var t := Next(s, e); s.wire <= t.wire && |t.wire| <= |s.wire| + 1
  {
  }

  /**
   * Which steps of a run send a provisional response behind the final one: exactly the selections that answer a message
   * while the final response is sent but the state is not yet settled. This is so for servers of every kind, also for
   * those that never wait for the task.
   */
  lemma LateStep(verb: Method, branch: string, reliable: bool, es: seq<Event>, e: Event)
    requires verb != Ack && Run(Start(verb, branch, reliable), es).final.Some?
    ensures var s := Run(Start(verb, branch, reliable), es);
            SendsProvisional(s, e) <==> s.phase.FinalSent? && e.Select? && Answers(s)
  {
    hide Run;
    RunInv(verb, branch, reliable, es);
    var s := Run(Start(verb, branch, reliable), es);
    if e.Select? {
      LateSelect(s);
    } else {
      LateOther(s, e);
    }
  }

  lemma LateSelect(s: Server)
    requires Inv(s) && s.final.Some?
    ensures SendsProvisional(s, Select) <==> s.phase.FinalSent? && Answers(s)
  {
    hide PhaseInv, OwnerInv;
    if Answers(s) {
      assert s.queued[|s.queued| - 1 - |s.task.tu|..][0] == s.task.reply;
      assert s.task.reply in s.queued;
    }
  }

  lemma LateOther(s: Server, e: Event)
    requires PhaseInv(s) && s.final.Some? && !e.Select?
    ensures !SendsProvisional(s, e)
  {
    hide SelectOne, AlongEdges;
  }

  lemma BehindOneMore(wire: seq<Reply>, x: Reply)
    ensures BehindFinal(wire + [x])
       <==> BehindFinal(wire) || (IsProvisional(x.code) && exists r :: r in wire && IsFinal(r.code))
  {
    hide IsProvisional;
    var w := wire + [x];
    if BehindFinal(wire) {
      var i, j :| 0 <= i < j < |wire| && IsFinal(wire[i].code) && IsProvisional(wire[j].code);
      assert w[i] == wire[i] && w[j] == wire[j];
    }
    if IsProvisional(x.code) && exists r :: r in wire && IsFinal(r.code) {
      var r :| r in wire && IsFinal(r.code);
      var i :| 0 <= i < |wire| && wire[i] == r;
      assert w[i] == r && w[|wire|] == x;
    }
    if BehindFinal(w) {
      var i, j :| 0 <= i < j < |w| && IsFinal(w[i].code) && IsProvisional(w[j].code);
      assert w[i] == wire[i];
      if j < |wire| { assert w[j] == wire[j]; }
    }
  }

  /** There is a final response on the wire exactly once the user has sent one. */
  lemma FinalOnWire(s: Server)
    requires PhaseInv(s) && TrafficInv(s)
    ensures (exists r :: r in s.wire && IsFinal(r.code)) <==> s.final.Some?
  {
    hide AlongEdges;
  }

  lemma BehindNext(s: Server, e: Event)
    requires Inv(s)
    ensures BehindFinal(Next(s, e).wire) <==> BehindFinal(s.wire) || (s.final.Some? && SendsProvisional(s, e))
  {
    var t := Next(s, e);
    OneAtATime(s, e);
    FinalOnWire(s);
    hide Next, PhaseInv, OwnerInv, TaskInv, TrafficInv, BehindFinal;
    if t.wire == s.wire {
      assert !SendsProvisional(s, e);
    } else {
      assert t.wire == s.wire + [t.wire[|s.wire|]];
      BehindOneMore(s.wire, t.wire[|s.wire|]);
    }
  }

  /** The k-th event makes the task answer between the sending of the final response and the change of the state. */
  ghost predicate LateAt(s: Server, es: seq<Event>, k: nat)
    requires s.trail != []
  {
    AnswersAt(s, es, k) && Run(s, es[..k]).phase.FinalSent?
  }

  ghost predicate AnyLate(s: Server, es: seq<Event>)
    requires s.trail != []
  {
    exists k: nat :: LateAt(s, es, k)
  }

  /**
   * For every user and every schedule: a provisional response is on the wire behind the final one exactly if the task was
   * scheduled to answer a message between the sending of the final response and the change of the state that follows it.
   */
  lemma {:induction false} ProvisionalAfterFinal(verb: Method, branch: string, reliable: bool, es: seq<Event>)
    requires verb != Ack
    ensures var s := Start(verb, branch, reliable);
            BehindFinal(Run(s, es).wire) <==> AnyLate(s, es)
  {
    var s := Start(verb, branch, reliable);
    hide Next, Answers, BehindFinal, SendsProvisional, AnyLate, LateAt;
    if es == [] {
      NothingLate(s);
    } else {
      var n := |es| - 1;
      ProvisionalAfterFinal(verb, branch, reliable, es[..n]);
      LateSplits(s, es);
      LateNext(verb, branch, reliable, es);
    }
  }

  lemma NothingLate(s: Server)
    requires s.trail != [] && s.wire == []
    ensures !BehindFinal(Run(s, []).wire) && !AnyLate(s, [])
  {
  }

  lemma LateSplits(s: Server, es: seq<Event>)
    requires s.trail != [] && es != []
    ensures AnyLate(s, es) <==> AnyLate(s, es[..|es| - 1]) || LateAt(s, es, |es| - 1)
  {
    hide Run, Answers;
    var before := es[..|es| - 1];
    forall k: nat | k < |es| - 1 ensures LateAt(s, es, k) <==> LateAt(s, before, k) {
      assert before[..k] == es[..k];
    }
    if k: nat :| LateAt(s, before, k) { assert LateAt(s, es, k); }
    if k: nat :| LateAt(s, es, k) { assert k == |es| - 1 || LateAt(s, before, k); }
  }

  lemma LateNext(verb: Method, branch: string, reliable: bool, es: seq<Event>)
    requires verb != Ack && es != []
    ensures var s := Start(verb, branch, reliable);
            BehindFinal(Run(s, es).wire) <==> BehindFinal(Run(s, es[..|es| - 1]).wire) || LateAt(s, es, |es| - 1)
  {
    var s, n := Start(verb, branch, reliable), |es| - 1;
    hide Run, Next, BehindFinal, SendsProvisional, Answers;
    var c := Run(s, es[..n]);
    RunInv(verb, branch, reliable, es[..n]);
    RunStep(s, es[..n], es[n]);
    assert es[..n] + [es[n]] == es;
    BehindNext(c, es[n]);
    if c.phase.FinalSent? { SentHasFinal(c); }
    if c.final.Some? { LateStep(verb, branch, reliable, es[..n], es[n]); }
  }

  lemma SentHasFinal(s: Server)
    requires Inv(s) && s.phase.FinalSent?
    ensures s.final.Some?
  {
  }

  /** Such a schedule: one message arrives while the final response goes out. */
  lemma ProvisionalAfterFinalHappens(ringing: Reply, busy: Reply, invite: Message)
    requires IsProvisional(ringing.code) && IsFinal(busy.code)
    ensures var es := [Provisional(ringing), Queue, Final(busy), Arrive(invite), Select];
            BehindFinal(Run(Start(Invite, "b", false), es).wire)
  {
    var s, es := Start(Invite, "b", false), [Provisional(ringing), Queue, Final(busy), Arrive(invite), Select];
    RunFour(s, ringing, busy, invite);
    assert es[..4] == [Provisional(ringing), Queue, Final(busy), Arrive(invite)];
    hide Run;
    assert LateAt(s, es, 4);
    ProvisionalAfterFinal(Invite, "b", false, es);
  }

  lemma RunFour(s: Server, ringing: Reply, busy: Reply, invite: Message)
    requires s == Start(Invite, "b", false) && IsProvisional(ringing.code) && IsFinal(busy.code)
    ensures var t := Run(s, [Provisional(ringing), Queue, Final(busy), Arrive(invite)]);
            t.phase.FinalSent? && Answers(t)
  {
    RunNothing(s);
    RunStep(s, [], Provisional(ringing));
    RunStep(s, [Provisional(ringing)], Queue);
    RunStep(s, [Provisional(ringing), Queue], Final(busy));
    RunStep(s, [Provisional(ringing), Queue, Final(busy)], Arrive(invite));
    Prefixes(Provisional(ringing), Queue, Final(busy), Arrive(invite));
    hide Run;
  }

  lemma RunNothing(s: Server)
    requires s.trail != []
    ensures Run(s, []) == s
  {
  }

  lemma Prefixes<T>(a: T, b: T, c: T, d: T)
    ensures [] + [a] == [a] && [a] + [b] == [a, b] && [a, b] + [c] == [a, b, c] && [a, b, c] + [d] == [a, b, c, d]
  {
  }
}
