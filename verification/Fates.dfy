/**
 * What becomes of a waiting request at every step of the client: the one step that
 * settles it, and as what, read off the step and the kinds of messages.
 */
module Fates {
  import opened Common
  import opened OrderedMap
  import opened RequestClient

  /** The kind of message that answers a command when it succeeds. */
  function SuccessKind(command: Command): string {
    match command
    case Auth => "auth_ok"
    case ListSessions => "session_list"
    case EnableInput => "policy_update"
    case DisableInput => "policy_update"
    case Heartbeat => "heartbeat_ack"
    case _ => "ack"
  }

  predicate ErrorKind(command: Command, kind: string) {
    kind == "error" || (command.Auth? && kind == "auth_error")
  }

  /** A reply of the right kind resolves, a protocol error or a reply that is malformed or of another kind rejects. */
  function ReplyOutcome(command: Command, message: Message): Outcome {
    if message.kind != SuccessKind(command) && !ErrorKind(command, message.kind) then Rejected(UnexpectedType)
    else if !message.valid then Rejected(InvalidPayload)
    else if message.kind == SuccessKind(command) then Resolved(message)
    else Rejected(ProtocolError(message))
  }

  /** What a step makes of a waiting request; None if it keeps waiting. */
  function Fate(c: Client, step: Step, r: Request): Option<Outcome> {
    match step
    case Receive(message) =>
      if !c.handshaken && message.kind == "hello" && !message.valid then Some(Rejected(ConnectionClosed))
      else if message.requestId == Some(r.id) then Some(ReplyOutcome(r.command, message))
      else None
    case TimerFired(id) => if id == r.id then Some(Rejected(TimedOut)) else None
    case Send(_, _, _, sendOk) => if c.socket.Open? && !sendOk then Some(Rejected(ConnectionClosed)) else None
    case SocketClosed => Some(Rejected(ConnectionClosed))
    case SocketError => if c.handshaken then None else Some(Rejected(ConnectionClosed))
    case HandshakeExpired => if c.openHandshakes > 0 then Some(Rejected(ConnectionClosed)) else None
    case Close => Some(Rejected(ConnectionClosed))
    case _ => None
  }

  lemma ReplyIsOutcome(command: Command, message: Message)
    ensures Reply(command, message) == ReplyOutcome(command, message)
  {
  }

  lemma {:induction false} RejectedAll(pending: Entries<string, Request>, id: string, error: Error)
    requires Find(pending, id).Some?
    ensures Settlement(Find(pending, id).value, Rejected(error)) in Rejections(pending, error)
  {
    if pending[0].0 != id {
      RejectedAll(pending[1..], id, error);
    }
  }

  ghost predicate Waits(t: Client, r: Request) {
    Find(t.pending, r.id) == Some(r)
  }

  ghost predicate Settles(t: Client, r: Request, outcome: Outcome) {
    Find(t.pending, r.id) == None && Settlement(r, outcome) in t.settled
  }

  lemma ClearSettles(c: Client, r: Request, error: Error)
    requires Waits(c, r)
    ensures Settles(ClearPending(c, error), r, Rejected(error))
  {
    RejectedAll(c.pending, r.id, error);
  }

  lemma ClearedSettles(c: Client, r: Request)
    requires Waits(c, r)
    ensures Settles(ClearSocket(c), r, Rejected(ConnectionClosed))
    ensures Settles(FailHandshake(c), r, Rejected(ConnectionClosed))
    ensures Settles(ClearSocket(ClearPending(c, ConnectionClosed)), r, Rejected(ConnectionClosed))
  {
    RejectedAll(c.pending, r.id, ConnectionClosed);
  }

  lemma {:induction false} FindWithout(pending: Entries<string, Request>, id: string, other: string)
    requires Filed(pending)
    ensures Find(Without(pending, id), other) == if id == other then None else Find(pending, other)
  {
    if pending != [] {
      FindWithout(pending[1..], id, other);
      FiledFind(pending[1..], id);
    }
  }

  lemma {:induction false} FindAppend(pending: Entries<string, Request>, entry: (string, Request), id: string)
    ensures Find(pending + [entry], id) ==
            if Find(pending, id).Some? then Find(pending, id) else if entry.0 == id then Some(entry.1) else None
  {
    if pending == [] {
      assert pending + [entry] == [entry];
    } else {
      assert (pending + [entry])[1..] == pending[1..] + [entry];
      FindAppend(pending[1..], entry, id);
    }
  }

  lemma SettleOthers(c: Client, id: string, outcome: Outcome, r: Request)
    requires Filed(c.pending) && Waits(c, r)
    ensures if id == r.id then Settles(Settle(c, id, outcome), r, outcome) else Waits(Settle(c, id, outcome), r)
  {
    FindWithout(c.pending, id, r.id);
  }

  lemma DispatchSettles(c: Client, message: Message, r: Request)
    requires Filed(c.pending) && Waits(c, r)
    ensures if message.requestId == Some(r.id) then
              Settles(Dispatch(c, message), r, ReplyOutcome(r.command, message))
            else Waits(Dispatch(c, message), r)
  {
    if message.requestId.Some? {
      var id := message.requestId.value;
      if Find(c.pending, id).Some? {
        ReplyIsOutcome(Find(c.pending, id).value.command, message);
        SettleOthers(c, id, Reply(Find(c.pending, id).value.command, message), r);
      }
    }
  }

  lemma ReceiveSettles(c: Client, message: Message, r: Request)
    requires Filed(c.pending) && Waits(c, r) && !c.socket.NoSocket?
    ensures var t, fate := Received(c, message), Fate(c, Receive(message), r);
            if fate.Some? then Settles(t, r, fate.value) else Waits(t, r)
  {
    ClearedSettles(c, r);
    DispatchSettles(c, message, r);
    DispatchSettles(c.(handshaken := true, openHandshakes := Max(0, c.openHandshakes - 1)), message, r);
  }

  lemma SendSettles(c: Client, step: Step, r: Request)
    requires step.Send? && Waits(c, r)
    ensures var t, fate := Next(c, step), Fate(c, step, r);
            if fate.Some? then Settles(t, r, fate.value) else Waits(t, r)
  {
    if c.socket.Open? {
      var sent := Register(c, step.command, step.stamp, step.uuid);
      FindAppend(c.pending, sent.pending[|c.pending|], r.id);
      assert sent.pending == c.pending + [sent.pending[|c.pending|]];
      ClearedSettles(sent, r);
    }
  }

  /**
   * In every reachable state, each step does to a waiting request what its fate says: a
   * valid reply of the kind its command expects, and only that, resolves it; otherwise it is
   * rejected, for the reason that applies, or goes on waiting.
   */
  lemma {:induction false} FateIsExact(steps: seq<Step>, step: Step, r: Request)
    requires Waits(Run(steps), r)
    ensures var t, fate := Next(Run(steps), step), Fate(Run(steps), step, r);
            if fate.Some? then Settles(t, r, fate.value) else Waits(t, r)
  {
    var c := Run(steps);
    RunKeepsInv(steps);
    assert c.pending != [] && !c.socket.NoSocket?;
    ClearedSettles(c, r);
    match step
    case Receive(message) => ReceiveSettles(c, message, r);
    case Send(_, _, _, _) => SendSettles(c, step, r);
    case TimerFired(id) =>
      FiledFind(c.pending, r.id);
      SettleOthers(c, id, Rejected(TimedOut), r);
    case _ =>
  }

  // ---- The connection ----

  /** The step ends the connection, if there is one. */
  predicate EndsConnection(c: Client, step: Step) {
    match step
    case Receive(message) => !c.handshaken && message.kind == "hello" && !message.valid
    case Send(_, _, _, sendOk) => c.socket.Open? && !sendOk
    case SocketClosed => true
    case SocketError => !c.handshaken
    case HandshakeExpired => c.openHandshakes > 0
    case Close => true
    case _ => false
  }

  /** The socket opened at step k and has been open since. */
  ghost predicate OpenSince(steps: seq<Step>, k: nat)
    requires k < |steps|
  {
    && steps[k].Opened? && Run(steps[..k]).socket.Connecting?
    && forall j :: k < j < |steps| ==> !Interrupts(steps, j)
  }

  predicate Interrupts(steps: seq<Step>, j: nat)
    requires j < |steps|
  {
    steps[j].LeftOpen? || EndsConnection(Run(steps[..j]), steps[j])
  }

  lemma SocketStep(c: Client, step: Step)
    ensures var t := Next(c, step);
            t.socket ==
            if EndsConnection(c, step) then NoSocket
            else if step.Connect? && c.socket.NoSocket? then Connecting
            else if step.Opened? && c.socket.Connecting? then Open
            else if step.LeftOpen? && !c.socket.NoSocket? then Ended
            else c.socket
  {
  }

  lemma OpenAppend(steps: seq<Step>, x: Step)
    ensures var all, c := steps + [x], Run(steps);
            (exists k :: 0 <= k < |all| && OpenSince(all, k)) <==>
            (x.Opened? && c.socket.Connecting?)
            || ((exists k :: 0 <= k < |steps| && OpenSince(steps, k)) && !x.LeftOpen? && !EndsConnection(c, x))
  {
    var all := steps + [x];
    assert all[..|steps|] == steps && all[|steps|] == x;
    forall j | 0 <= j < |steps|
      ensures all[..j] == steps[..j] && all[j] == steps[j] && (Interrupts(all, j) <==> Interrupts(steps, j))
    {
    }
    forall k | 0 <= k < |steps|
      ensures OpenSince(all, k) <==> OpenSince(steps, k) && !x.LeftOpen? && !EndsConnection(Run(steps), x)
    {
      assert Interrupts(all, |steps|) <==> x.LeftOpen? || EndsConnection(Run(steps), x);
    }
    assert OpenSince(all, |steps|) <==> x.Opened? && Run(steps).socket.Connecting?;
  }

  /** The socket takes requests iff it opened while connecting, and has neither left that state nor been ended since. */
  lemma {:induction false} OpenIff(steps: seq<Step>)
    ensures Run(steps).socket.Open? <==> exists k :: 0 <= k < |steps| && OpenSince(steps, k)
  {
    if steps != [] {
      var init, last := steps[..|steps| - 1], steps[|steps| - 1];
      assert steps == init + [last];
      OpenIff(init);
      SocketStep(Run(init), last);
      OpenAppend(init, last);
    }
  }

  // ---- What is issued ----

  /** How many of the requests are for a command. */
  function CountOf(issued: seq<Request>, command: Command): nat {
    if issued == [] then 0
    else
      CountOf(issued[..|issued| - 1], command) + if issued[|issued| - 1].command == command then 1 else 0
  }

  lemma {:induction false} CountersCount(steps: seq<Step>, command: Command)
    ensures Counter(Run(steps).counters, Name(command)) == CountOf(Run(steps).issued, command)
  {
    if steps != [] {
      var c, last := Run(steps[..|steps| - 1]), steps[|steps| - 1];
      CountersCount(steps[..|steps| - 1], command);
      if last.Send? {
        NamesDiffer(last.command, command);
        IssuesOne(c, last);
      } else {
        QuietStepIssuesNothing(c, last);
      }
    }
  }

  lemma IssuesOne(c: Client, step: Step)
    requires step.Send?
    ensures var t := Next(c, step); var n := Counter(c.counters, Name(step.command)) + 1;
            if c.socket.Open? then
              && t.issued == c.issued + [Request(step.command, n, IdText(step.command, step.stamp, step.uuid, n))]
              && t.issued[..|c.issued|] == c.issued && t.counters == c.counters[Name(step.command) := n]
            else t == c
  {
  }

  /** A request is issued by a send on an open socket and by nothing else; it carries its number among its command's. */
  lemma {:induction false} IssuedIff(steps: seq<Step>, step: Step)
    ensures var c := Run(steps);
            Next(c, step).issued ==
            c.issued
            + if step.Send? && c.socket.Open? then
                var n := CountOf(c.issued, step.command) + 1;
                [Request(step.command, n, IdText(step.command, step.stamp, step.uuid, n))]
              else []
  {
    if step.Send? {
      CountersCount(steps, step.command);
      IssuesOne(Run(steps), step);
    } else {
      QuietStepIssuesNothing(Run(steps), step);
    }
  }
}
