/**
 * Request correlation in the client: requests wait under their identifier until a
 * reply, a timeout, or the end of the connection settles them.
 */
module RequestClient {
  import opened Common
  import opened OrderedMap

  datatype Command = Auth | ListSessions | Attach | Detach | EnableInput | DisableInput | Input | Heartbeat | Disconnect

  function Name(command: Command): string {
    match command
    case Auth => "auth"
    case ListSessions => "list_sessions"
    case Attach => "attach"
    case Detach => "detach"
    case EnableInput => "enable_input"
    case DisableInput => "disable_input"
    case Input => "input"
    case Heartbeat => "heartbeat"
    case Disconnect => "disconnect"
  }

  function ExpectedTypes(command: Command): set<string> {
    match command
    case Auth => {"auth_ok", "auth_error", "error"}
    case ListSessions => {"session_list", "error"}
    case Heartbeat => {"heartbeat_ack", "error"}
    case EnableInput => {"policy_update", "error"}
    case DisableInput => {"policy_update", "error"}
    case _ => {"ack", "error"}
  }

  /** n counts the requests of this command. */
  datatype Request = Request(command: Command, n: nat, id: string)

  function Digit(d: nat): char
    requires d < 10
  {
    (48 + d) as char
  }

  function Digits(n: nat): string {
    if n < 10 then [Digit(n)] else Digits(n / 10) + [Digit(n % 10)]
  }

  /** stamp and uuid are what the clock and the random source gave. */
  function IdText(command: Command, stamp: nat, uuid: string, n: nat): string {
    Name(command) + ['-'] + (Digits(stamp) + ['-'] + uuid + ['-'] + Digits(n))
  }

  datatype Message = Message(requestId: Option<string>, kind: string, valid: bool)

  datatype Error = UnexpectedType | InvalidPayload | ProtocolError(message: Message) | TimedOut | ConnectionClosed

  datatype Outcome = Resolved(message: Message) | Rejected(error: Error)

  datatype Settlement = Settlement(request: Request, outcome: Outcome)

  datatype Socket = NoSocket | Connecting | Open | Ended

  /**
   * handshaken says whether the current connection got its hello, openHandshakes
   * counts the connection attempts whose handshake timer is still armed.
   */
  datatype Client = Client(
    socket: Socket,
    handshaken: bool,
    openHandshakes: nat,
    pending: Entries<string, Request>,
    timers: set<string>,
    counters: map<string, nat>,
    settled: seq<Settlement>,
    issued: seq<Request>)

  datatype Step =
    | Connect
    | Opened
    | LeftOpen
    | Send(command: Command, stamp: nat, uuid: string, sendOk: bool)
    | Receive(message: Message)
    | TimerFired(id: string)
    | SocketClosed
    | SocketError
    | HandshakeExpired
    | Close

  function Start(): Client {
    Client(NoSocket, false, 0, [], {}, map[], [], [])
  }

  function Counter(counters: map<string, nat>, prefix: string): nat {
    if prefix in counters then counters[prefix] else 0
  }

  function Settle(c: Client, id: string, outcome: Outcome): Client {
    match Find(c.pending, id)
    case None => c
    case Some(r) =>
      c.(pending := Without(c.pending, id), timers := c.timers - {id}, settled := c.settled + [Settlement(r, outcome)])
  }

  function Rejections(pending: Entries<string, Request>, error: Error): seq<Settlement> {
    if pending == [] then [] else [Settlement(pending[0].1, Rejected(error))] + Rejections(pending[1..], error)
  }

  function ClearPending(c: Client, error: Error): Client {
    c.(pending := [], timers := {}, settled := c.settled + Rejections(c.pending, error))
  }

  function ClearSocket(c: Client): Client {
    ClearPending(c.(socket := NoSocket), ConnectionClosed)
  }

  /** A handshake fails: its timer is disarmed, and whatever connection there is is dropped. */
  function FailHandshake(c: Client): Client {
    ClearSocket(c.(openHandshakes := Max(0, c.openHandshakes - 1)))
  }

  /** How a reply settles the request it names. */
  function Reply(command: Command, message: Message): Outcome {
    if message.kind !in ExpectedTypes(command) then Rejected(UnexpectedType)
    else if !message.valid then Rejected(InvalidPayload)
    else if message.kind == "error" || message.kind == "auth_error" then Rejected(ProtocolError(message))
    else Resolved(message)
  }

  function Dispatch(c: Client, message: Message): Client {
    if message.requestId.None? then c
    else
      match Find(c.pending, message.requestId.value)
      case None => c
      case Some(r) => Settle(c, message.requestId.value, Reply(r.command, message))
  }

  predicate IsHello(message: Message) {
    message.kind == "hello"
  }

  function Hello(c: Client, message: Message): Client {
    if !message.valid then FailHandshake(c)
    else Dispatch(c.(handshaken := true, openHandshakes := Max(0, c.openHandshakes - 1)), message)
  }

  function Received(c: Client, message: Message): Client {
    if c.socket.NoSocket? then c
    else if !c.handshaken && IsHello(message) then Hello(c, message)
    else Dispatch(c, message)
  }

  function Register(c: Client, command: Command, stamp: nat, uuid: string): Client {
    var n := Counter(c.counters, Name(command)) + 1;
    Issue(c, Request(command, n, IdText(command, stamp, uuid, n)))
  }

  function Issue(c: Client, r: Request): Client {
    c.(counters := c.counters[Name(r.command) := r.n],
       pending := c.pending + [(r.id, r)],
       timers := c.timers + {r.id},
       issued := c.issued + [r])
  }

  function Next(c: Client, step: Step): Client {
    match step
    case Connect =>
      if !c.socket.NoSocket? then c
      else c.(socket := Connecting, handshaken := false, openHandshakes := c.openHandshakes + 1)
    case Opened => if c.socket.Connecting? then c.(socket := Open) else c
    case LeftOpen => if c.socket.NoSocket? then c else c.(socket := Ended)
    case Send(command, stamp, uuid, sendOk) =>
      if !c.socket.Open? then c
      else if sendOk then Register(c, command, stamp, uuid)
      else ClearSocket(Register(c, command, stamp, uuid))
    case Receive(message) => Received(c, message)
    case TimerFired(id) => if id in c.timers then Settle(c, id, Rejected(TimedOut)) else c
    case SocketClosed =>
      if c.socket.NoSocket? then c
      else if !c.handshaken then FailHandshake(c)
      else ClearSocket(ClearPending(c, ConnectionClosed))
    case SocketError => if c.socket.NoSocket? || c.handshaken then c else FailHandshake(c)
    case HandshakeExpired => if c.openHandshakes == 0 then c else FailHandshake(c)
    case Close => ClearSocket(c)
  }

  function Run(steps: seq<Step>): Client {
    if steps == [] then Start() else Next(Run(steps[..|steps| - 1]), steps[|steps| - 1])
  }

  // ---- Identifiers ----

  lemma {:induction false} DigitsHaveNoDash(n: nat)
    ensures '-' !in Digits(n)
  {
    if n >= 10 {
      DigitsHaveNoDash(n / 10);
    }
  }

  lemma DigitsEnd(n: nat)
    ensures |Digits(n)| >= 1 && Digits(n)[|Digits(n)| - 1] == Digit(n % 10)
    ensures |Digits(n)| == 1 <==> n < 10
    ensures n >= 10 ==> Digits(n)[..|Digits(n)| - 1] == Digits(n / 10)
  {
    if n >= 10 {
      DigitsEnd(n / 10);
    }
  }

  lemma {:induction false} DigitsInjective(m: nat, n: nat)
    requires Digits(m) == Digits(n)
    ensures m == n
  {
    DigitsEnd(m);
    DigitsEnd(n);
    if m >= 10 {
      DigitsInjective(m / 10, n / 10);
    }
  }

  lemma NamesDiffer(a: Command, b: Command)
    ensures Name(a) == Name(b) <==> a == b
  {
  }

  /** Identifiers agree only for one command and one count, whatever the clock and the random source gave. */
  lemma IdDetermines(command: Command, stamp: nat, uuid: string, n: nat, command': Command, stamp': nat, uuid': string,
                     n': nat)
    requires IdText(command, stamp, uuid, n) == IdText(command', stamp', uuid', n')
    ensures command == command' && n == n'
  {
    NamesDiffer(command, command');
    var front, back := Digits(stamp) + ['-'] + uuid, Digits(stamp') + ['-'] + uuid';
    FirstPart('-', Name(command), front + ['-'] + Digits(n), Name(command'), back + ['-'] + Digits(n'));
    DigitsHaveNoDash(n);
    DigitsHaveNoDash(n');
    LastPart('-', front, Digits(n), back, Digits(n'));
    DigitsInjective(n, n');
  }

  // ---- The invariant ----

  ghost predicate Named(r: Request) {
    exists stamp, uuid :: r.id == IdText(r.command, stamp, uuid, r.n)
  }

  /** Every request is named after its command and count, and the counters are at or past every count issued. */
  ghost predicate Counted(issued: seq<Request>, counters: map<string, nat>) {
    issued == []
    || (Counted(issued[..|issued| - 1], counters)
        && Named(issued[|issued| - 1]) && issued[|issued| - 1].n
            <= Counter(counters, Name(issued[|issued| - 1].command)))
  }

  function Ids(issued: seq<Request>): seq<string> {
    if issued == [] then [] else Ids(issued[..|issued| - 1]) + [issued[|issued| - 1].id]
  }

  /** No identifier is issued twice. */
  ghost predicate DistinctIds(issued: seq<Request>) {
    issued == []
    || (DistinctIds(issued[..|issued| - 1]) && issued[|issued| - 1].id !in Ids(issued[..|issued| - 1]))
  }

  function Requests(settled: seq<Settlement>): seq<Request> {
    if settled == [] then [] else [settled[0].request] + Requests(settled[1..])
  }

  /** Waiting and settled requests together are the issued ones. */
  ghost predicate Balanced(c: Client) {
    multiset(Values(c.pending)) + multiset(Requests(c.settled)) == multiset(c.issued)
  }

  /** Every request waits under its own identifier. */
  ghost predicate Filed(pending: Entries<string, Request>) {
    pending == []
    || (pending[0].0 == pending[0].1.id && pending[0].0 !in Keys(pending[1..]) && Filed(pending[1..]))
  }

  /** Exactly the waiting requests have a timer. */
  ghost predicate Timed(pending: Entries<string, Request>, timers: set<string>) {
    forall id :: id in timers <==> id in Keys(pending)
  }

  /** A resolved request got a valid, expected, successful reply that names it. */
  ghost predicate Fits(s: Settlement) {
    s.outcome.Resolved? ==>
      var m := s.outcome.message;
      m.requestId == Some(s.request.id) && m.kind in ExpectedTypes(s.request.command)
      && m.kind != "error" && m.kind != "auth_error" && m.valid
  }

  ghost predicate AllFit(settled: seq<Settlement>) {
    settled == [] || (Fits(settled[0]) && AllFit(settled[1..]))
  }

  /** What settling keeps. */
  ghost predicate Settling(c: Client) {
    && Balanced(c)
    && Filed(c.pending) && Timed(c.pending, c.timers)
    && AllFit(c.settled)
    && (c.socket.NoSocket? ==> c.pending == [])
  }

  ghost predicate Inv(c: Client) {
    Counted(c.issued, c.counters) && DistinctIds(c.issued) && Settling(c)
  }

  lemma {:induction false} FiledFind(pending: Entries<string, Request>, id: string)
    requires Filed(pending)
    ensures Find(pending, id).Some? <==> id in Keys(pending)
    ensures Find(pending, id).Some? ==> Find(pending, id).value.id == id && Find(pending, id).value in Values(pending)
  {
    if pending != [] {
      FiledFind(pending[1..], id);
    }
  }

  lemma {:induction false} FiledWithout(pending: Entries<string, Request>, id: string)
    requires Filed(pending)
    ensures Filed(Without(pending, id))
    ensures forall k :: k in Keys(Without(pending, id)) <==> k in Keys(pending) && k != id
  {
    if pending != [] {
      var tail := pending[1..];
      FiledWithout(tail, id);
      assert Keys(pending)[1..] == Keys(tail);
      if pending[0].0 != id {
        assert Without(pending, id)[1..] == Without(tail, id);
      }
    }
  }

  lemma {:induction false} FiledAppend(pending: Entries<string, Request>, r: Request)
    requires Filed(pending) && r.id !in Keys(pending)
    ensures Filed(pending + [(r.id, r)])
    ensures Keys(pending + [(r.id, r)]) == Keys(pending) + [r.id]
    ensures Values(pending + [(r.id, r)]) == Values(pending) + [r]
  {
    var entry := (r.id, r);
    KeysConcat(pending, [entry]);
    ValuesConcat(pending, [entry]);
    assert Keys([entry]) == [r.id] && Values([entry]) == [r];
    if pending != [] {
      FiledAppend(pending[1..], r);
      assert (pending + [entry])[1..] == pending[1..] + [entry];
    }
  }

  lemma {:induction false} RequestsConcat(a: seq<Settlement>, b: seq<Settlement>)
    ensures Requests(a + b) == Requests(a) + Requests(b)
  {
    if a == [] {
      assert a + b == b;
    } else {
      assert (a + b)[1..] == a[1..] + b;
      RequestsConcat(a[1..], b);
    }
  }

  lemma {:induction false} FitConcat(a: seq<Settlement>, b: seq<Settlement>)
    requires AllFit(a) && AllFit(b)
    ensures AllFit(a + b)
  {
    if a == [] {
      assert a + b == b;
    } else {
      assert (a + b)[1..] == a[1..] + b;
      FitConcat(a[1..], b);
    }
  }

  lemma {:induction false} RejectionsSettle(pending: Entries<string, Request>, error: Error)
    ensures Requests(Rejections(pending, error)) == Values(pending)
    ensures AllFit(Rejections(pending, error))
  {
    if pending != [] {
      RejectionsSettle(pending[1..], error);
    }
  }

  lemma Moved(rest: multiset<Request>, r: Request, settled: multiset<Request>)
    ensures (rest + multiset{r}) + settled == rest + (settled + multiset{r})
  {
  }

  lemma SettleBalances(c: Client, t: Client, id: string, s: Settlement)
    requires Balanced(c) && Find(c.pending, id) == Some(s.request)
    requires t.pending == Without(c.pending, id) && t.settled == c.settled + [s] && t.issued == c.issued
    ensures Balanced(t)
  {
    WithoutValues(c.pending, id);
    RequestsConcat(c.settled, [s]);
    assert Requests([s]) == [s.request];
    Moved(multiset(Values(Without(c.pending, id))), s.request, multiset(Requests(c.settled)));
  }

  lemma SettleKeeps(c: Client, id: string, outcome: Outcome)
    requires Settling(c)
    requires Find(c.pending, id).Some? ==> Fits(Settlement(Find(c.pending, id).value, outcome))
    ensures Settling(Settle(c, id, outcome))
  {
    if Find(c.pending, id).Some? {
      var s, t := Settlement(Find(c.pending, id).value, outcome), Settle(c, id, outcome);
      SettleBalances(c, t, id, s);
      FiledWithout(c.pending, id);
      assert AllFit([s]);
      FitConcat(c.settled, [s]);
      assert c.settled + [s] == t.settled;
    }
  }

  lemma ClearKeeps(c: Client, t: Client, error: Error)
    requires Settling(c) && t == ClearPending(c, error).(socket := t.socket, openHandshakes := t.openHandshakes)
    ensures Settling(t)
  {
    RejectionsSettle(c.pending, error);
    RequestsConcat(c.settled, Rejections(c.pending, error));
    FitConcat(c.settled, Rejections(c.pending, error));
  }

  lemma WaitingIsIssued(c: Client, id: string)
    requires Filed(c.pending) && Balanced(c) && id in Keys(c.pending)
    ensures Find(c.pending, id).Some? && Find(c.pending, id).value in c.issued && Find(c.pending, id).value.id == id
  {
    FiledFind(c.pending, id);
    assert Find(c.pending, id).value in multiset(Values(c.pending)) + multiset(Requests(c.settled));
  }

  lemma {:induction false} CountedIsNew(issued: seq<Request>, counters: map<string, nat>, r: Request)
    requires Counted(issued, counters) && Named(r) && r.n == Counter(counters, Name(r.command)) + 1
    ensures r.id !in Ids(issued)
  {
    if issued != [] {
      CountedIsNew(issued[..|issued| - 1], counters, r);
      NamedApart(issued[|issued| - 1], r);
    }
  }

  lemma NamedApart(q: Request, r: Request)
    requires Named(q) && Named(r)
    ensures q.id == r.id ==> Name(q.command) == Name(r.command) && q.n == r.n
  {
    var stamp, uuid :| q.id == IdText(q.command, stamp, uuid, q.n);
    var stamp', uuid' :| r.id == IdText(r.command, stamp', uuid', r.n);
    if q.id == r.id {
      IdDetermines(q.command, stamp, uuid, q.n, r.command, stamp', uuid', r.n);
    }
  }

  lemma {:induction false} CountersGrow(issued: seq<Request>, counters: map<string, nat>, prefix: string, n: nat)
    requires Counted(issued, counters) && Counter(counters, prefix) <= n
    ensures Counted(issued, counters[prefix := n])
  {
    if issued != [] {
      CountersGrow(issued[..|issued| - 1], counters, prefix, n);
    }
  }

  lemma {:induction false} IssuedHasId(issued: seq<Request>, r: Request)
    requires r in issued
    ensures r.id in Ids(issued)
  {
    var init := issued[..|issued| - 1];
    assert issued == init + [issued[|issued| - 1]];
    if r in init {
      IssuedHasId(init, r);
    }
  }

  lemma IssueKeepsIds(issued: seq<Request>, counters: map<string, nat>, r: Request)
    requires Counted(issued, counters) && DistinctIds(issued) && Named(r)
        && r.n == Counter(counters, Name(r.command)) + 1
    ensures Counted(issued + [r], counters[Name(r.command) := r.n]) && DistinctIds(issued + [r])
  {
    CountedIsNew(issued, counters, r);
    CountersGrow(issued, counters, Name(r.command), r.n);
    assert (issued + [r])[..|issued|] == issued;
  }

  lemma IssueBalances(c: Client, t: Client, r: Request)
    requires Balanced(c) && Values(t.pending) == Values(c.pending) + [r] && t.settled == c.settled
        && t.issued == c.issued + [r]
    ensures Balanced(t)
  {
    Moved(multiset(Values(c.pending)), r, multiset(Requests(c.settled)));
  }

  lemma IssueKeeps(c: Client, r: Request)
    requires Settling(c) && !c.socket.NoSocket? && r.id !in Ids(c.issued)
    ensures Settling(Issue(c, r))
  {
    if r.id in Keys(c.pending) {
      WaitingIsIssued(c, r.id);
      IssuedHasId(c.issued, Find(c.pending, r.id).value);
    }
    FiledAppend(c.pending, r);
    IssueBalances(c, Issue(c, r), r);
  }

  lemma RegisterKeepsInv(c: Client, command: Command, stamp: nat, uuid: string)
    requires Inv(c) && !c.socket.NoSocket?
    ensures Inv(Register(c, command, stamp, uuid))
  {
    var n := Counter(c.counters, Name(command)) + 1;
    var r := Request(command, n, IdText(command, stamp, uuid, n));
    assert Named(r);
    CountedIsNew(c.issued, c.counters, r);
    IssueKeepsIds(c.issued, c.counters, r);
    IssueKeeps(c, r);
    assert Register(c, command, stamp, uuid) == Issue(c, r);
  }

  lemma DispatchKeeps(c: Client, message: Message)
    requires Settling(c)
    ensures Settling(Dispatch(c, message))
  {
    if message.requestId.Some? && Find(c.pending, message.requestId.value).Some? {
      var id := message.requestId.value;
      FiledFind(c.pending, id);
      SettleKeeps(c, id, Reply(Find(c.pending, id).value.command, message));
    }
  }

  lemma ClearSocketKeeps(c: Client)
    requires Settling(c)
    ensures Settling(ClearSocket(c)) && Settling(FailHandshake(c))
        && Settling(ClearSocket(ClearPending(c, ConnectionClosed)))
  {
    ClearKeeps(c, ClearSocket(c), ConnectionClosed);
    ClearKeeps(c, FailHandshake(c), ConnectionClosed);
    ClearKeeps(c, ClearPending(c, ConnectionClosed), ConnectionClosed);
    var cleared := ClearPending(c, ConnectionClosed);
    ClearKeeps(cleared, ClearSocket(cleared), ConnectionClosed);
  }

  /** Settling does not depend on the state of the connection, as long as there is one. */
  lemma ConnectionKeeps(c: Client, t: Client)
    requires Settling(c)
    requires t == c.(socket := t.socket, handshaken := t.handshaken, openHandshakes := t.openHandshakes)
    requires t.socket.NoSocket? ==> c.socket.NoSocket?
    ensures Settling(t)
  {
  }

  lemma HelloKeeps(c: Client, message: Message)
    requires Settling(c)
    ensures Settling(Hello(c, message))
  {
    if message.valid {
      var greeted := c.(handshaken := true, openHandshakes := Max(0, c.openHandshakes - 1));
      ConnectionKeeps(c, greeted);
      DispatchKeeps(greeted, message);
      assert Hello(c, message) == Dispatch(greeted, message);
    } else {
      ClearSocketKeeps(c);
      assert Hello(c, message) == FailHandshake(c);
    }
  }

  lemma ReceiveKeeps(c: Client, message: Message)
    requires Settling(c)
    ensures Settling(Received(c, message))
  {
    if !c.socket.NoSocket? {
      if !c.handshaken && IsHello(message) {
        HelloKeeps(c, message);
      } else {
        DispatchKeeps(c, message);
      }
    }
  }

  lemma {:induction false} QuietStepKeeps(c: Client, step: Step)
    requires Settling(c) && !step.Send?
    ensures Settling(Next(c, step))
  {
    var t := Next(c, step);
    ClearSocketKeeps(c);
    if step.Receive? {
      ReceiveKeeps(c, step.message);
    } else if step.TimerFired? {
      SettleKeeps(c, step.id, Rejected(TimedOut));
      assert t == c || t == Settle(c, step.id, Rejected(TimedOut));
    } else if step.Connect? || step.Opened? || step.LeftOpen? {
      ConnectionKeeps(c, t);
    } else {
      assert t == c || t == FailHandshake(c) || t == ClearSocket(c)
          || t == ClearSocket(ClearPending(c, ConnectionClosed));
    }
  }

  /** Only sending issues identifiers. */
  lemma {:induction false} QuietStepIssuesNothing(c: Client, step: Step)
    requires !step.Send?
    ensures Next(c, step).issued == c.issued && Next(c, step).counters == c.counters
  {
  }

  lemma ClearedKeepsInv(c: Client)
    requires Inv(c)
    ensures Inv(ClearSocket(c))
  {
    ClearSocketKeeps(c);
  }

  lemma SendKeepsInv(c: Client, command: Command, stamp: nat, uuid: string, sendOk: bool)
    requires Inv(c)
    ensures Inv(Next(c, Send(command, stamp, uuid, sendOk)))
  {
    if c.socket.Open? {
      RegisterKeepsInv(c, command, stamp, uuid);
      if !sendOk {
        ClearedKeepsInv(Register(c, command, stamp, uuid));
      }
    }
  }

  lemma StepKeepsInv(c: Client, step: Step)
    requires Inv(c)
    ensures Inv(Next(c, step))
  {
    if step.Send? {
      SendKeepsInv(c, step.command, step.stamp, step.uuid, step.sendOk);
    } else {
      QuietStepKeeps(c, step);
      QuietStepIssuesNothing(c, step);
    }
  }

  lemma {:induction false} RunKeepsInv(steps: seq<Step>)
    ensures Inv(Run(steps))
  {
    if steps != [] {
      RunKeepsInv(steps[..|steps| - 1]);
      StepKeepsInv(Run(steps[..|steps| - 1]), steps[|steps| - 1]);
    }
  }

  // ---- What callers rely on ----

  lemma {:induction false} IssuedOnce(issued: seq<Request>, r: Request)
    requires DistinctIds(issued)
    ensures multiset(issued)[r] == if r in issued then 1 else 0
  {
    if issued != [] {
      var init, last := issued[..|issued| - 1], issued[|issued| - 1];
      IssuedOnce(init, r);
      if r in init {
        IssuedHasId(init, r);
      }
      assert issued == init + [last];
    }
  }

  lemma {:induction false} IdIsUnique(issued: seq<Request>, q: Request, r: Request)
    requires DistinctIds(issued) && q in issued && r in issued && q.id == r.id
    ensures q == r
  {
    var init, last := issued[..|issued| - 1], issued[|issued| - 1];
    assert issued == init + [last];
    if q in init {
      IssuedHasId(init, q);
      if r in init {
        IdIsUnique(init, q, r);
      }
    } else if r in init {
      IssuedHasId(init, r);
    }
  }

  /**
   * Every request issued so far is either waiting, with its timer armed, or was
   * settled exactly once; without a connection none is waiting.
   */
  lemma {:induction false} SettledExactlyOnce(steps: seq<Step>, r: Request)
    requires r in Run(steps).issued
    ensures var c := Run(steps); var id := r.id; var settled := multiset(Requests(c.settled))[r];
            && settled == (if id in Keys(c.pending) then 0 else 1)
            && (id in c.timers <==> id in Keys(c.pending))
            && (c.socket.NoSocket? ==> c.pending == [] && settled == 1)
  {
    var c := Run(steps);
    RunKeepsInv(steps);
    IssuedOnce(c.issued, r);
    FiledFind(c.pending, r.id);
    if r.id in Keys(c.pending) {
      WaitingIsIssued(c, r.id);
      IdIsUnique(c.issued, Find(c.pending, r.id).value, r);
    }
    WaitingHasId(c.pending, r);
    assert multiset(c.issued)[r] == multiset(Values(c.pending))[r] + multiset(Requests(c.settled))[r];
  }

  lemma {:induction false} WaitingHasId(pending: Entries<string, Request>, r: Request)
    requires Filed(pending)
    ensures r in Values(pending) ==> r.id in Keys(pending)
  {
    if pending != [] {
      WaitingHasId(pending[1..], r);
    }
  }

  /** A request is only ever resolved by a valid reply that names it and is of a type its command expects. */
  lemma {:induction false} ResolvedByItsReply(steps: seq<Step>, i: nat)
    requires i < |Run(steps).settled| && Run(steps).settled[i].outcome.Resolved?
    ensures var s := Run(steps).settled[i]; var m := s.outcome.message;
            && s.request in Run(steps).issued
            && m.requestId == Some(s.request.id) && m.valid
            && m.kind in ExpectedTypes(s.request.command) && m.kind != "error" && m.kind != "auth_error"
  {
    RunKeepsInv(steps);
    SettledRequest(Run(steps).settled, i);
    assert Run(steps).settled[i].request in multiset(Values(Run(steps).pending))
        + multiset(Requests(Run(steps).settled));
  }

  lemma {:induction false} SettledRequest(settled: seq<Settlement>, i: nat)
    requires i < |settled| && AllFit(settled)
    ensures settled[i].request in Requests(settled) && Fits(settled[i])
  {
    if i > 0 {
      SettledRequest(settled[1..], i - 1);
    }
  }

  // ---- Handshake timers ----

  /** The connection is open for requests: its hello has come. */
  predicate Established(c: Client) {
    c.handshaken && !c.socket.NoSocket?
  }

  /** Closing, or a failing send, while the hello is outstanding. */
  predicate Abandons(c: Client, step: Step) {
    && !c.socket.NoSocket? && !c.handshaken
    && (step.Close? || (step.Send? && !step.sendOk && c.socket.Open?))
  }

  predicate NeverAbandons(steps: seq<Step>) {
    steps == [] || (NeverAbandons(steps[..|steps| - 1]) && !Abandons(Run(steps[..|steps| - 1]), steps[|steps| - 1]))
  }

  /** Every armed handshake timer belongs to the connection attempt under way. */
  predicate TimersBelong(c: Client) {
    c.openHandshakes == if !c.socket.NoSocket? && !c.handshaken then 1 else 0
  }

  ghost predicate TimersAlwaysBelong(steps: seq<Step>) {
    TimersBelong(Run(steps)) && (steps == [] || TimersAlwaysBelong(steps[..|steps| - 1]))
  }

  lemma TimersBelongStep(c: Client, step: Step)
    requires TimersBelong(c)
    ensures TimersBelong(Next(c, step)) <==> !Abandons(c, step)
  {
  }

  /**
   * Over every run: a handshake timer outlives its attempt if and only if some attempt
   * was closed before its hello. If none was, no timer can end an established connection.
   */
  lemma {:induction false} TimersBelongIff(steps: seq<Step>)
    ensures TimersAlwaysBelong(steps) <==> NeverAbandons(steps)
    ensures NeverAbandons(steps) && Established(Run(steps)) ==> Next(Run(steps), HandshakeExpired) == Run(steps)
  {
    if steps != [] {
      var init := steps[..|steps| - 1];
      TimersBelongIff(init);
      if TimersBelong(Run(init)) {
        TimersBelongStep(Run(init), steps[|steps| - 1]);
      }
    }
  }

  /** A later connection is opened and greeted, and a request is sent on it. */
  function Reconnected(c: Client, command: Command, stamp: nat, uuid: string): Client {
    Next(Next(Next(Next(c, Connect), Opened), Receive(Message(None, "hello", true))), Send(command, stamp, uuid, true))
  }

  /**
   * Any abandoned attempt is enough: on the next connection, established and with a
   * request waiting, the old timer drops the connection and rejects the request.
   */
  lemma AbandonedTimerEndsConnection(steps: seq<Step>, step: Step, command: Command, stamp: nat, uuid: string)
    requires NeverAbandons(steps) && Abandons(Run(steps), step)
    ensures var c := Reconnected(Next(Run(steps), step), command, stamp, uuid);
            var t := Next(c, HandshakeExpired);
            && Established(c) && |c.pending| == 1 && t.socket.NoSocket? && t.pending == []
            && t.settled == c.settled + [Settlement(c.pending[0].1, Rejected(ConnectionClosed))]
  {
    TimersBelongIff(steps);
    var abandoned := Next(Run(steps), step);
    assert abandoned.socket.NoSocket? && abandoned.pending == [] && abandoned.openHandshakes == 1;
    var greeted := Next(Next(Next(abandoned, Connect), Opened), Receive(Message(None, "hello", true)));
    assert greeted.socket.Open? && greeted.handshaken && greeted.openHandshakes == 1 && greeted.pending == [];
    var c := Next(greeted, Send(command, stamp, uuid, true));
    assert c.pending == [c.pending[0]];
    assert Rejections(c.pending, ConnectionClosed) == [Settlement(c.pending[0].1, Rejected(ConnectionClosed))]
        + Rejections([], ConnectionClosed);
  }

  // ---- The object ----

  class CommandRelayClient {
    var socket: Socket
    var handshaken: bool
    var openHandshakes: nat
    var pendingRequests: Entries<string, Request>
    var timers: set<string>
    var requestPrefixCounter: map<string, nat>
    var settled: seq<Settlement>
    var issued: seq<Request>

    constructor ()
      ensures Value() == Start()
    {
      socket, handshaken, openHandshakes, pendingRequests := NoSocket, false, 0, [];
      timers, requestPrefixCounter, settled, issued := {}, map[], [], [];
    }

    function Value(): Client
      reads this
    {
      Client(socket, handshaken, openHandshakes, pendingRequests, timers, requestPrefixCounter, settled, issued)
    }

    method OpenConnection() returns (exists_: bool)
      modifies this
      ensures Value() == Next(old(Value()), Connect) && exists_ == !old(socket).NoSocket?
    {
      if !socket.NoSocket? {
        return true;
      }
      socket, handshaken, openHandshakes := Connecting, false, openHandshakes + 1;
      return false;
    }

    method NextRequestId(command: Command, stamp: nat, uuid: string) returns (r: Request)
      modifies this`requestPrefixCounter
      ensures r.n == Counter(old(requestPrefixCounter), Name(command)) + 1
      ensures r == Request(command, r.n, IdText(command, stamp, uuid, r.n))
      ensures requestPrefixCounter == old(requestPrefixCounter)[Name(command) := r.n]
    {
      var prefix := Name(command);
      var nextValue := (if prefix in requestPrefixCounter then requestPrefixCounter[prefix] else 0) + 1;
      requestPrefixCounter := requestPrefixCounter[prefix := nextValue];
      r := Request(command, nextValue, IdText(command, stamp, uuid, nextValue));
    }

    method PromiseForRequest(r: Request)
      modifies this`timers, this`pendingRequests, this`issued
      ensures timers == old(timers) + {r.id} && pendingRequests == old(pendingRequests) + [(r.id, r)]
      ensures issued == old(issued) + [r]
    {
      timers := timers + {r.id};
      pendingRequests := pendingRequests + [(r.id, r)];
      issued := issued + [r];
    }

    /** sent says whether the caller has a promise to wait on; otherwise an error is thrown. */
    method SendRequest(command: Command, stamp: nat, uuid: string, sendOk: bool) returns (sent: bool)
      modifies this
      ensures Value() == Next(old(Value()), Send(command, stamp, uuid, sendOk))
      ensures sent == (old(socket).Open? && sendOk)
    {
      if !socket.Open? {
        return false;
      }
      var r := NextRequestId(command, stamp, uuid);
      PromiseForRequest(r);
      assert Value() == Register(old(Value()), command, stamp, uuid);
      if !sendOk {
        CloseConnection();
        CancelPendingRequest(r.id);
        return false;
      }
      return true;
    }

    /** Drops a request without settling it. */
    method CancelPendingRequest(id: string)
      requires Find(pendingRequests, id).Some? ==> id in timers
      modifies this`pendingRequests, this`timers
      ensures pendingRequests == Without(old(pendingRequests), id)
      ensures timers == if Find(old(pendingRequests), id).Some? then old(timers) - {id} else old(timers)
    {
      FindIsMembership(pendingRequests, id);
      AbsentKeyStays(pendingRequests, id);
      if Find(pendingRequests, id).None? {
        return;
      }
      timers := timers - {id};
      pendingRequests := Without(pendingRequests, id);
    }

    method SettleRequest(r: Request, id: string, outcome: Outcome)
      requires Find(pendingRequests, id) == Some(r)
      modifies this`pendingRequests, this`timers, this`settled
      ensures Value() == Settle(old(Value()), id, outcome)
    {
      settled := settled + [Settlement(r, outcome)];
      timers := timers - {id};
      pendingRequests := Without(pendingRequests, id);
    }

    method DispatchIncoming(message: Message)
      modifies this`pendingRequests, this`timers, this`settled
      ensures Value() == Dispatch(old(Value()), message)
    {
      if message.requestId.None? {
        return;
      }
      var id := message.requestId.value;
      var pending := Find(pendingRequests, id);
      if pending.Some? {
        var r := pending.value;
        if message.kind !in ExpectedTypes(r.command) {
          SettleRequest(r, id, Rejected(UnexpectedType));
          return;
        }
        if !message.valid {
          SettleRequest(r, id, Rejected(InvalidPayload));
          return;
        }
        if message.kind == "error" || message.kind == "auth_error" {
          SettleRequest(r, id, Rejected(ProtocolError(message)));
        } else {
          SettleRequest(r, id, Resolved(message));
        }
      }
    }

    method HandleMessage(message: Message)
      modifies this
      ensures Value() == Next(old(Value()), Receive(message))
    {
      if socket.NoSocket? {
        return;
      }
      if !handshaken && IsHello(message) {
        if !message.valid {
          SettleError();
          return;
        }
        handshaken := true;
        openHandshakes := Max(0, openHandshakes - 1);
      }
      DispatchIncoming(message);
    }

    method RequestTimeout(id: string)
      requires id in timers ==> Find(pendingRequests, id).Some?
      modifies this
      ensures Value() == Next(old(Value()), TimerFired(id))
    {
      if id in timers {
        SettleRequest(Find(pendingRequests, id).value, id, Rejected(TimedOut));
      }
    }

    method ClearPendingRequests(error: Error)
      modifies this`pendingRequests, this`timers, this`settled
      ensures Value() == ClearPending(old(Value()), error)
    {
      var i := 0;
      ghost var before := settled;
      while i < |pendingRequests|
        invariant i <= |pendingRequests| && pendingRequests == old(pendingRequests)
        invariant before + Rejections(pendingRequests, error) == settled + Rejections(pendingRequests[i..], error)
      {
        settled := settled + [Settlement(pendingRequests[i].1, Rejected(error))];
        i := i + 1;
      }
      timers := {};
      pendingRequests := [];
    }

    method ClearConnection()
      modifies this
      ensures Value() == ClearSocket(old(Value()))
    {
      socket := NoSocket;
      ClearPendingRequests(ConnectionClosed);
    }

    method CloseConnection()
      modifies this
      ensures Value() == Next(old(Value()), Close)
    {
      ClearConnection();
    }

    method SettleError()
      modifies this
      ensures Value() == FailHandshake(old(Value()))
    {
      openHandshakes := Max(0, openHandshakes - 1);
      ClearConnection();
    }

    method OnSocketClosed()
      modifies this
      ensures Value() == Next(old(Value()), SocketClosed)
    {
      if socket.NoSocket? {
        return;
      }
      if !handshaken {
        SettleError();
        return;
      }
      ClearPendingRequests(ConnectionClosed);
      ClearConnection();
    }

    method OnHandshakeTimeout()
      modifies this
      ensures Value() == Next(old(Value()), HandshakeExpired)
    {
      if openHandshakes > 0 {
        SettleError();
      }
    }
  }
}
