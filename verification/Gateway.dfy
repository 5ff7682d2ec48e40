/**
 * The gateway: what each client message, connection event and poll does to the
 * clients, the lane leases, the two limiters and the engine, first as a step
 * relation on values and then as the server object that updates them in place.
 */
module Gateway {
  import opened Common
  import opened Ownership
  import RL = RateLimiter
  import E = Engine

  const RATE_WINDOW_MS: nat := 60_000

  /** An empty authToken means that no token is required. */
  datatype Config = Config(
    authToken: string,
    maxAttachedPanes: nat,
    maxInputBytes: nat,
    maxMessagesPerMinute: int,
    maxInputsPerMinute: int,
    globalInputDisabled: bool,
    overrideAllowed: bool,
    leaseMs: int,
    maxHistory: nat)

  datatype Client = Client(authenticated: bool, inputEnabled: bool, attachedPanes: set<PaneId>)

  /** A parsed message; a pane id or token that is not a non-empty string is absent or empty. */
  datatype Message =
    | Malformed
    | Auth(token: string)
    | ListSessions
    | Attach(paneId: Option<PaneId>, lastSeq: Option<int>)
    | DetachPane(paneId: Option<PaneId>)
    | EnableInput
    | DisableInput
    | Input(paneId: Option<PaneId>, data: string, override: bool)
    | Heartbeat
    | Disconnect
    | Unknown

  /** The clock reads a message can make, in order, and what the runtime answers. */
  datatype Env = Env(messageNow: int, inputNow: int, sweepNow: int, setNow: int, capture: Option<string>, writeOk: bool)

  datatype Reply =
    | RateLimited(retryAfterMs: int)
    | ParseError
    | AuthRequired
    | AuthOk
    | InvalidToken
    | SessionList
    | InvalidPaneId
    | MaxAttachedPanesExceeded
    | AckAttach(paneId: PaneId)
    | RuntimeFailure
    | AckDetach(paneId: PaneId)
    | PolicyUpdate(inputEnabled: bool, globalInputDisabled: bool)
    | InputRateLimited(retryAfterMs: int)
    | InputDisabled
    | InvalidInput
    | PaneNotAttached
    | InputTooLarge(maxInputBytes: nat, receivedBytes: nat)
    | LaneConflict(paneId: PaneId, ownerClientId: ClientId, overrideAllowed: bool)
    | AckInput(paneId: PaneId, bytes: nat)
    | HeartbeatAck
    | AckDisconnect
    | UnknownType

  /** What the safety properties of whole runs talk about. */
  datatype TraceEvent =
    | Admitted(client: ClientId, at: int)
    | Dispatched(client: ClientId, paneId: PaneId, data: string, admittedAt: int, at: int, byOverride: bool)
    | LeftPane(client: ClientId, paneId: PaneId)
    | Gone(client: ClientId)

  datatype State = State(
    clients: map<ClientId, Client>,
    owners: map<PaneId, Lease>,
    messageTimes: map<ClientId, seq<int>>,
    inputTimes: map<ClientId, seq<int>>,
    engine: E.State,
    now: int,
    used: set<ClientId>,
    trace: seq<TraceEvent>)

  function Init(now: int): State {
    State(map[], map[], map[], map[], E.IDLE, now, {}, [])
  }

  function Utf8Length(data: string): nat {
    if data == [] then 0
    else
      (if data[0] < 0x80 as char then 1 else if data[0] < 0x800 as char then 2 else if data[0] < 0x10000 as char then 3
       else 4)
      + Utf8Length(data[1..])
  }

  // ---- Steps on values ----

  function Connect(s: State, c: ClientId, cfg: Config): State {
    s.(clients := s.clients[c := Client(cfg.authToken == "", false, {})], used := s.used + {c})
  }

  function SetClient(s: State, c: ClientId, client: Client): State {
    s.(clients := s.clients[c := client])
  }

  function HandleAttach(s: State, c: ClientId, paneId: Option<PaneId>, lastSeq: Option<int>, env: Env,
                        cfg: Config): (State, Reply)
    requires c in s.clients
  {
    var client := s.clients[c];
    if paneId.None? then (s, InvalidPaneId)
    else if paneId.value !in client.attachedPanes && |client.attachedPanes| >= cfg.maxAttachedPanes then
      (s, MaxAttachedPanesExceeded)
    else
      var p := paneId.value;
      var (engine, done) := E.Attach(s.engine, c, p, lastSeq, env.capture, cfg.maxHistory);
      var t := SetClient(s, c, client.(attachedPanes := client.attachedPanes + {p})).(engine := engine);
      (t, if done.Some? then AckAttach(p) else RuntimeFailure)
  }

  function HandleDetach(s: State, c: ClientId, paneId: Option<PaneId>, env: Env): (State, Reply)
    requires c in s.clients
  {
    if paneId.None? then (s, InvalidPaneId)
    else
      var p := paneId.value;
      var client := s.clients[c];
      var t := SetClient(s, c, client.(attachedPanes := client.attachedPanes - {p}));
      (t.(owners := ReleasePane(s.owners, p, c, env.sweepNow).0,
          engine := E.Detach(s.engine, c, p),
          now := env.sweepNow,
          trace := s.trace + [LeftPane(c, p)]),
       AckDetach(p))
  }

  function HandleInput(s: State, c: ClientId, paneId: Option<PaneId>, data: string, override: bool, env: Env,
                       cfg: Config)
    : (State, Reply)
    requires c in s.clients
  {
    var (history, d) := RL.Consume(RL.HistoryOf(s.inputTimes, c), env.inputNow, cfg.maxInputsPerMinute, RATE_WINDOW_MS);
    var t := s.(inputTimes := s.inputTimes[c := history], now := env.inputNow);
    if !d.allowed then (t, InputRateLimited(d.retryAfterMs))
    else HandleAdmitted(t.(trace := s.trace + [Admitted(c, env.inputNow)]), c, paneId, data, override, env, cfg)
  }

  /** An input that passed the input limiter. */
  function HandleAdmitted(s: State, c: ClientId, paneId: Option<PaneId>, data: string, override: bool, env: Env,
                          cfg: Config)
    : (State, Reply)
    requires c in s.clients
  {
    var client := s.clients[c];
    if !client.inputEnabled || cfg.globalInputDisabled then (s, InputDisabled)
    else if paneId.None? || data == "" then (s, InvalidInput)
    else if paneId.value !in client.attachedPanes then (s, PaneNotAttached)
    else if Utf8Length(data) > cfg.maxInputBytes then (s, InputTooLarge(cfg.maxInputBytes, Utf8Length(data)))
    else ClaimAndWrite(s, c, paneId.value, data, override, env, cfg)
  }

  function ClaimAndWrite(s: State, c: ClientId, p: PaneId, data: string, override: bool, env: Env, cfg: Config)
    : (State, Reply)
  {
    var (owners, r) := Claim(s.owners, p, c, override, cfg.overrideAllowed, env.sweepNow, env.setNow, cfg.leaseMs);
    if r.Refused? then
      (s.(owners := owners, now := env.sweepNow), LaneConflict(p, r.ownerClientId, r.overrideAllowed))
    else
      (s.(owners := owners, now := env.setNow,
          trace := s.trace + [Dispatched(c, p, data, env.inputNow, env.setNow, override && cfg.overrideAllowed)]),
       if env.writeOk then AckInput(p, Utf8Length(data)) else RuntimeFailure)
  }

  function HandleDisconnect(s: State, c: ClientId, env: Env): (State, Reply)
    requires c in s.clients
  {
    (Leave(SetClient(s, c, s.clients[c].(inputEnabled := false, attachedPanes := {})), c, env.sweepNow), AckDisconnect)
  }

  /** What a disconnect request and a closed socket have in common. */
  function Leave(s: State, c: ClientId, sweepNow: int): State {
    s.(owners := ReleaseClient(s.owners, c, sweepNow).0,
       engine := E.DetachAll(s.engine, c),
       now := sweepNow,
       trace := s.trace + [Gone(c)])
  }

  function Handle(s: State, c: ClientId, m: Message, env: Env, cfg: Config): (State, Reply)
    requires c in s.clients
  {
    var client := s.clients[c];
    if !client.authenticated && !m.Auth? then (s, AuthRequired)
    else
      match m
      case Malformed => (s, ParseError)
      case Auth(token) =>
        if cfg.authToken == "" || token == cfg.authToken then (SetClient(s, c, client.(authenticated := true)), AuthOk)
        else (s, InvalidToken)
      case ListSessions => (s, SessionList)
      case Attach(paneId, lastSeq) => HandleAttach(s, c, paneId, lastSeq, env, cfg)
      case DetachPane(paneId) => HandleDetach(s, c, paneId, env)
      case EnableInput =>
        var enabled := !cfg.globalInputDisabled;
        (SetClient(s, c, client.(inputEnabled := enabled)),
         PolicyUpdate(enabled && !cfg.globalInputDisabled, cfg.globalInputDisabled))
      case DisableInput =>
        (SetClient(s, c, client.(inputEnabled := false)), PolicyUpdate(false, cfg.globalInputDisabled))
      case Input(paneId, data, override) => HandleInput(s, c, paneId, data, override, env, cfg)
      case Heartbeat => (s, HeartbeatAck)
      case Disconnect => HandleDisconnect(s, c, env)
      case Unknown => (s, UnknownType)
  }

  function Receive(s: State, c: ClientId, m: Message, env: Env, cfg: Config): (State, Reply)
    requires c in s.clients
  {
    var (history, d) := RL.Consume(RL.HistoryOf(s.messageTimes, c), env.messageNow, cfg.maxMessagesPerMinute,
                                   RATE_WINDOW_MS);
    var t := s.(messageTimes := s.messageTimes[c := history], now := env.messageNow);
    if !d.allowed then (t, RateLimited(d.retryAfterMs))
    else if m.Malformed? then (t, ParseError)
    else Handle(t, c, m, env, cfg)
  }

  function Close(s: State, c: ClientId, sweepNow: int): State {
    var t := Leave(s, c, sweepNow);
    t.(clients := s.clients - {c}, messageTimes := s.messageTimes - {c}, inputTimes := s.inputTimes - {c})
  }

  function ReportLanes(s: State, now: int): State {
    s.(owners := Sweep(s.owners, now), now := now)
  }

  function PollPane(s: State, p: PaneId, output: Option<string>, cfg: Config): State
    requires p in s.engine.panes
  {
    s.(engine := E.PollPane(s.engine, p, output, cfg.maxHistory))
  }

  // ---- Runs ----

  datatype Step =
    | ConnectStep(client: ClientId)
    | ReceiveStep(client: ClientId, message: Message, env: Env)
    | CloseStep(client: ClientId, sweepNow: int)
    | ReportStep(now: int)
    | PollStep(paneId: PaneId, output: Option<string>)

  /** Connection ids are never empty and never reused; only open sockets deliver messages; the clock never goes back. */
  predicate Possible(s: State, step: Step) {
    match step
    case ConnectStep(c) => c != "" && c !in s.used
    case ReceiveStep(c, _, env) => c in s.clients && s.now <= env.messageNow <= env.inputNow <= env.sweepNow
        <= env.setNow
    case CloseStep(c, sweepNow) => c in s.clients && s.now <= sweepNow
    case ReportStep(now) => s.now <= now
    case PollStep(p, _) => p in s.engine.panes
  }

  function Next(s: State, step: Step, cfg: Config): State
    requires Possible(s, step)
  {
    match step
    case ConnectStep(c) => Connect(s, c, cfg)
    case ReceiveStep(c, m, env) => Receive(s, c, m, env, cfg).0
    case CloseStep(c, sweepNow) => Close(s, c, sweepNow)
    case ReportStep(now) => ReportLanes(s, now)
    case PollStep(p, output) => PollPane(s, p, output, cfg)
  }

  predicate PossibleRun(s: State, steps: seq<Step>, cfg: Config)
    decreases |steps|
  {
    steps == [] || (Possible(s, steps[0]) && PossibleRun(Next(s, steps[0], cfg), steps[1..], cfg))
  }

  function Run(s: State, steps: seq<Step>, cfg: Config): State
    requires PossibleRun(s, steps, cfg)
    decreases |steps|
  {
    if steps == [] then s else Run(Next(s, steps[0], cfg), steps[1..], cfg)
  }

  // ---- Invariant 1: the components agree about who watches and who owns what ----

  predicate Holds(clients: map<ClientId, Client>, c: ClientId, p: PaneId) {
    c in clients && p in clients[c].attachedPanes
  }

  ghost predicate SubscribersAttached(s: State) {
    forall p, c :: p in s.engine.panes && c in s.engine.panes[p].subscribers ==> Holds(s.clients, c, p)
  }

  ghost predicate OwnersAttached(s: State) {
    forall p :: p in s.owners ==> Holds(s.clients, s.owners[p].clientId, p)
  }

  ghost predicate ClientsValid(s: State, cfg: Config) {
    && s.clients.Keys <= s.used && "" !in s.used
    && forall c :: c in s.clients ==> |s.clients[c].attachedPanes| <= cfg.maxAttachedPanes
  }

  ghost predicate ComponentsAgree(s: State, cfg: Config) {
    && E.Consistent(s.engine, cfg.maxHistory)
    && ClientsValid(s, cfg)
    && SubscribersAttached(s)
    && OwnersAttached(s)
  }

  lemma AttachSubscribers(s: E.State, c: ClientId, p: PaneId, since: Option<int>, output: Option<string>,
                          maxHistory: nat)
    requires E.Consistent(s, maxHistory)
    ensures var t := E.Attach(s, c, p, since, output, maxHistory).0;
            forall q, x :: q in t.panes && x in t.panes[q].subscribers ==>
              (q in s.panes && x in s.panes[q].subscribers) || (q == p && x == c)
  {
  }

  /** A client below the cap may gain a pane, and the engine a subscription of that client to it. */
  lemma GainAgrees(s: State, c: ClientId, p: PaneId, engine: E.State, cfg: Config)
    requires ComponentsAgree(s, cfg) && c in s.clients && E.Consistent(engine, cfg.maxHistory)
    requires p in s.clients[c].attachedPanes || |s.clients[c].attachedPanes| < cfg.maxAttachedPanes
    requires forall q, x :: q in engine.panes && x in engine.panes[q].subscribers ==>
               (q in s.engine.panes && x in s.engine.panes[q].subscribers) || (q == p && x == c)
    ensures var client := s.clients[c].(attachedPanes := s.clients[c].attachedPanes + {p});
            ComponentsAgree(SetClient(s, c, client).(engine := engine), cfg)
  {
    var attached := s.clients[c].attachedPanes;
    if p in attached {
      assert attached + {p} == attached;
    }
  }

  lemma AttachAgrees(s: State, c: ClientId, paneId: Option<PaneId>, lastSeq: Option<int>, env: Env, cfg: Config)
    requires ComponentsAgree(s, cfg) && c in s.clients
    ensures ComponentsAgree(HandleAttach(s, c, paneId, lastSeq, env, cfg).0, cfg)
  {
    if paneId.Some? {
      var p := paneId.value;
      var engine := E.Attach(s.engine, c, p, lastSeq, env.capture, cfg.maxHistory).0;
      E.AttachKeepsConsistent(s.engine, c, p, lastSeq, env.capture, cfg.maxHistory);
      AttachSubscribers(s.engine, c, p, lastSeq, env.capture, cfg.maxHistory);
      if p in s.clients[c].attachedPanes || |s.clients[c].attachedPanes| < cfg.maxAttachedPanes {
        GainAgrees(s, c, p, engine, cfg);
      }
    }
  }

  lemma DetachAgrees(s: State, c: ClientId, paneId: Option<PaneId>, env: Env, cfg: Config)
    requires ComponentsAgree(s, cfg) && c in s.clients
    ensures ComponentsAgree(HandleDetach(s, c, paneId, env).0, cfg)
  {
    if paneId.Some? {
      E.DetachKeepsConsistent(s.engine, c, paneId.value, cfg.maxHistory);
      var t := HandleDetach(s, c, paneId, env).0;
      assert t.clients[c].attachedPanes <= s.clients[c].attachedPanes;
      SubsetSize(t.clients[c].attachedPanes, s.clients[c].attachedPanes);
    }
  }

  lemma {:induction false} SubsetSize(a: set<PaneId>, b: set<PaneId>)
    requires a <= b
    ensures |a| <= |b|
  {
    assert |b| == |a| + |b - a| by {
      assert b == a + (b - a);
    }
  }

  lemma InputAgrees(s: State, c: ClientId, paneId: Option<PaneId>, data: string, override: bool, env: Env, cfg: Config)
    requires ComponentsAgree(s, cfg) && c in s.clients
    ensures ComponentsAgree(HandleInput(s, c, paneId, data, override, env, cfg).0, cfg)
  {
    var t := HandleInput(s, c, paneId, data, override, env, cfg).0;
    InputOwners(s, c, paneId, data, override, env, cfg);
    assert OwnersAttached(t);
  }

  /** An input changes the owners at most by sweeping, and by giving the client a lane of a pane it is attached to. */
  lemma InputOwners(s: State, c: ClientId, paneId: Option<PaneId>, data: string, override: bool, env: Env, cfg: Config)
    requires c in s.clients
    ensures var t := HandleInput(s, c, paneId, data, override, env, cfg).0;
            && t.clients == s.clients && t.engine == s.engine && t.used == s.used
            && forall p :: p in t.owners ==>
                 (p in s.owners && t.owners[p] == s.owners[p])
                 || (t.owners[p].clientId == c && p in s.clients[c].attachedPanes)
  {
  }

  lemma LeaveAgrees(s: State, c: ClientId, sweepNow: int, cfg: Config)
    requires ComponentsAgree(s, cfg)
    ensures var t := Leave(s, c, sweepNow);
            && E.Consistent(t.engine, cfg.maxHistory)
            && (forall p, x :: p in t.engine.panes && x in t.engine.panes[p].subscribers ==>
                  x != c && Holds(s.clients, x, p))
            && (forall p :: p in t.owners ==> t.owners[p].clientId != c && Holds(s.clients, t.owners[p].clientId, p))
  {
    E.DetachAllKeepsConsistent(s.engine, c, cfg.maxHistory);
  }

  /** Changing what a client may do, and not where it is attached, touches nothing the components share. */
  lemma FlagsAgree(s: State, c: ClientId, client: Client, cfg: Config)
    requires ComponentsAgree(s, cfg) && c in s.clients && client.attachedPanes == s.clients[c].attachedPanes
    ensures ComponentsAgree(SetClient(s, c, client), cfg)
  {
  }

  lemma DisconnectAgrees(s: State, c: ClientId, env: Env, cfg: Config)
    requires ComponentsAgree(s, cfg) && c in s.clients
    ensures ComponentsAgree(HandleDisconnect(s, c, env).0, cfg)
  {
    LeaveAgrees(s, c, env.sweepNow, cfg);
  }

  lemma HandleAgrees(s: State, c: ClientId, m: Message, env: Env, cfg: Config)
    requires ComponentsAgree(s, cfg) && c in s.clients
    ensures ComponentsAgree(Handle(s, c, m, env, cfg).0, cfg)
  {
    var client := s.clients[c];
    FlagsAgree(s, c, client.(authenticated := true), cfg);
    FlagsAgree(s, c, client.(inputEnabled := false), cfg);
    FlagsAgree(s, c, client.(inputEnabled := !cfg.globalInputDisabled), cfg);
    match m
    case Attach(paneId, lastSeq) => AttachAgrees(s, c, paneId, lastSeq, env, cfg);
    case DetachPane(paneId) => DetachAgrees(s, c, paneId, env, cfg);
    case Input(paneId, data, override) => InputAgrees(s, c, paneId, data, override, env, cfg);
    case Disconnect => DisconnectAgrees(s, c, env, cfg);
    case _ =>
  }

  lemma ReceiveAgrees(s: State, c: ClientId, m: Message, env: Env, cfg: Config)
    requires ComponentsAgree(s, cfg) && c in s.clients
    ensures ComponentsAgree(Receive(s, c, m, env, cfg).0, cfg)
  {
    var (history, d) := RL.Consume(RL.HistoryOf(s.messageTimes, c), env.messageNow, cfg.maxMessagesPerMinute,
                                   RATE_WINDOW_MS);
    HandleAgrees(s.(messageTimes := s.messageTimes[c := history], now := env.messageNow), c, m, env, cfg);
  }

  lemma CloseAgrees(s: State, c: ClientId, sweepNow: int, cfg: Config)
    requires ComponentsAgree(s, cfg)
    ensures ComponentsAgree(Close(s, c, sweepNow), cfg)
  {
    LeaveAgrees(s, c, sweepNow, cfg);
  }

  lemma StepAgrees(s: State, step: Step, cfg: Config)
    requires ComponentsAgree(s, cfg) && Possible(s, step)
    ensures ComponentsAgree(Next(s, step, cfg), cfg)
  {
    match step
    case ConnectStep(c) =>
    case ReceiveStep(c, m, env) => ReceiveAgrees(s, c, m, env, cfg);
    case CloseStep(c, sweepNow) => CloseAgrees(s, c, sweepNow, cfg);
    case ReportStep(now) =>
    case PollStep(p, output) => E.PollKeepsConsistent(s.engine, p, output, cfg.maxHistory);
  }

  /**
   * Over every run in which first attaches are atomic: each lane lease and each
   * engine subscription belongs to a connected client attached to that pane, no
   * client is attached to more panes than allowed, every watched pane has a
   * subscriber and an event, and the poll timer is set exactly while something is watched.
   */
  lemma {:induction false} ComponentsAgreeAlways(s: State, steps: seq<Step>, cfg: Config)
    requires ComponentsAgree(s, cfg) && PossibleRun(s, steps, cfg)
    ensures ComponentsAgree(Run(s, steps, cfg), cfg)
    decreases |steps|
  {
    if steps != [] {
      StepAgrees(s, steps[0], cfg);
      ComponentsAgreeAlways(Next(s, steps[0], cfg), steps[1..], cfg);
    }
  }

  /** In particular from the start on. */
  lemma ReachableAgrees(start: int, steps: seq<Step>, cfg: Config)
    requires PossibleRun(Init(start), steps, cfg)
    ensures ComponentsAgree(Run(Init(start), steps, cfg), cfg)
  {
    ComponentsAgreeAlways(Init(start), steps, cfg);
  }
}
