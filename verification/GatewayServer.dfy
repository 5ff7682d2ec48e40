/**
 * The gateway server object. Each handler updates the client records and calls the
 * engine, the limiters and the lane arbiter in the order the server does, and is
 * proved to take exactly the corresponding step of module Gateway.
 */
module GatewayServer {
  import opened Common
  import opened Ownership
  import opened Gateway
  import RL = RateLimiter
  import E = Engine

  class Server {
    const cfg: Config
    const arbiter: PaneInputOwnershipArbiter
    const messageLimiter: RL.SlidingWindowRateLimiter
    const inputLimiter: RL.SlidingWindowRateLimiter
    const engine: E.BridgeEngine
    var clients: map<ClientId, Client>
    var trace: seq<TraceEvent>
    ghost var used: set<ClientId>
    ghost var now: int

    constructor (cfg: Config, leaseMs: Option<int>, ghost start: int)
      ensures Valid() && this.cfg == cfg.(leaseMs := ResolveLeaseDuration(leaseMs))
      ensures Model() == Init(start)
    {
      this.cfg := cfg.(leaseMs := ResolveLeaseDuration(leaseMs));
      arbiter := new PaneInputOwnershipArbiter(leaseMs);
      messageLimiter := new RL.SlidingWindowRateLimiter(cfg.maxMessagesPerMinute, RATE_WINDOW_MS);
      inputLimiter := new RL.SlidingWindowRateLimiter(cfg.maxInputsPerMinute, RATE_WINDOW_MS);
      engine := new E.BridgeEngine(cfg.maxHistory);
      clients, trace, used, now := map[], [], {}, start;
    }

    ghost predicate Valid()
      reads this, engine
    {
      && engine.Valid() && engine.maxHistoryEvents == cfg.maxHistory
      && arbiter.leaseDurationMs == cfg.leaseMs
      && messageLimiter != inputLimiter
      && messageLimiter.maxEvents == cfg.maxMessagesPerMinute && messageLimiter.windowMs == RATE_WINDOW_MS
      && inputLimiter.maxEvents == cfg.maxInputsPerMinute && inputLimiter.windowMs == RATE_WINDOW_MS
    }

    ghost function Model(): State
      reads this, arbiter, messageLimiter, inputLimiter, engine, engine.panes.Values
    {
      State(clients, arbiter.paneOwners, messageLimiter.timestamps, inputLimiter.timestamps, engine.Model(), now, used,
            trace)
    }

    method OnConnection(c: ClientId)
      requires Valid()
      modifies this
      ensures Valid() && Model() == Connect(old(Model()), c, cfg)
    {
      clients := clients[c := Client(cfg.authToken == "", false, {})];
      used := used + {c};
    }

    method OnMessage(c: ClientId, m: Message, env: Env) returns (reply: Reply)
      requires Valid() && c in clients
      modifies this, arbiter, messageLimiter, inputLimiter, engine, engine.panes.Values
      ensures Valid()
      ensures Model() == Receive(old(Model()), c, m, env, cfg).0
      ensures reply == Receive(old(Model()), c, m, env, cfg).1
    {
      var rate := messageLimiter.ConsumeOne(c, env.messageNow);
      now := env.messageNow;
      if !rate.allowed {
        return RateLimited(rate.retryAfterMs);
      }
      if m.Malformed? {
        return ParseError;
      }
      reply := HandleClientMessage(c, m, env);
    }

    method HandleClientMessage(c: ClientId, m: Message, env: Env) returns (reply: Reply)
      requires Valid() && c in clients
      modifies this, arbiter, inputLimiter, engine, engine.panes.Values
      ensures Valid()
      ensures Model() == Handle(old(Model()), c, m, env, cfg).0
      ensures reply == Handle(old(Model()), c, m, env, cfg).1
    {
      var client := clients[c];
      if !client.authenticated && !m.Auth? {
        return AuthRequired;
      }
      match m
      case Malformed => return ParseError;
      case Auth(token) =>
        if cfg.authToken != "" && token != cfg.authToken {
          return InvalidToken;
        }
        clients := clients[c := client.(authenticated := true)];
        return AuthOk;
      case ListSessions => return SessionList;
      case Attach(paneId, lastSeq) => reply := OnAttach(c, paneId, lastSeq, env);
      case DetachPane(paneId) => reply := OnDetach(c, paneId, env);
      case EnableInput =>
        var enabled := !cfg.globalInputDisabled;
        clients := clients[c := client.(inputEnabled := enabled)];
        return PolicyUpdate(enabled && !cfg.globalInputDisabled, cfg.globalInputDisabled);
      case DisableInput =>
        clients := clients[c := client.(inputEnabled := false)];
        return PolicyUpdate(false, cfg.globalInputDisabled);
      case Input(paneId, data, override) => reply := OnInput(c, paneId, data, override, env);
      case Heartbeat => return HeartbeatAck;
      case Disconnect => reply := OnDisconnect(c, env);
      case Unknown => return UnknownType;
    }

    method OnAttach(c: ClientId, paneId: Option<PaneId>, lastSeq: Option<int>, env: Env) returns (reply: Reply)
      requires Valid() && c in clients
      modifies this, engine, engine.panes.Values
      ensures Valid()
      ensures Model() == HandleAttach(old(Model()), c, paneId, lastSeq, env, cfg).0
      ensures reply == HandleAttach(old(Model()), c, paneId, lastSeq, env, cfg).1
    {
      var client := clients[c];
      if paneId.None? {
        return InvalidPaneId;
      }
      if paneId.value !in client.attachedPanes && |client.attachedPanes| >= cfg.maxAttachedPanes {
        return MaxAttachedPanesExceeded;
      }
      ghost var watched := engine.Model();
      clients := clients[c := client.(attachedPanes := client.attachedPanes + {paneId.value})];
      assert engine.Model() == watched;
      var done := engine.AttachClient(c, paneId.value, lastSeq, env.capture);
      reply := if done.Some? then AckAttach(paneId.value) else RuntimeFailure;
    }

    method OnDetach(c: ClientId, paneId: Option<PaneId>, env: Env) returns (reply: Reply)
      requires Valid() && c in clients
      modifies this, arbiter, engine, engine.panes.Values
      ensures Valid()
      ensures Model() == HandleDetach(old(Model()), c, paneId, env).0
      ensures reply == HandleDetach(old(Model()), c, paneId, env).1
    {
      if paneId.None? {
        return InvalidPaneId;
      }
      var p := paneId.value;
      ghost var watched := engine.Model();
      clients := clients[c := clients[c].(attachedPanes := clients[c].attachedPanes - {p})];
      var released := arbiter.ReleasePaneIfOwnedBy(p, c, env.sweepNow);
      now := env.sweepNow;
      trace := trace + [LeftPane(c, p)];
      assert engine.Model() == watched;
      engine.DetachClient(c, p);
      reply := AckDetach(p);
    }

    method OnInput(c: ClientId, paneId: Option<PaneId>, data: string, override: bool, env: Env) returns (reply: Reply)
      requires Valid() && c in clients
      modifies this`now, this`trace, arbiter, inputLimiter
      ensures Valid()
      ensures Model() == HandleInput(old(Model()), c, paneId, data, override, env, cfg).0
      ensures reply == HandleInput(old(Model()), c, paneId, data, override, env, cfg).1
    {
      var rate := inputLimiter.ConsumeOne(c, env.inputNow);
      now := env.inputNow;
      assert engine.Model() == old(engine.Model());
      if !rate.allowed {
        return InputRateLimited(rate.retryAfterMs);
      }
      trace := trace + [Admitted(c, env.inputNow)];
      assert engine.Model() == old(engine.Model());
      reply := OnAdmitted(c, paneId, data, override, env);
    }

    method OnAdmitted(c: ClientId, paneId: Option<PaneId>, data: string, override: bool, env: Env)
        returns (reply: Reply)
      requires Valid() && c in clients
      modifies this`now, this`trace, arbiter
      ensures Valid()
      ensures Model() == HandleAdmitted(old(Model()), c, paneId, data, override, env, cfg).0
      ensures reply == HandleAdmitted(old(Model()), c, paneId, data, override, env, cfg).1
    {
      var client := clients[c];
      if !client.inputEnabled || cfg.globalInputDisabled {
        return InputDisabled;
      }
      if paneId.None? || data == "" {
        return InvalidInput;
      }
      var p := paneId.value;
      if p !in client.attachedPanes {
        return PaneNotAttached;
      }
      var bytes := Utf8Length(data);
      if bytes > cfg.maxInputBytes {
        return InputTooLarge(cfg.maxInputBytes, bytes);
      }
      reply := ClaimLaneAndWrite(c, p, data, override, env);
    }

    method ClaimLaneAndWrite(c: ClientId, p: PaneId, data: string, override: bool, env: Env) returns (reply: Reply)
      requires Valid()
      modifies this`now, this`trace, arbiter
      ensures Valid()
      ensures Model() == ClaimAndWrite(old(Model()), c, p, data, override, env, cfg).0
      ensures reply == ClaimAndWrite(old(Model()), c, p, data, override, env, cfg).1
    {
      ghost var watched := engine.Model();
      var claim := arbiter.ClaimLane(p, c, override, cfg.overrideAllowed, env.sweepNow, env.setNow);
      if claim.Refused? {
        now := env.sweepNow;
        assert engine.Model() == watched;
        return LaneConflict(p, claim.ownerClientId, claim.overrideAllowed);
      }
      now := env.setNow;
      trace := trace + [Dispatched(c, p, data, env.inputNow, env.setNow, override && cfg.overrideAllowed)];
      assert engine.Model() == watched;
      reply := if env.writeOk then AckInput(p, Utf8Length(data)) else RuntimeFailure;
    }

    method OnDisconnect(c: ClientId, env: Env) returns (reply: Reply)
      requires Valid() && c in clients
      modifies this, arbiter, engine, engine.panes.Values
      ensures Valid()
      ensures Model() == HandleDisconnect(old(Model()), c, env).0
      ensures reply == AckDisconnect
    {
      engine.DetachClientFromAll(c);
      ReleaseLanes(c, env.sweepNow);
      ghost var watched := engine.Model();
      clients := clients[c := clients[c].(attachedPanes := {}, inputEnabled := false)];
      assert engine.Model() == watched;
      reply := AckDisconnect;
    }

    method OnClose(c: ClientId, sweepNow: int)
      requires Valid() && c in clients
      modifies this, arbiter, messageLimiter, inputLimiter, engine, engine.panes.Values
      ensures Valid() && Model() == Close(old(Model()), c, sweepNow)
    {
      engine.DetachClientFromAll(c);
      Forget(c, sweepNow);
    }

    /** The part of a close that does not concern the engine. */
    method Forget(c: ClientId, sweepNow: int)
      requires Valid()
      modifies this, arbiter, messageLimiter, inputLimiter
      ensures Valid() && engine.Model() == old(engine.Model())
      ensures clients == old(clients) - {c} && used == old(used)
      ensures messageLimiter.timestamps == old(messageLimiter.timestamps) - {c}
      ensures inputLimiter.timestamps == old(inputLimiter.timestamps) - {c}
      ensures arbiter.paneOwners == ReleaseClient(old(arbiter.paneOwners), c, sweepNow).0
      ensures now == sweepNow && trace == old(trace) + [Gone(c)]
    {
      ClearLimiters(c);
      ReleaseLanes(c, sweepNow);
      ghost var watched := engine.Model();
      clients := clients - {c};
      assert engine.Model() == watched;
    }

    /** Gives up every lane of the client. */
    method ReleaseLanes(c: ClientId, sweepNow: int)
      requires Valid()
      modifies this`now, this`trace, arbiter
      ensures Valid() && engine.Model() == old(engine.Model())
      ensures arbiter.paneOwners == ReleaseClient(old(arbiter.paneOwners), c, sweepNow).0
      ensures now == sweepNow && trace == old(trace) + [Gone(c)]
    {
      var releasedPanes := arbiter.ReleaseAllOf(c, sweepNow);
      assert engine.Model() == old(engine.Model());
      now := sweepNow;
      assert engine.Model() == old(engine.Model());
      trace := trace + [Gone(c)];
    }

    method ClearLimiters(c: ClientId)
      requires Valid()
      modifies messageLimiter, inputLimiter
      ensures Valid() && engine.Model() == old(engine.Model())
      ensures messageLimiter.timestamps == old(messageLimiter.timestamps) - {c}
      ensures inputLimiter.timestamps == old(inputLimiter.timestamps) - {c}
    {
      messageLimiter.Clear(c);
      assert engine.Model() == old(engine.Model());
      inputLimiter.Clear(c);
    }

    method OnPollCapture(p: PaneId, output: Option<string>)
      requires Valid() && p in engine.panes
      modifies engine`sent, engine.panes[p]
      ensures Valid() && p in old(Model()).engine.panes && Model() == PollPane(old(Model()), p, output, cfg)
    {
      engine.PollWatcher(engine.panes[p], p, output);
    }

    method LaneReport(at: int) returns (rows: map<PaneId, Lease>)
      requires Valid()
      modifies this, arbiter
      ensures Valid() && Model() == ReportLanes(old(Model()), at) && rows == Model().owners
    {
      rows := arbiter.Snapshot(at);
      now := at;
    }
  }
}
