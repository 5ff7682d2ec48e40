/**
 * Who is attached to a pane and who receives its output: a client whose attach failed
 * stays attached, so the two are not the same, and the replies a client was sent say
 * exactly which it is.
 */
module Standings {
  import opened Common
  import opened Watchers
  import opened Gateway
  import E = Engine

  /** What a client's last attach to a pane, since it last left it, came to. */
  datatype Standing = Absent | Unserved | Served

  predicate Watches(s: State, c: ClientId, p: PaneId) {
    p in s.engine.panes && c in s.engine.panes[p].subscribers
  }

  /** The standing after a reply. */
  function Answered(was: Standing, m: Message, reply: Reply, p: PaneId): Standing {
    match m
    case Attach(paneId, _) =>
      if paneId != Some(p) then was
      else if reply == AckAttach(p) then Served else if reply.RuntimeFailure? then Unserved else was
    case DetachPane(paneId) => if paneId == Some(p) && reply == AckDetach(p) then Absent else was
    case Disconnect => if reply.AckDisconnect? then Absent else was
    case _ => was
  }

  function StandingAfter(was: Standing, s: State, step: Step, cfg: Config, c: ClientId, p: PaneId): Standing
    requires Possible(s, step)
  {
    match step
    case ReceiveStep(x, m, env) => if x == c then Answered(was, m, Receive(s, c, m, env, cfg).1, p) else was
    case CloseStep(x, _) => if x == c then Absent else was
    case _ => was
  }

  function LastStanding(was: Standing, s: State, steps: seq<Step>, cfg: Config, c: ClientId, p: PaneId): Standing
    requires PossibleRun(s, steps, cfg)
    decreases |steps|
  {
    if steps == [] then was
    else LastStanding(StandingAfter(was, s, steps[0], cfg, c, p), Next(s, steps[0], cfg), steps[1..], cfg, c, p)
  }

  predicate Matches(standing: Standing, s: State, c: ClientId, p: PaneId) {
    && (Holds(s.clients, c, p) <==> standing != Absent)
    && (Watches(s, c, p) <==> standing == Served)
  }

  /** What an attach does to one subscription: only its own client's, as it was acknowledged or not. */
  lemma EngineAttachMatches(s: E.State, x: ClientId, q: PaneId, since: Option<int>, output: Option<string>,
                            maxHistory: nat, c: ClientId, p: PaneId)
    requires E.Consistent(s, maxHistory)
    ensures var (t, done) := E.Attach(s, x, q, since, output, maxHistory);
            (p in t.panes && c in t.panes[p].subscribers)
            <==> if x == c && q == p then done.Some? else p in s.panes && c in s.panes[p].subscribers
  {
    var (t, done) := E.Attach(s, x, q, since, output, maxHistory);
    if done.None? {
      assert q !in s.panes && Unsubscribe(Subscribe([], x), x) == [];
    }
  }

  lemma TakenMatches(was: Standing, s: State, x: ClientId, q: PaneId, since: Option<int>, env: Env, cfg: Config,
                     c: ClientId, p: PaneId)
    requires x in s.clients && Matches(was, s, c, p)
    requires q in s.clients[x].attachedPanes || |s.clients[x].attachedPanes| < cfg.maxAttachedPanes
    requires var (t, done) := E.Attach(s.engine, x, q, since, env.capture, cfg.maxHistory);
             (p in t.panes && c in t.panes[p].subscribers)
             <==> if x == c && q == p then done.Some? else p in s.engine.panes && c in s.engine.panes[p].subscribers
    ensures var (t, reply) := HandleAttach(s, x, Some(q), since, env, cfg);
            Matches(if x == c then Answered(was, Attach(Some(q), since), reply, p) else was, t, c, p)
  {
  }

  lemma AttachMatches(was: Standing, s: State, x: ClientId, paneId: Option<PaneId>, since: Option<int>, env: Env,
                      cfg: Config, c: ClientId, p: PaneId)
    requires ComponentsAgree(s, cfg) && x in s.clients && Matches(was, s, c, p)
    ensures var (t, reply) := HandleAttach(s, x, paneId, since, env, cfg);
            Matches(if x == c then Answered(was, Attach(paneId, since), reply, p) else was, t, c, p)
  {
    if paneId.Some? {
      var q, attached := paneId.value, s.clients[x].attachedPanes;
      if q in attached || |attached| < cfg.maxAttachedPanes {
        EngineAttachMatches(s.engine, x, q, since, env.capture, cfg.maxHistory, c, p);
        TakenMatches(was, s, x, q, since, env, cfg, c, p);
      } else {
        assert HandleAttach(s, x, paneId, since, env, cfg) == (s, MaxAttachedPanesExceeded);
      }
    }
  }

  lemma DetachMatches(was: Standing, s: State, x: ClientId, paneId: Option<PaneId>, env: Env, c: ClientId, p: PaneId)
    requires x in s.clients && Matches(was, s, c, p)
    ensures var (t, reply) := HandleDetach(s, x, paneId, env);
            Matches(if x == c then Answered(was, DetachPane(paneId), reply, p) else was, t, c, p)
  {
  }

  lemma LeaveMatches(was: Standing, s: State, t: State, x: ClientId, c: ClientId, p: PaneId)
    requires Matches(was, s, c, p) && t.engine == E.DetachAll(s.engine, x)
    requires forall y :: y != x ==> (Holds(t.clients, y, p) <==> Holds(s.clients, y, p))
    requires !Holds(t.clients, x, p)
    ensures Matches(if x == c then Absent else was, t, c, p)
  {
  }

  lemma InputMatches(was: Standing, s: State, x: ClientId, paneId: Option<PaneId>, data: string, override: bool,
                     env: Env, cfg: Config, c: ClientId, p: PaneId)
    requires x in s.clients && Matches(was, s, c, p)
    ensures Matches(was, HandleInput(s, x, paneId, data, override, env, cfg).0, c, p)
  {
    InputOwners(s, x, paneId, data, override, env, cfg);
  }

  lemma RefusedMatches(was: Standing, s: State, x: ClientId, m: Message, env: Env, cfg: Config, p: PaneId)
    requires x in s.clients && !s.clients[x].authenticated && !m.Auth?
    ensures Handle(s, x, m, env, cfg) == (s, AuthRequired) && Answered(was, m, AuthRequired, p) == was
  {
  }

  lemma {:induction false} HandleMatches(was: Standing, s: State, x: ClientId, m: Message, env: Env, cfg: Config,
                                         c: ClientId, p: PaneId)
    requires ComponentsAgree(s, cfg) && x in s.clients && Matches(was, s, c, p)
    ensures var (t, reply) := Handle(s, x, m, env, cfg);
            Matches(if x == c then Answered(was, m, reply, p) else was, t, c, p)
  {
    if !s.clients[x].authenticated && !m.Auth? {
      RefusedMatches(was, s, x, m, env, cfg, p);
    } else {
      match m
      case Attach(paneId, since) => AttachMatches(was, s, x, paneId, since, env, cfg, c, p);
      case DetachPane(paneId) => DetachMatches(was, s, x, paneId, env, c, p);
      case Input(paneId, data, override) => InputMatches(was, s, x, paneId, data, override, env, cfg, c, p);
      case Disconnect => LeaveMatches(was, s, HandleDisconnect(s, x, env).0, x, c, p);
      case _ => FlagsMatch(was, s, x, m, env, cfg, c, p);
    }
  }

  /** Other messages change neither who is attached nor the engine. */
  lemma FlagsMatch(was: Standing, s: State, x: ClientId, m: Message, env: Env, cfg: Config, c: ClientId, p: PaneId)
    requires x in s.clients && Matches(was, s, c, p)
    requires !m.Attach? && !m.DetachPane? && !m.Input? && !m.Disconnect?
    ensures Matches(was, Handle(s, x, m, env, cfg).0, c, p)
  {
  }

  lemma {:induction false} StepMatches(was: Standing, s: State, step: Step, cfg: Config, c: ClientId, p: PaneId)
    requires ComponentsAgree(s, cfg) && Possible(s, step) && Matches(was, s, c, p)
    ensures Matches(StandingAfter(was, s, step, cfg, c, p), Next(s, step, cfg), c, p)
  {
    match step
    case ConnectStep(x) =>
    case ReceiveStep(x, m, env) => ReceiveMatches(was, s, x, m, env, cfg, c, p);
    case CloseStep(x, sweepNow) => LeaveMatches(was, s, Close(s, x, sweepNow), x, c, p);
    case ReportStep(now) =>
    case PollStep(q, output) =>
  }

  lemma {:induction false} ReceiveMatches(was: Standing, s: State, x: ClientId, m: Message, env: Env, cfg: Config,
                                          c: ClientId, p: PaneId)
    requires ComponentsAgree(s, cfg) && x in s.clients && Matches(was, s, c, p)
    ensures var (t, reply) := Receive(s, x, m, env, cfg);
            Matches(if x == c then Answered(was, m, reply, p) else was, t, c, p)
  {
    var t := Receive(s, x, Malformed, env, cfg).0;
    HandleMatches(was, t, x, m, env, cfg, c, p);
  }

  lemma {:induction false} RunMatches(was: Standing, s: State, steps: seq<Step>, cfg: Config, c: ClientId, p: PaneId)
    requires ComponentsAgree(s, cfg) && PossibleRun(s, steps, cfg) && Matches(was, s, c, p)
    ensures Matches(LastStanding(was, s, steps, cfg, c, p), Run(s, steps, cfg), c, p)
    decreases |steps|
  {
    if steps != [] {
      StepAgrees(s, steps[0], cfg);
      StepMatches(was, s, steps[0], cfg, c, p);
      RunMatches(StandingAfter(was, s, steps[0], cfg, c, p), Next(s, steps[0], cfg), steps[1..], cfg, c, p);
    }
  }

  /**
   * Over every run: a client is attached to a pane if and only if an attach of it, since it
   * last left, was acknowledged or failed at the capture; and it receives the pane's output
   * if and only if the last such attach was acknowledged.
   */
  lemma {:induction false} SubscribedIff(start: int, steps: seq<Step>, cfg: Config, c: ClientId, p: PaneId)
    requires PossibleRun(Init(start), steps, cfg)
    ensures var s := Run(Init(start), steps, cfg);
            var standing := LastStanding(Absent, Init(start), steps, cfg, c, p);
            && (Holds(s.clients, c, p) <==> standing != Absent)
            && (Watches(s, c, p) <==> standing == Served)
  {
    RunMatches(Absent, Init(start), steps, cfg, c, p);
  }

  const CONFIG := Config("", 1, 10, 10, 10, false, false, 1000, 300)

  const ENV := Env(0, 0, 0, 0, None, true)

  const TYPES_UNSEEN := [
    ConnectStep("a"), ReceiveStep("a", EnableInput, ENV), ReceiveStep("a", Attach(Some("%1"), None), ENV),
    ReceiveStep("a", Input(Some("%1"), "x", false), ENV)]

  const CONNECTED := Init(0).(clients := map["a" := Client(true, false, {})], used := {"a"})

  const ENABLED := CONNECTED.(clients := map["a" := Client(true, true, {})], messageTimes := map["a" := [0]])

  const UNSERVED := ENABLED.(clients := map["a" := Client(true, true, {"%1"})], messageTimes := map["a" := [0, 0]])

  lemma Enables()
    ensures Next(Init(0), TYPES_UNSEEN[0], CONFIG) == CONNECTED
    ensures Next(CONNECTED, TYPES_UNSEEN[1], CONFIG) == ENABLED
  {
    assert [] + [0] == [0];
  }

  lemma AttachFails()
    ensures Receive(ENABLED, "a", Attach(Some("%1"), None), ENV, CONFIG) == (UNSERVED, RuntimeFailure)
  {
    var t := Receive(ENABLED, "a", Attach(Some("%1"), None), ENV, CONFIG).0;
    AttachFailsEngine();
    assert [0] + [0] == [0, 0];
    assert {} + {"%1"} == {"%1"};
    assert t.clients == UNSERVED.clients && t.messageTimes == UNSERVED.messageTimes && t.engine == E.IDLE;
  }

  lemma AttachFailsEngine()
    ensures E.Attach(E.IDLE, "a", "%1", None, None, 300) == (E.IDLE, None)
  {
    assert Unsubscribe(Subscribe([], "a"), "a") == [];
    var w := FRESH_WATCHER.(subscribers := Subscribe([], "a"));
    assert map["%1" := w] - {"%1"} == map[];
  }

  lemma TypesAnyway()
    ensures var (s, reply) := Receive(UNSERVED, "a", Input(Some("%1"), "x", false), ENV, CONFIG);
            && reply == AckInput("%1", 1) && s.engine == E.IDLE && s.clients == UNSERVED.clients
            && Dispatched("a", "%1", "x", 0, 0, false) in s.trace
  {
    assert Utf8Length("x") == 1 by {
      assert "x"[1..] == "";
    }
  }

  lemma RunPeel(s: State, k: nat, t: State)
    requires k < |TYPES_UNSEEN| && Possible(s, TYPES_UNSEEN[k]) && Next(s, TYPES_UNSEEN[k], CONFIG) == t
    requires PossibleRun(t, TYPES_UNSEEN[k + 1..], CONFIG)
    ensures PossibleRun(s, TYPES_UNSEEN[k..], CONFIG)
    ensures Run(s, TYPES_UNSEEN[k..], CONFIG) == Run(t, TYPES_UNSEEN[k + 1..], CONFIG)
  {
    assert TYPES_UNSEEN[k..][1..] == TYPES_UNSEEN[k + 1..];
  }

  /** A client whose attach failed is not served, and its input is still typed into the pane. */
  lemma {:induction false} UnservedMayType()
    ensures PossibleRun(Init(0), TYPES_UNSEEN, CONFIG)
    ensures var s := Run(Init(0), TYPES_UNSEEN, CONFIG);
            && Holds(s.clients, "a", "%1") && !Watches(s, "a", "%1")
            && Dispatched("a", "%1", "x", 0, 0, false) in s.trace
  {
    Enables();
    AttachFails();
    TypesAnyway();
    RunPeel(UNSERVED, 3, Next(UNSERVED, TYPES_UNSEEN[3], CONFIG));
    RunPeel(ENABLED, 2, UNSERVED);
    RunPeel(CONNECTED, 1, ENABLED);
    RunPeel(Init(0), 0, CONNECTED);
    assert TYPES_UNSEEN[0..] == TYPES_UNSEEN;
  }
}
