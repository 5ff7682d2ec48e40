/**
 * Runs of the gateway in which the engine awaits the first capture of an attach: while it
 * is under way any message, close or poll may come, the client may leave, and the watcher
 * may be deleted and replaced.
 */
module GatewayRuns {
  import opened Common
  import opened Watchers
  import E = Engine
  import H = EngineRuns
  import G = Gateway
  import GS = GatewaySafety
  import S = Standings
  import Access
  import Answers
  import RL = RateLimiter

  /** The engine is in both: the gateway's is the host's, with its suspended attaches. */
  datatype System = System(gateway: G.State, host: H.Host)

  datatype Step =
    | GatewayStep(step: G.Step)
    | Capture(attach: H.Waiting, output: Option<string>)
    | PollRetired(watcher: nat, output: Option<string>)

  function Init(now: int): System {
    System(G.Init(now), H.START)
  }

  predicate Possible(s: System, step: Step) {
    step.GatewayStep? ==> G.Possible(s.gateway, step.step)
  }

  /** What a message that got this answer asked of the engine. */
  function Asked(c: ClientId, m: G.Message, reply: G.Reply): Option<H.Step> {
    match m
    case Attach(Some(p), since) => if reply == G.AckAttach(p) || reply.RuntimeFailure? then Some(H.Attach(c, p, since))
                                   else None
    case DetachPane(Some(p)) => if reply == G.AckDetach(p) then Some(H.Detach(c, p)) else None
    case Disconnect => if reply.AckDisconnect? then Some(H.DetachAll(c)) else None
    case _ => None
  }

  function HostStep(s: System, step: Step, cfg: G.Config): Option<H.Step>
    requires Possible(s, step)
  {
    match step
    case GatewayStep(ReceiveStep(c, m, env)) => Asked(c, m, G.Receive(s.gateway, c, m, env, cfg).1)
    case GatewayStep(CloseStep(c, _)) => Some(H.DetachAll(c))
    case GatewayStep(PollStep(p, output)) => Some(H.Poll(p, output))
    case GatewayStep(_) => None
    case Capture(a, output) => Some(H.Capture(a, output))
    case PollRetired(id, output) => Some(H.PollRetired(id, output))
  }

  /** A taken attach is suspended instead of finished; everything else is as in module Gateway. */
  function Next(s: System, step: Step, cfg: G.Config): System
    requires Possible(s, step)
  {
    var asked := HostStep(s, step, cfg);
    var host := if asked.Some? then H.Next(s.host, asked.value, cfg.maxHistory) else s.host;
    var gateway := if step.GatewayStep? then G.Next(s.gateway, step.step, cfg) else s.gateway;
    System(gateway.(engine := host.engine), host)
  }

  predicate PossibleRun(s: System, steps: seq<Step>, cfg: G.Config)
    decreases |steps|
  {
    steps == [] || (Possible(s, steps[0]) && PossibleRun(Next(s, steps[0], cfg), steps[1..], cfg))
  }

  function Run(s: System, steps: seq<Step>, cfg: G.Config): System
    requires PossibleRun(s, steps, cfg)
    decreases |steps|
  {
    if steps == [] then s else Run(Next(s, steps[0], cfg), steps[1..], cfg)
  }

  // ---- The components agree at every interleaving ----

  ghost predicate Agree(s: System, cfg: G.Config) {
    && s.gateway.engine == s.host.engine && H.HostInv(s.host, cfg.maxHistory)
    && G.ClientsValid(s.gateway, cfg)
    && G.SubscribersAttached(s.gateway)
    && G.OwnersAttached(s.gateway)
  }

  /** A state without what it knows about the engine. */
  function Erased(g: G.State): G.State {
    g.(engine := E.IDLE)
  }

  lemma RecordsAgree(g: G.State, step: G.Step, cfg: G.Config)
    requires G.ClientsValid(g, cfg) && G.OwnersAttached(g) && G.Possible(g, step)
    ensures G.ClientsValid(G.Next(g, step, cfg), cfg) && G.OwnersAttached(G.Next(g, step, cfg))
  {
    if !step.PollStep? {
      IgnoresEngine(g, step, cfg);
      G.StepAgrees(Erased(g), step, cfg);
      assert Erased(G.Next(g, step, cfg)).clients == G.Next(g, step, cfg).clients;
    }
  }

  /** What the gateway records does not depend on the engine. */
  lemma IgnoresEngine(g: G.State, step: G.Step, cfg: G.Config)
    requires G.Possible(g, step) && !step.PollStep?
    ensures Erased(G.Next(Erased(g), step, cfg)) == Erased(G.Next(g, step, cfg))
  {
    match step
    case ReceiveStep(c, m, env) => MessageIgnoresEngine(g, c, m, env, cfg);
    case _ =>
  }

  lemma AdmittedIgnoresEngine(g: G.State, c: ClientId, paneId: Option<PaneId>, data: string, override: bool,
                              env: G.Env, cfg: G.Config)
    requires c in g.clients
    ensures G.HandleAdmitted(Erased(g), c, paneId, data, override, env, cfg).0 ==
            Erased(G.HandleAdmitted(g, c, paneId, data, override, env, cfg).0)
  {
    if paneId.Some? {
      var t := G.ClaimAndWrite(g, c, paneId.value, data, override, env, cfg).0;
      assert G.ClaimAndWrite(Erased(g), c, paneId.value, data, override, env, cfg).0 == Erased(t);
    }
  }

  lemma InputIgnoresEngine(g: G.State, c: ClientId, paneId: Option<PaneId>, data: string, override: bool, env: G.Env,
                           cfg: G.Config)
    requires c in g.clients
    ensures G.HandleInput(Erased(g), c, paneId, data, override, env, cfg).0 ==
            Erased(G.HandleInput(g, c, paneId, data, override, env, cfg).0)
  {
    var (history, d) := RL.Consume(RL.HistoryOf(g.inputTimes, c), env.inputNow, cfg.maxInputsPerMinute,
                                   G.RATE_WINDOW_MS);
    var t := g.(inputTimes := g.inputTimes[c := history], now := env.inputNow);
    AdmittedIgnoresEngine(t.(trace := g.trace + [G.Admitted(c, env.inputNow)]), c, paneId, data, override, env, cfg);
  }

  lemma AttachIgnoresEngine(g: G.State, c: ClientId, paneId: Option<PaneId>, since: Option<int>, env: G.Env,
                            cfg: G.Config)
    requires c in g.clients
    ensures Erased(G.HandleAttach(Erased(g), c, paneId, since, env, cfg).0) ==
            Erased(G.HandleAttach(g, c, paneId, since, env, cfg).0)
  {
  }

  lemma HandleIgnoresEngine(g: G.State, c: ClientId, m: G.Message, env: G.Env, cfg: G.Config)
    requires c in g.clients
    ensures Erased(G.Handle(Erased(g), c, m, env, cfg).0) == Erased(G.Handle(g, c, m, env, cfg).0)
  {
    match m
    case Attach(paneId, since) => AttachIgnoresEngine(g, c, paneId, since, env, cfg);
    case Input(paneId, data, override) => InputIgnoresEngine(g, c, paneId, data, override, env, cfg);
    case DetachPane(paneId) =>
      assert Erased(G.HandleDetach(Erased(g), c, paneId, env).0) == Erased(G.HandleDetach(g, c, paneId, env).0);
    case _ =>
  }

  lemma MessageIgnoresEngine(g: G.State, c: ClientId, m: G.Message, env: G.Env, cfg: G.Config)
    requires c in g.clients
    ensures Erased(G.Receive(Erased(g), c, m, env, cfg).0) == Erased(G.Receive(g, c, m, env, cfg).0)
  {
    var t := G.Receive(g, c, G.Malformed, env, cfg).0;
    assert G.Receive(Erased(g), c, G.Malformed, env, cfg).0 == Erased(t);
    HandleIgnoresEngine(t, c, m, env, cfg);
  }

  /** Only an attach makes a subscriber, and a client that detaches is none. */
  lemma SubscribersFrom(h: H.Host, step: H.Step, maxHistory: nat, p: PaneId, x: ClientId)
    requires H.Held(h)
    requires var t := H.Next(h, step, maxHistory); p in t.engine.panes && x in t.engine.panes[p].subscribers
    ensures (p in h.engine.panes && x in h.engine.panes[p].subscribers)
            || (step.Attach? && step.client == x && step.pane == p)
    ensures (step.Detach? && step.pane == p) || step.DetachAll? ==> x != step.client
  {
    match step
    case Capture(a, output) => CaptureSubscribers(h, a, output, maxHistory, p, x);
    case _ =>
  }

  lemma CaptureSubscribers(h: H.Host, a: H.Waiting, output: Option<string>, maxHistory: nat, p: PaneId, x: ClientId)
    requires var t := H.AfterCapture(h, a, output, maxHistory);
             p in t.engine.panes && x in t.engine.panes[p].subscribers
    ensures p in h.engine.panes && x in h.engine.panes[p].subscribers
  {
    if a in h.waiting && H.Registered(h, a) {
      RegisteredSubscribers(h.engine, a.client, a.pane, output, maxHistory, p, x);
    }
  }

  lemma RegisteredSubscribers(s: E.State, c: ClientId, q: PaneId, output: Option<string>, maxHistory: nat, p: PaneId,
                              x: ClientId)
    requires q in s.panes
    ensures var t := E.FinishAttach(s, c, q, None, output, maxHistory).0;
            p in t.panes && x in t.panes[p].subscribers ==> p in s.panes && x in s.panes[p].subscribers
  {
  }

  /** What a message takes from its client's record it takes from the engine too. */
  lemma MessageAttached(s: System, c: ClientId, m: G.Message, env: G.Env, cfg: G.Config, p: PaneId, x: ClientId)
    requires c in s.gateway.clients
    ensures var (t, reply) := G.Receive(s.gateway, c, m, env, cfg);
            var asked := Asked(c, m, reply);
            && (G.Holds(s.gateway.clients, x, p) && !G.Holds(t.clients, x, p) ==>
                  x == c && asked.Some? && (asked.value == H.Detach(c, p) || asked.value == H.DetachAll(c)))
            && (asked.Some? && asked.value.Attach? && asked.value.pane == p ==>
                  asked.value.client == c && G.Holds(t.clients, c, p))
  {
  }

  lemma {:induction false} StepSubscribers(s: System, step: Step, cfg: G.Config, p: PaneId, x: ClientId)
    requires Agree(s, cfg) && Possible(s, step)
    requires var t := Next(s, step, cfg); p in t.host.engine.panes && x in t.host.engine.panes[p].subscribers
    ensures G.Holds(Next(s, step, cfg).gateway.clients, x, p)
  {
    var asked := HostStep(s, step, cfg);
    if asked.Some? {
      SubscribersFrom(s.host, asked.value, cfg.maxHistory, p, x);
    }
    match step
    case GatewayStep(ReceiveStep(c, m, env)) => MessageAttached(s, c, m, env, cfg, p, x);
    case _ =>
  }

  lemma {:induction false} StepAgrees(s: System, step: Step, cfg: G.Config)
    requires Agree(s, cfg) && Possible(s, step)
    ensures Agree(Next(s, step, cfg), cfg)
  {
    var t := Next(s, step, cfg);
    var asked := HostStep(s, step, cfg);
    if asked.Some? {
      H.StepKeepsHost(s.host, asked.value, cfg.maxHistory);
    }
    if step.GatewayStep? {
      RecordsAgree(s.gateway, step.step, cfg);
    }
    forall p, x | p in t.gateway.engine.panes && x in t.gateway.engine.panes[p].subscribers
      ensures G.Holds(t.gateway.clients, x, p)
    {
      StepSubscribers(s, step, cfg, p, x);
    }
  }

  /**
   * Over every run, whatever comes while first captures are under way: each lane lease and each
   * engine subscription belongs to a connected client attached to that pane, no client is
   * attached to more panes than allowed, and every suspended attach holds a watcher.
   */
  lemma {:induction false} AgreeAlways(s: System, steps: seq<Step>, cfg: G.Config)
    requires Agree(s, cfg) && PossibleRun(s, steps, cfg)
    ensures Agree(Run(s, steps, cfg), cfg)
    decreases |steps|
  {
    if steps != [] {
      StepAgrees(s, steps[0], cfg);
      AgreeAlways(Next(s, steps[0], cfg), steps[1..], cfg);
    }
  }

  // ---- Who is attached and not subscribed ----

  /**
   * A client attached to a pane loses its subscription when its first capture for the pane's
   * watcher fails, or when a failing capture of a deleted watcher takes the new one away.
   */
  predicate LosesSubscription(h: H.Host, step: Step, c: ClientId, p: PaneId) {
    && step.Capture?
    && ((H.GivesUp(h, H.Capture(step.attach, step.output), c, p) && step.attach in h.waiting)
        || (step.attach.pane == p && H.DropsReplacement(h, H.Capture(step.attach, step.output))))
  }

  /** A taken attach serves; leaving ends it. */
  function StandingAfter(was: S.Standing, s: System, step: Step, cfg: G.Config, c: ClientId, p: PaneId): S.Standing
    requires Possible(s, step)
  {
    match HostStep(s, step, cfg)
    case Some(Attach(x, q, _)) => if x == c && q == p then S.Served else was
    case Some(Detach(x, q)) => if x == c && q == p then S.Absent else was
    case Some(DetachAll(x)) => if x == c then S.Absent else was
    case _ => if was.Served? && LosesSubscription(s.host, step, c, p) then S.Unserved else was
  }

  function LastStanding(was: S.Standing, s: System, steps: seq<Step>, cfg: G.Config, c: ClientId, p: PaneId): S.Standing
    requires PossibleRun(s, steps, cfg)
    decreases |steps|
  {
    if steps == [] then was
    else LastStanding(StandingAfter(was, s, steps[0], cfg, c, p), Next(s, steps[0], cfg), steps[1..], cfg, c, p)
  }

  predicate Watches(h: H.Host, c: ClientId, p: PaneId) {
    p in h.engine.panes && c in h.engine.panes[p].subscribers
  }

  predicate Matches(standing: S.Standing, s: System, c: ClientId, p: PaneId) {
    && (G.Holds(s.gateway.clients, c, p) <==> standing != S.Absent)
    && (Watches(s.host, c, p) <==> standing == S.Served)
  }

  lemma CaptureWatches(h: H.Host, a: H.Waiting, output: Option<string>, maxHistory: nat, c: ClientId, p: PaneId)
    requires H.Held(h)
    ensures Watches(H.AfterCapture(h, a, output, maxHistory), c, p) <==>
            Watches(h, c, p) && !LosesSubscription(h, Capture(a, output), c, p)
  {
    if a in h.waiting {
      assert H.Holds(h, a);
      if H.Registered(h, a) {
        RegisteredWatches(h.engine, a.client, a.pane, output, maxHistory, c, p);
      } else {
        OrphanedWatches(h, a, output, maxHistory, c, p);
      }
    }
  }

  lemma RegisteredWatches(s: E.State, x: ClientId, q: PaneId, output: Option<string>, maxHistory: nat, c: ClientId,
                          p: PaneId)
    requires q in s.panes
    ensures var t := E.FinishAttach(s, x, q, None, output, maxHistory).0;
            p in t.panes && c in t.panes[p].subscribers <==>
            p in s.panes && c in s.panes[p].subscribers && !(output.None? && x == c && q == p)
  {
  }

  lemma OrphanedWatches(h: H.Host, a: H.Waiting, output: Option<string>, maxHistory: nat, c: ClientId, p: PaneId)
    requires a in h.waiting && !H.Registered(h, a) && a.watcher in h.retired
    ensures Watches(H.AfterCapture(h, a, output, maxHistory), c, p) <==>
            Watches(h, c, p) && !(a.pane == p && H.DropsReplacement(h, H.Capture(a, output)))
  {
    H.NobodyElseLeft(h.retired[a.watcher], a.client);
  }

  lemma HostWatches(h: H.Host, step: H.Step, maxHistory: nat, c: ClientId, p: PaneId)
    requires !step.Capture?
    ensures Watches(H.Next(h, step, maxHistory), c, p) <==>
            match step
            case Attach(x, q, _) => (x == c && q == p) || Watches(h, c, p)
            case Detach(x, q) => !(x == c && q == p) && Watches(h, c, p)
            case DetachAll(x) => x != c && Watches(h, c, p)
            case _ => Watches(h, c, p)
  {
  }

  /** What a step changes about who is attached. */
  lemma StepHolds(s: System, step: Step, cfg: G.Config, c: ClientId, p: PaneId)
    requires G.ClientsValid(s.gateway, cfg) && Possible(s, step)
    ensures G.Holds(Next(s, step, cfg).gateway.clients, c, p) <==>
            match HostStep(s, step, cfg)
            case Some(Attach(x, q, _)) => (x == c && q == p) || G.Holds(s.gateway.clients, c, p)
            case Some(Detach(x, q)) => !(x == c && q == p) && G.Holds(s.gateway.clients, c, p)
            case Some(DetachAll(x)) => x != c && G.Holds(s.gateway.clients, c, p)
            case _ => G.Holds(s.gateway.clients, c, p)
  {
    match step
    case GatewayStep(ReceiveStep(x, m, env)) => MessageHolds(s.gateway, x, m, env, cfg, c, p);
    case _ =>
  }

  lemma MessageHolds(g: G.State, x: ClientId, m: G.Message, env: G.Env, cfg: G.Config, c: ClientId, p: PaneId)
    requires x in g.clients
    ensures var (t, reply) := G.Receive(g, x, m, env, cfg);
            G.Holds(t.clients, c, p) <==>
            match Asked(x, m, reply)
            case Some(Attach(y, q, _)) => (y == c && q == p) || G.Holds(g.clients, c, p)
            case Some(Detach(y, q)) => !(y == c && q == p) && G.Holds(g.clients, c, p)
            case Some(DetachAll(y)) => y != c && G.Holds(g.clients, c, p)
            case _ => G.Holds(g.clients, c, p)
  {
  }

  lemma {:induction false} StepMatches(was: S.Standing, s: System, step: Step, cfg: G.Config, c: ClientId, p: PaneId)
    requires Agree(s, cfg) && Possible(s, step) && Matches(was, s, c, p)
    ensures Matches(StandingAfter(was, s, step, cfg, c, p), Next(s, step, cfg), c, p)
  {
    StepHolds(s, step, cfg, c, p);
    match step
    case Capture(a, output) => CaptureWatches(s.host, a, output, cfg.maxHistory, c, p);
    case _ =>
      var asked := HostStep(s, step, cfg);
      if asked.Some? {
        HostWatches(s.host, asked.value, cfg.maxHistory, c, p);
      }
  }

  lemma {:induction false} RunMatches(was: S.Standing, s: System, steps: seq<Step>, cfg: G.Config, c: ClientId,
                                      p: PaneId)
    requires Agree(s, cfg) && PossibleRun(s, steps, cfg) && Matches(was, s, c, p)
    ensures Matches(LastStanding(was, s, steps, cfg, c, p), Run(s, steps, cfg), c, p)
    decreases |steps|
  {
    if steps != [] {
      StepAgrees(s, steps[0], cfg);
      StepMatches(was, s, steps[0], cfg, c, p);
      RunMatches(StandingAfter(was, s, steps[0], cfg, c, p), Next(s, steps[0], cfg), steps[1..], cfg, c, p);
    }
  }

  /**
   * Over every run from the start: a client is attached exactly since the last attach that was
   * taken, until it leaves; and an attached client is subscribed if and only if since then
   * neither its first capture failed for the pane's watcher nor a failing capture of a deleted
   * watcher took the pane's watcher away.
   */
  lemma {:induction false} AttachedAndSubscribed(start: int, steps: seq<Step>, cfg: G.Config, c: ClientId, p: PaneId)
    requires PossibleRun(Init(start), steps, cfg)
    ensures var s := Run(Init(start), steps, cfg);
            var standing := LastStanding(S.Absent, Init(start), steps, cfg, c, p);
            && (G.Holds(s.gateway.clients, c, p) <==> standing != S.Absent)
            && (Watches(s.host, c, p) <==> standing == S.Served)
  {
    RunMatches(S.Absent, Init(start), steps, cfg, c, p);
  }

  // ---- Safety and the engine's theorems carry over ----

  /** The messages, connections and reports of a run. */
  function Messages(steps: seq<Step>): seq<G.Step>
    decreases |steps|
  {
    if steps == [] then []
    else (if steps[0].GatewayStep? && !steps[0].step.PollStep? then [steps[0].step] else []) + Messages(steps[1..])
  }

  /** They are a run of module Gateway with the same records, leases and trace. */
  lemma {:induction false} RunErases(s: System, g: G.State, steps: seq<Step>, cfg: G.Config)
    requires Erased(g) == Erased(s.gateway) && PossibleRun(s, steps, cfg)
    ensures G.PossibleRun(g, Messages(steps), cfg)
    ensures Erased(G.Run(g, Messages(steps), cfg)) == Erased(Run(s, steps, cfg).gateway)
    decreases |steps|
  {
    if steps != [] {
      var step, t, rest := steps[0], Next(s, steps[0], cfg), Messages(steps[1..]);
      if step.GatewayStep? && !step.step.PollStep? {
        IgnoresEngine(g, step.step, cfg);
        IgnoresEngine(s.gateway, step.step, cfg);
        RunErases(t, G.Next(g, step.step, cfg), steps[1..], cfg);
        assert ([step.step] + rest)[1..] == rest;
      } else {
        RunErases(t, g, steps[1..], cfg);
        assert [] + rest == rest;
      }
    }
  }

  /** From the start on. */
  lemma {:induction false} StartErases(start: int, steps: seq<Step>, cfg: G.Config)
    requires PossibleRun(Init(start), steps, cfg)
    ensures G.PossibleRun(G.Init(start), Messages(steps), cfg)
    ensures var g, s := G.Run(G.Init(start), Messages(steps), cfg), Run(Init(start), steps, cfg).gateway;
            g.clients == s.clients && g.trace == s.trace && g.owners == s.owners
  {
    RunErases(Init(start), G.Init(start), steps, cfg);
    var g, s := G.Run(G.Init(start), Messages(steps), cfg), Run(Init(start), steps, cfg).gateway;
    assert Erased(g).clients == Erased(s).clients && Erased(g).trace == Erased(s).trace;
    assert Erased(g).owners == Erased(s).owners;
  }

  /** Writer mutual exclusion at every interleaving of first captures. */
  lemma {:induction false} InterleavedExclusion(start: int, steps: seq<Step>, cfg: G.Config, i: nat, j: nat)
    requires PossibleRun(Init(start), steps, cfg)
    requires var trace := Run(Init(start), steps, cfg).gateway.trace;
             && i < j < |trace| && trace[i].Dispatched? && GS.WritesTo(trace[j], trace[i].paneId)
             && trace[i].client != trace[j].client
             && forall k :: i < k < j ==> !GS.WritesTo(trace[k], trace[i].paneId)
    ensures var trace := Run(Init(start), steps, cfg).gateway.trace;
            || trace[j].at >= trace[i].at + cfg.leaseMs
            || trace[j].byOverride
            || exists k :: i < k < j && GS.Releases(trace[k], trace[i].client, trace[i].paneId)
  {
    StartErases(start, steps, cfg);
    GS.WriterMutualExclusion(start, Messages(steps), cfg, i, j);
  }

  /** The bound on runtime writes at every interleaving of first captures. */
  lemma {:induction false} InterleavedWriteBound(start: int, steps: seq<Step>, cfg: G.Config, c: ClientId, from: int)
    requires PossibleRun(Init(start), steps, cfg)
    ensures |RL.Within(GS.WriteTimes(Run(Init(start), steps, cfg).gateway.trace, c), from, from + G.RATE_WINDOW_MS)|
            <= Max(0, cfg.maxInputsPerMinute)
  {
    StartErases(start, steps, cfg);
    GS.RuntimeWriteBound(start, Messages(steps), cfg, c, from);
  }

  /** At every interleaving the records are what the messages make of them, and writes need an entitled input. */
  lemma {:induction false} InterleavedAccess(start: int, steps: seq<Step>, cfg: G.Config)
    requires PossibleRun(Init(start), steps, cfg)
    ensures var s := Run(Init(start), steps, cfg); var messages := Messages(steps);
            && (forall c :: c in s.gateway.clients ==>
                  && (s.gateway.clients[c].authenticated <==> Access.Authenticated(messages, c, cfg))
                  && (s.gateway.clients[c].inputEnabled <==>
                      Access.Enabled(messages, c, cfg) && !cfg.globalInputDisabled)
                  && s.gateway.clients[c].attachedPanes == Access.Attached(messages, c, cfg))
            && (forall e :: e in s.gateway.trace && e.Dispatched? ==>
                  exists k :: 0 <= k < |messages| && Answers.Entitled(messages, k, e, cfg))
  {
    var s, messages := Run(Init(start), steps, cfg), Messages(steps);
    StartErases(start, steps, cfg);
    forall c | c in s.gateway.clients
      ensures s.gateway.clients[c].authenticated <==> Access.Authenticated(messages, c, cfg)
      ensures s.gateway.clients[c].inputEnabled <==> Access.Enabled(messages, c, cfg) && !cfg.globalInputDisabled
      ensures s.gateway.clients[c].attachedPanes == Access.Attached(messages, c, cfg)
    {
      Answers.RecordsFollowMessages(start, messages, c, cfg);
    }
    forall e | e in s.gateway.trace && e.Dispatched?
      ensures exists k :: 0 <= k < |messages| && Answers.Entitled(messages, k, e, cfg)
    {
      var i :| 0 <= i < |s.gateway.trace| && s.gateway.trace[i] == e;
      var k := Answers.WritesAreEntitled(start, messages, i, cfg);
    }
  }

  /** And only authenticated clients hold leases or are subscribed. */
  lemma {:induction false} InterleavedAuthentication(start: int, steps: seq<Step>, cfg: G.Config, c: ClientId,
                                                     p: PaneId)
    requires PossibleRun(Init(start), steps, cfg)
    requires var s := Run(Init(start), steps, cfg);
             Watches(s.host, c, p) || (p in s.gateway.owners && s.gateway.owners[p].clientId == c)
    ensures Access.Authenticated(Messages(steps), c, cfg)
  {
    AgreeAlways(Init(start), steps, cfg);
    assert G.Holds(Run(Init(start), steps, cfg).gateway.clients, c, p);
    InterleavedAccess(start, steps, cfg);
    Answers.AttachedIsAuthenticated(Messages(steps), c, cfg);
  }

  /** The gateway's engine runs as EngineRuns says, so what holds of all its runs holds here. */
  lemma {:induction false} RunIsEngineRun(s: System, steps: seq<Step>, cfg: G.Config) returns (engine: seq<H.Step>)
    requires PossibleRun(s, steps, cfg)
    ensures Run(s, steps, cfg).host == H.Run(s.host, engine, cfg.maxHistory)
    decreases |steps|
  {
    engine := [];
    if steps != [] {
      var asked := HostStep(s, steps[0], cfg);
      engine := RunIsEngineRun(Next(s, steps[0], cfg), steps[1..], cfg);
      if asked.Some? {
        H.RunCons(s.host, asked.value, engine, cfg.maxHistory);
        engine := [asked.value] + engine;
      }
    }
  }
}
