/**
 * Safety of the gateway over whole runs: at most one writer per pane and lease, and
 * at most the configured number of runtime writes per client and minute.
 */
module GatewaySafety {
  import opened Common
  import opened Ownership
  import opened Gateway
  import RL = RateLimiter

  // ---- Writer mutual exclusion ----

  /**
   * Who wrote to the pane last, and when, unless that client has since left the
   * pane, disconnected or closed its socket.
   */
  function LastWriter(trace: seq<TraceEvent>, p: PaneId): Option<(ClientId, int)> {
    if trace == [] then None
    else
      var before := LastWriter(trace[..|trace| - 1], p);
      match trace[|trace| - 1]
      case Admitted(_, _) => before
      case Dispatched(c, q, _, _, at, _) => if q == p then Some((c, at)) else before
      case LeftPane(c, q) => if q == p && before.Some? && before.value.0 == c then None else before
      case Gone(c) => if before.Some? && before.value.0 == c then None else before
  }

  lemma LastWriterAppend(trace: seq<TraceEvent>, e: TraceEvent, p: PaneId)
    ensures LastWriter(trace + [e], p) ==
            match e
            case Admitted(_, _) => LastWriter(trace, p)
            case Dispatched(c, q, _, _, at, _) => if q == p then Some((c, at)) else LastWriter(trace, p)
            case LeftPane(c, q) =>
              if q == p && LastWriter(trace, p).Some? && LastWriter(trace, p).value.0 == c then None
                  else LastWriter(trace, p)
            case Gone(c) =>
              if LastWriter(trace, p).Some? && LastWriter(trace, p).value.0 == c then None else LastWriter(trace, p)
  {
    assert (trace + [e])[..|trace|] == trace;
  }

  /**
   * The leases are exactly the last writers whose lease has not run out at the last clock read, as
   * far as it was swept.
   */
  ghost predicate LeaseMatches(s: State, p: PaneId, leaseMs: int) {
    var w := LastWriter(s.trace, p);
    && (p in s.owners ==> w == Some((s.owners[p].clientId, s.owners[p].expiresAtMs - leaseMs)))
    && (p !in s.owners && w.Some? ==> s.now >= w.value.1 + leaseMs)
  }

  ghost predicate LeasesMatch(s: State, leaseMs: int) {
    forall p :: LeaseMatches(s, p, leaseMs)
  }

  /** A write by another client than the last writer came after that writer's lease, or by an allowed override. */
  ghost predicate RespectsLease(before: seq<TraceEvent>, e: TraceEvent, leaseMs: int) {
    e.Dispatched? ==>
      var w := LastWriter(before, e.paneId);
      w.None? || w.value.0 == e.client || e.byOverride || e.at >= w.value.1 + leaseMs
  }

  ghost predicate Exclusive(trace: seq<TraceEvent>, leaseMs: int) {
    trace == [] ||
    (Exclusive(trace[..|trace| - 1], leaseMs) && RespectsLease(trace[..|trace| - 1], trace[|trace| - 1], leaseMs))
  }

  lemma ExclusiveAppend(trace: seq<TraceEvent>, e: TraceEvent, leaseMs: int)
    requires Exclusive(trace, leaseMs) && RespectsLease(trace, e, leaseMs)
    ensures Exclusive(trace + [e], leaseMs)
  {
    assert (trace + [e])[..|trace|] == trace;
  }

  ghost predicate LaneInv(s: State, cfg: Config) {
    LeasesMatch(s, cfg.leaseMs) && Exclusive(s.trace, cfg.leaseMs)
  }

  lemma SweepMatches(s: State, now: int, leaseMs: int)
    requires LeasesMatch(s, leaseMs) && s.now <= now
    ensures LeasesMatch(s.(owners := Sweep(s.owners, now), now := now), leaseMs)
  {
    var t := s.(owners := Sweep(s.owners, now), now := now);
    forall p
      ensures LeaseMatches(t, p, leaseMs)
    {
      assert LeaseMatches(s, p, leaseMs);
    }
  }

  /** Leaving a pane: the sweep, then the release of the client's own lane. */
  lemma ReleaseMatches(s: State, c: ClientId, p: PaneId, now: int, leaseMs: int)
    requires LeasesMatch(s, leaseMs) && s.now <= now
    ensures LeasesMatch(s.(owners := ReleasePane(s.owners, p, c, now).0, now := now,
                           trace := s.trace + [LeftPane(c, p)]), leaseMs)
  {
    var t := s.(owners := ReleasePane(s.owners, p, c, now).0, now := now, trace := s.trace + [LeftPane(c, p)]);
    forall q
      ensures LeaseMatches(t, q, leaseMs)
    {
      assert LeaseMatches(s, q, leaseMs);
      LastWriterAppend(s.trace, LeftPane(c, p), q);
    }
  }

  lemma GoneMatches(s: State, c: ClientId, now: int, leaseMs: int)
    requires LeasesMatch(s, leaseMs) && s.now <= now
    ensures LeasesMatch(s.(owners := ReleaseClient(s.owners, c, now).0, now := now, trace := s.trace + [Gone(c)]),
                        leaseMs)
  {
    var t := s.(owners := ReleaseClient(s.owners, c, now).0, now := now, trace := s.trace + [Gone(c)]);
    forall q
      ensures LeaseMatches(t, q, leaseMs)
    {
      assert LeaseMatches(s, q, leaseMs);
      LastWriterAppend(s.trace, Gone(c), q);
    }
  }

  lemma GrantMatches(s: State, e: TraceEvent, sweepNow: int, leaseMs: int)
    requires LeasesMatch(s, leaseMs) && e.Dispatched? && s.now <= sweepNow <= e.at
    ensures LeasesMatch(s.(owners := Sweep(s.owners, sweepNow)[e.paneId := Lease(e.client, e.at + leaseMs)],
                           now := e.at,
                           trace := s.trace + [e]), leaseMs)
  {
    var t := s.(owners := Sweep(s.owners, sweepNow)[e.paneId := Lease(e.client, e.at + leaseMs)], now := e.at,
                trace := s.trace + [e]);
    forall q
      ensures LeaseMatches(t, q, leaseMs)
    {
      assert LeaseMatches(s, q, leaseMs);
      LastWriterAppend(s.trace, e, q);
    }
  }

  /** Nothing but the time, and events that are no writes or releases, changed. */
  lemma QuietMatches(s: State, t: State, leaseMs: int)
    requires LeasesMatch(s, leaseMs) && t.owners == s.owners && s.now <= t.now
    requires t.trace == s.trace || exists c, at :: t.trace == s.trace + [Admitted(c, at)]
    ensures LeasesMatch(t, leaseMs)
    ensures Exclusive(s.trace, leaseMs) ==> Exclusive(t.trace, leaseMs)
  {
    if t.trace != s.trace {
      var c, at :| t.trace == s.trace + [Admitted(c, at)];
      if Exclusive(s.trace, leaseMs) {
        ExclusiveAppend(s.trace, Admitted(c, at), leaseMs);
      }
      forall p
        ensures LastWriter(t.trace, p) == LastWriter(s.trace, p)
      {
        LastWriterAppend(s.trace, Admitted(c, at), p);
      }
    }
    forall p
      ensures LeaseMatches(t, p, leaseMs)
    {
      assert LeaseMatches(s, p, leaseMs);
    }
  }

  lemma AdmittedKeepsLanes(s: State, c: ClientId, paneId: Option<PaneId>, data: string, override: bool, env: Env,
                           cfg: Config)
    requires LaneInv(s, cfg) && c in s.clients && "" !in s.used
    requires forall p :: p in s.owners ==> s.owners[p].clientId in s.used
    requires s.now <= env.sweepNow <= env.setNow && s.now == env.inputNow
    ensures LaneInv(HandleAdmitted(s, c, paneId, data, override, env, cfg).0, cfg)
  {
    if paneId.Some? {
      ClaimKeepsLanes(s, c, paneId.value, data, override, env, cfg);
    }
  }

  lemma ClaimKeepsLanes(s: State, c: ClientId, p: PaneId, data: string, override: bool, env: Env, cfg: Config)
    requires LaneInv(s, cfg) && "" !in s.used
    requires forall p :: p in s.owners ==> s.owners[p].clientId in s.used
    requires s.now <= env.sweepNow <= env.setNow
    ensures LaneInv(ClaimAndWrite(s, c, p, data, override, env, cfg).0, cfg)
  {
    var t := ClaimAndWrite(s, c, p, data, override, env, cfg).0;
    if t.trace == s.trace {
      SweepMatches(s, env.sweepNow, cfg.leaseMs);
    } else {
      var e := Dispatched(c, p, data, env.inputNow, env.setNow, override && cfg.overrideAllowed);
      GrantMatches(s, e, env.sweepNow, cfg.leaseMs);
      assert LeaseMatches(s, p, cfg.leaseMs);
      ExclusiveAppend(s.trace, e, cfg.leaseMs);
    }
  }

  lemma InputKeepsLanes(s: State, c: ClientId, paneId: Option<PaneId>, data: string, override: bool, env: Env,
                        cfg: Config)
    requires LaneInv(s, cfg) && c in s.clients && "" !in s.used
    requires forall p :: p in s.owners ==> s.owners[p].clientId in s.used
    requires s.now <= env.inputNow <= env.sweepNow <= env.setNow
    ensures LaneInv(HandleInput(s, c, paneId, data, override, env, cfg).0, cfg)
  {
    var (history, d) := RL.Consume(RL.HistoryOf(s.inputTimes, c), env.inputNow, cfg.maxInputsPerMinute, RATE_WINDOW_MS);
    var t := s.(inputTimes := s.inputTimes[c := history], now := env.inputNow);
    QuietMatches(s, t, cfg.leaseMs);
    if d.allowed {
      var u := t.(trace := s.trace + [Admitted(c, env.inputNow)]);
      QuietMatches(s, u, cfg.leaseMs);
      AdmittedKeepsLanes(u, c, paneId, data, override, env, cfg);
    }
  }

  lemma HandleKeepsLanes(s: State, c: ClientId, m: Message, env: Env, cfg: Config)
    requires LaneInv(s, cfg) && c in s.clients && "" !in s.used
    requires forall p :: p in s.owners ==> s.owners[p].clientId in s.used
    requires s.now <= env.inputNow <= env.sweepNow <= env.setNow
    ensures LaneInv(Handle(s, c, m, env, cfg).0, cfg)
  {
    var t := Handle(s, c, m, env, cfg).0;
    if s.clients[c].authenticated && m.Input? {
      InputKeepsLanes(s, c, m.paneId, m.data, m.override, env, cfg);
    } else if s.clients[c].authenticated && m.DetachPane? && m.paneId.Some? {
      ReleaseMatches(s, c, m.paneId.value, env.sweepNow, cfg.leaseMs);
      ExclusiveAppend(s.trace, LeftPane(c, m.paneId.value), cfg.leaseMs);
      SameLanes(t, s.(owners := t.owners, now := t.now, trace := t.trace), cfg.leaseMs);
    } else if s.clients[c].authenticated && m.Disconnect? {
      GoneMatches(s, c, env.sweepNow, cfg.leaseMs);
      ExclusiveAppend(s.trace, Gone(c), cfg.leaseMs);
      SameLanes(t, s.(owners := t.owners, now := t.now, trace := t.trace), cfg.leaseMs);
    } else {
      QuietMatches(s, t, cfg.leaseMs);
    }
  }

  lemma SameLanes(t: State, u: State, leaseMs: int)
    requires t.owners == u.owners && t.now == u.now && t.trace == u.trace && LeasesMatch(u, leaseMs)
    ensures LeasesMatch(t, leaseMs)
  {
    forall p
      ensures LeaseMatches(t, p, leaseMs)
    {
      assert LeaseMatches(u, p, leaseMs);
    }
  }

  lemma StepKeepsLanes(s: State, step: Step, cfg: Config)
    requires LaneInv(s, cfg) && ComponentsAgree(s, cfg) && Possible(s, step)
    ensures LaneInv(Next(s, step, cfg), cfg)
  {
    var t := Next(s, step, cfg);
    assert forall p :: p in s.owners ==> Holds(s.clients, s.owners[p].clientId, p);
    match step
    case ReceiveStep(c, m, env) =>
      var (history, d) := RL.Consume(RL.HistoryOf(s.messageTimes, c), env.messageNow, cfg.maxMessagesPerMinute,
                                     RATE_WINDOW_MS);
      var u := s.(messageTimes := s.messageTimes[c := history], now := env.messageNow);
      QuietMatches(s, u, cfg.leaseMs);
      HandleKeepsLanes(u, c, m, env, cfg);
    case CloseStep(c, sweepNow) =>
      GoneMatches(s, c, sweepNow, cfg.leaseMs);
      ExclusiveAppend(s.trace, Gone(c), cfg.leaseMs);
      SameLanes(t, s.(owners := t.owners, now := t.now, trace := t.trace), cfg.leaseMs);
    case ReportStep(now) => SweepMatches(s, now, cfg.leaseMs);
    case ConnectStep(c) => QuietMatches(s, t, cfg.leaseMs);
    case PollStep(p, output) => QuietMatches(s, t, cfg.leaseMs);
  }

  lemma {:induction false} RunKeepsLanes(s: State, steps: seq<Step>, cfg: Config)
    requires LaneInv(s, cfg) && ComponentsAgree(s, cfg) && PossibleRun(s, steps, cfg)
    ensures LaneInv(Run(s, steps, cfg), cfg) && ComponentsAgree(Run(s, steps, cfg), cfg)
    decreases |steps|
  {
    if steps != [] {
      StepKeepsLanes(s, steps[0], cfg);
      StepAgrees(s, steps[0], cfg);
      RunKeepsLanes(Next(s, steps[0], cfg), steps[1..], cfg);
    }
  }

  /** Without a release or another write in between, the writer at i is still the last writer at j. */
  lemma {:induction false} StillLastWriter(trace: seq<TraceEvent>, i: nat, j: nat)
    requires i < j <= |trace| && trace[i].Dispatched?
    requires forall k :: i < k < j ==>
               !WritesTo(trace[k], trace[i].paneId) && !Releases(trace[k], trace[i].client, trace[i].paneId)
    ensures LastWriter(trace[..j], trace[i].paneId) == Some((trace[i].client, trace[i].at))
    decreases j
  {
    assert trace[..j][..j - 1] == trace[..j - 1];
    if i < j - 1 {
      StillLastWriter(trace, i, j - 1);
    }
  }

  predicate WritesTo(e: TraceEvent, p: PaneId) {
    e.Dispatched? && e.paneId == p
  }

  predicate Releases(e: TraceEvent, c: ClientId, p: PaneId) {
    e == LeftPane(c, p) || e == Gone(c)
  }

  lemma {:induction false} ExclusivePrefix(trace: seq<TraceEvent>, j: nat, leaseMs: int)
    requires Exclusive(trace, leaseMs) && j < |trace|
    ensures RespectsLease(trace[..j], trace[j], leaseMs)
  {
    if j < |trace| - 1 {
      var init := trace[..|trace| - 1];
      ExclusivePrefix(init, j, leaseMs);
      assert init[..j] == trace[..j];
    }
  }

  /**
   * Writer mutual exclusion. In any run, when two consecutive writes to a pane come
   * from different clients, then the second came at least a lease later, or the
   * first client left the pane, disconnected or closed in between, or the second
   * asked for an override and overrides are allowed.
   */
  lemma WriterMutualExclusion(start: int, steps: seq<Step>, cfg: Config, i: nat, j: nat)
    requires PossibleRun(Gateway.Init(start), steps, cfg)
    requires var trace := Run(Gateway.Init(start), steps, cfg).trace;
             && i < j < |trace| && trace[i].Dispatched? && WritesTo(trace[j], trace[i].paneId)
             && trace[i].client != trace[j].client
             && forall k :: i < k < j ==> !WritesTo(trace[k], trace[i].paneId)
    ensures var trace := Run(Gateway.Init(start), steps, cfg).trace;
            || trace[j].at >= trace[i].at + cfg.leaseMs
            || trace[j].byOverride
            || exists k :: i < k < j && Releases(trace[k], trace[i].client, trace[i].paneId)
  {
    var s := Run(Gateway.Init(start), steps, cfg);
    RunKeepsLanes(Gateway.Init(start), steps, cfg);
    ExclusivePrefix(s.trace, j, cfg.leaseMs);
    if forall k :: i < k < j ==> !Releases(s.trace[k], s.trace[i].client, s.trace[i].paneId) {
      StillLastWriter(s.trace, i, j);
    }
  }

  /**
   * A write is refused exactly when it has to be: for an admitted input that passes
   * every other check, the conflict answer is given iff another client wrote to the
   * pane less than a lease ago, has not left it since, and no allowed override is asked for.
   */
  lemma RefusedIffRecentWriter(s: State, c: ClientId, p: PaneId, data: string, override: bool, env: Env, cfg: Config)
    requires LaneInv(s, cfg) && ClientsValid(s, cfg) && OwnersAttached(s) && c in s.clients
    requires s.now <= env.sweepNow
    requires s.clients[c].inputEnabled && !cfg.globalInputDisabled && data != ""
    requires p in s.clients[c].attachedPanes && Utf8Length(data) <= cfg.maxInputBytes
    ensures var (t, reply) := HandleAdmitted(s, c, Some(p), data, override, env, cfg);
            var w := LastWriter(s.trace, p);
            && (reply.LaneConflict? <==>
                  w.Some? && w.value.0 != c && env.sweepNow < w.value.1 + cfg.leaseMs
                      && !(override && cfg.overrideAllowed))
            && (reply.LaneConflict? ==> reply.ownerClientId == w.value.0 && t.trace == s.trace)
            && (!reply.LaneConflict? ==>
                  t.trace == s.trace + [Dispatched(c, p, data, env.inputNow, env.setNow, override
                                                   && cfg.overrideAllowed)])
  {
    assert LeaseMatches(s, p, cfg.leaseMs);
    assert p in s.owners ==> Holds(s.clients, s.owners[p].clientId, p);
  }

  // ---- Rate bound ----

  /** The times at which a client's inputs passed the input limiter. */
  function AdmittedTimes(trace: seq<TraceEvent>, c: ClientId): seq<int> {
    if trace == [] then []
    else
      var e := trace[|trace| - 1];
      AdmittedTimes(trace[..|trace| - 1], c) + if e.Admitted? && e.client == c then [e.at] else []
  }

  /** The admission times of the inputs of a client that reached the runtime. */
  function WriteTimes(trace: seq<TraceEvent>, c: ClientId): seq<int> {
    if trace == [] then []
    else
      var e := trace[|trace| - 1];
      WriteTimes(trace[..|trace| - 1], c) + if e.Dispatched? && e.client == c then [e.admittedAt] else []
  }

  lemma TimesAppend(trace: seq<TraceEvent>, e: TraceEvent, c: ClientId)
    ensures AdmittedTimes(trace + [e], c) == AdmittedTimes(trace, c) + if e.Admitted? && e.client == c then [e.at]
        else []
    ensures WriteTimes(trace + [e], c) == WriteTimes(trace, c) + if e.Dispatched? && e.client == c then [e.admittedAt]
        else []
  {
    assert (trace + [e])[..|trace|] == trace;
  }

  lemma PairAppended(trace: seq<TraceEvent>, admission: TraceEvent, write: TraceEvent, c: ClientId)
    requires write.Dispatched? && write.client == c && admission == Admitted(c, write.admittedAt)
    ensures WriteTimes(trace + [admission] + [write], c) == WriteTimes(trace, c) + [write.admittedAt]
    ensures AdmittedTimes(trace + [admission] + [write], c) == AdmittedTimes(trace, c) + [write.admittedAt]
  {
    TimesAppend(trace, admission, c);
    TimesAppend(trace + [admission], write, c);
  }

  /** Every write directly follows its own admission. */
  ghost predicate Paired(trace: seq<TraceEvent>) {
    forall k :: 0 <= k < |trace| && trace[k].Dispatched? ==>
      k > 0 && trace[k - 1] == Admitted(trace[k].client, trace[k].admittedAt)
  }

  lemma {:induction false} WritesWithinAdmissions(trace: seq<TraceEvent>, c: ClientId, from: int, to: int)
    requires Paired(trace)
    ensures |RL.Within(WriteTimes(trace, c), from, to)| <= |RL.Within(AdmittedTimes(trace, c), from, to)|
  {
    if trace != [] {
      var n := |trace| - 1;
      var init, e := trace[..n], trace[n];
      if e.Dispatched? && e.client == c {
        var earlier := trace[..n - 1];
        assert init == earlier + [trace[n - 1]] && trace == init + [e];
        WritesWithinAdmissions(earlier, c, from, to);
        PairAppended(earlier, trace[n - 1], e, c);
        RL.WithinConcat(WriteTimes(earlier, c), [e.admittedAt], from, to);
        RL.WithinConcat(AdmittedTimes(earlier, c), [e.admittedAt], from, to);
      } else {
        WritesWithinAdmissions(init, c, from, to);
        assert WriteTimes(trace, c) == WriteTimes(init, c);
        RL.WithinConcat(AdmittedTimes(init, c), if e.Admitted? && e.client == c then [e.at] else [], from, to);
      }
    }
  }

  /** A limiter's array for a client is the admitted times without a part that left the window. */
  ghost predicate LimiterTracks(admitted: seq<int>, history: seq<int>, now: int, maxEvents: int) {
    exists gone :: Tracks(gone, admitted, history, now, maxEvents)
  }

  ghost predicate Tracks(gone: seq<int>, admitted: seq<int>, history: seq<int>, now: int, maxEvents: int) {
    admitted == gone + history && RL.Inv(RL.KeyState(gone, history, now), maxEvents, RATE_WINDOW_MS)
  }

  ghost predicate RateInvFor(s: State, c: ClientId, cfg: Config) {
    var admitted := AdmittedTimes(s.trace, c);
    && RL.Rising(admitted) && RL.Spaced(admitted, cfg.maxInputsPerMinute, RATE_WINDOW_MS)
    && (c in s.clients ==> LimiterTracks(admitted, RL.HistoryOf(s.inputTimes, c), s.now,
                                              cfg.maxInputsPerMinute))
    && (c !in s.used ==> admitted == [] && c !in s.inputTimes)
  }

  ghost predicate RateInv(s: State, cfg: Config) {
    && s.clients.Keys <= s.used
    && Paired(s.trace)
    && forall c :: RateInvFor(s, c, cfg)
  }

  lemma TracksLater(admitted: seq<int>, history: seq<int>, now: int, later: int, maxEvents: int)
    requires LimiterTracks(admitted, history, now, maxEvents) && now <= later
    ensures LimiterTracks(admitted, history, later, maxEvents)
  {
    var gone :| Tracks(gone, admitted, history, now, maxEvents);
    RL.AtMostWeakens(gone, now - RATE_WINDOW_MS - 1, later - RATE_WINDOW_MS - 1);
    RL.AtMostWeakens(history, now, later);
    assert Tracks(gone, admitted, history, later, maxEvents);
  }

  /** A step that admits nothing for the client and leaves its limiter array alone. */
  lemma QuietRate(s: State, t: State, c: ClientId, cfg: Config)
    requires RateInvFor(s, c, cfg) && s.now <= t.now
    requires AdmittedTimes(t.trace, c) == AdmittedTimes(s.trace, c)
    requires c in t.clients ==> c in s.clients && RL.HistoryOf(t.inputTimes, c) == RL.HistoryOf(s.inputTimes, c)
    requires c !in t.used ==> c !in s.used && c !in t.inputTimes
    ensures RateInvFor(t, c, cfg)
  {
    if c in t.clients {
      TracksLater(AdmittedTimes(s.trace, c), RL.HistoryOf(s.inputTimes, c), s.now, t.now, cfg.maxInputsPerMinute);
    }
  }

  /** A call is allowed iff few of the client's admitted times are recent. */
  lemma ConsumeAllows(admitted: seq<int>, history: seq<int>, last: int, now: int, maxEvents: int)
    requires LimiterTracks(admitted, history, last, maxEvents) && last <= now
    ensures var d := RL.Consume(history, now, maxEvents, RATE_WINDOW_MS).1;
            var recent := RL.Within(admitted, now - RATE_WINDOW_MS, now);
            && (d.allowed <==> |recent| < maxEvents)
            && (!d.allowed ==>
                  d.retryAfterMs == Max(0, (if recent == [] then now else recent[0]) + RATE_WINDOW_MS - now))
  {
    var gone :| Tracks(gone, admitted, history, last, maxEvents);
    RL.KeptIsRecent(RL.KeyState(gone, history, last), now, maxEvents, RATE_WINDOW_MS);
  }

  lemma StepTracks(gone: seq<int>, admitted: seq<int>, history: seq<int>, last: int, now: int, maxEvents: int)
    requires Tracks(gone, admitted, history, last, maxEvents) && last <= now
    ensures var k := RL.Step(RL.KeyState(gone, history, last), RL.ConsumeAt(now), maxEvents, RATE_WINDOW_MS);
            && RL.Inv(k, maxEvents, RATE_WINDOW_MS) && k.last == now
            && k.history == RL.Consume(history, now, maxEvents, RATE_WINDOW_MS).0
            && RL.Log(k) == if RL.Consume(history, now, maxEvents, RATE_WINDOW_MS).1.allowed then admitted + [now]
                            else admitted
  {
    RL.ConsumeKeepsInv(RL.KeyState(gone, history, last), now, maxEvents, RATE_WINDOW_MS);
    RL.LogAfter(RL.KeyState(gone, history, last), now, maxEvents, RATE_WINDOW_MS);
  }

  /** One call of a limiter, on the client's admitted times. */
  lemma ConsumeTracks(admitted: seq<int>, history: seq<int>, last: int, now: int, maxEvents: int)
    requires LimiterTracks(admitted, history, last, maxEvents) && last <= now
    ensures var (h, d) := RL.Consume(history, now, maxEvents, RATE_WINDOW_MS);
            var grown := if d.allowed then admitted + [now] else admitted;
            && LimiterTracks(grown, h, now, maxEvents)
            && RL.Rising(grown) && RL.Spaced(grown, maxEvents, RATE_WINDOW_MS)
  {
    var gone :| Tracks(gone, admitted, history, last, maxEvents);
    var k := RL.Step(RL.KeyState(gone, history, last), RL.ConsumeAt(now), maxEvents, RATE_WINDOW_MS);
    StepTracks(gone, admitted, history, last, now, maxEvents);
    assert k == RL.KeyState(k.gone, k.history, now);
    assert Tracks(k.gone, RL.Log(k), k.history, now, maxEvents);
  }

  lemma {:induction false} InputKeepsRate(s: State, c: ClientId, paneId: Option<PaneId>, data: string, override: bool,
                                          env: Env,
                       cfg: Config, x: ClientId)
    requires RateInvFor(s, x, cfg) && c in s.clients && s.clients.Keys <= s.used
    requires s.now <= env.inputNow <= env.sweepNow <= env.setNow
    ensures RateInvFor(HandleInput(s, c, paneId, data, override, env, cfg).0, x, cfg)
  {
    var (history, d) := RL.Consume(RL.HistoryOf(s.inputTimes, c), env.inputNow, cfg.maxInputsPerMinute, RATE_WINDOW_MS);
    var admission := Admitted(c, env.inputNow);
    var trace := if d.allowed then s.trace + [admission] else s.trace;
    var u := s.(inputTimes := s.inputTimes[c := history], now := env.inputNow, trace := trace);
    TimesAppend(s.trace, admission, x);
    if x == c {
      ConsumeTracks(AdmittedTimes(s.trace, c), RL.HistoryOf(s.inputTimes, c), s.now, env.inputNow,
                    cfg.maxInputsPerMinute);
    } else {
      QuietRate(s, u, x, cfg);
    }
    assert RateInvFor(u, x, cfg);
    var t := HandleInput(s, c, paneId, data, override, env, cfg).0;
    if t != u {
      AdmittedShape(u, c, paneId, data, override, env, cfg);
      if t.trace != u.trace {
        TimesAppend(u.trace, t.trace[|u.trace|], x);
      }
      QuietRate(u, t, x, cfg);
    }
  }

  /** What happens to an admitted input changes neither limiter; it adds at most one write to the trace. */
  lemma AdmittedShape(s: State, c: ClientId, paneId: Option<PaneId>, data: string, override: bool, env: Env,
                      cfg: Config)
    requires c in s.clients && s.now == env.inputNow <= env.sweepNow <= env.setNow
    ensures var t := HandleAdmitted(s, c, paneId, data, override, env, cfg).0;
            && t.inputTimes == s.inputTimes && t.clients == s.clients && t.used == s.used && s.now <= t.now
            && (t.trace == s.trace
                || (|t.trace| == |s.trace| + 1 && t.trace == s.trace + [t.trace[|s.trace|]]
                    && t.trace[|s.trace|].Dispatched? && t.trace[|s.trace|].client == c
                    && t.trace[|s.trace|].admittedAt == env.inputNow))
  {
  }

  lemma PairedAppend(trace: seq<TraceEvent>, e: TraceEvent)
    requires Paired(trace)
    requires e.Dispatched? ==> trace != [] && trace[|trace| - 1] == Admitted(e.client, e.admittedAt)
    ensures Paired(trace + [e])
  {
  }

  lemma {:induction false} InputPaired(s: State, c: ClientId, paneId: Option<PaneId>, data: string, override: bool,
                                       env: Env, cfg: Config)
    requires Paired(s.trace) && c in s.clients
    requires s.now <= env.inputNow <= env.sweepNow <= env.setNow
    ensures Paired(HandleInput(s, c, paneId, data, override, env, cfg).0.trace)
  {
    var (history, d) := RL.Consume(RL.HistoryOf(s.inputTimes, c), env.inputNow, cfg.maxInputsPerMinute, RATE_WINDOW_MS);
    if d.allowed {
      var u := s.(inputTimes := s.inputTimes[c := history], now := env.inputNow,
                  trace := s.trace + [Admitted(c, env.inputNow)]);
      PairedAppend(s.trace, Admitted(c, env.inputNow));
      AdmittedShape(u, c, paneId, data, override, env, cfg);
      var t := HandleAdmitted(u, c, paneId, data, override, env, cfg).0;
      if t.trace != u.trace {
        PairedAppend(u.trace, t.trace[|u.trace|]);
      }
    }
  }

  /** Every message but an input leaves the input limiter alone and adds at most a departure to the trace. */
  lemma OtherMessages(s: State, c: ClientId, m: Message, env: Env, cfg: Config)
    requires c in s.clients && !m.Input? && s.now <= env.sweepNow
    ensures var t := Handle(s, c, m, env, cfg).0;
            && t.inputTimes == s.inputTimes && t.clients.Keys == s.clients.Keys && t.used == s.used && s.now <= t.now
            && (t.trace == s.trace || t.trace == s.trace + [Gone(c)]
                || (m.DetachPane? && m.paneId.Some? && t.trace == s.trace + [LeftPane(c, m.paneId.value)]))
  {
  }

  lemma OtherMessagesKeepRate(s: State, c: ClientId, m: Message, env: Env, cfg: Config)
    requires RateInv(s, cfg) && c in s.clients && !m.Input? && s.now <= env.sweepNow
    ensures RateInv(Handle(s, c, m, env, cfg).0, cfg)
  {
    var t := Handle(s, c, m, env, cfg).0;
    OtherMessages(s, c, m, env, cfg);
    if t.trace != s.trace {
      PairedAppend(s.trace, t.trace[|s.trace|]);
    }
    forall x
      ensures RateInvFor(t, x, cfg)
    {
      assert RateInvFor(s, x, cfg);
      if t.trace != s.trace {
        TimesAppend(s.trace, t.trace[|s.trace|], x);
      }
      QuietRate(s, t, x, cfg);
    }
  }

  lemma ReceiveKeepsRate(s: State, c: ClientId, m: Message, env: Env, cfg: Config)
    requires RateInv(s, cfg) && Possible(s, ReceiveStep(c, m, env))
    ensures RateInv(Receive(s, c, m, env, cfg).0, cfg)
  {
    var (history, d) := RL.Consume(RL.HistoryOf(s.messageTimes, c), env.messageNow, cfg.maxMessagesPerMinute,
                                   RATE_WINDOW_MS);
    var u := s.(messageTimes := s.messageTimes[c := history], now := env.messageNow);
    forall x
      ensures RateInvFor(u, x, cfg)
    {
      assert RateInvFor(s, x, cfg);
      QuietRate(s, u, x, cfg);
    }
    if d.allowed && m.Input? {
      if u.clients[c].authenticated {
        InputPaired(u, c, m.paneId, m.data, m.override, env, cfg);
        InputOwners(u, c, m.paneId, m.data, m.override, env, cfg);
        var t := HandleInput(u, c, m.paneId, m.data, m.override, env, cfg).0;
        forall x
          ensures RateInvFor(t, x, cfg)
        {
          InputKeepsRate(u, c, m.paneId, m.data, m.override, env, cfg, x);
        }
      }
    } else if d.allowed && !m.Malformed? {
      OtherMessagesKeepRate(u, c, m, env, cfg);
    }
  }

  lemma StepKeepsRate(s: State, step: Step, cfg: Config)
    requires RateInv(s, cfg) && Possible(s, step)
    ensures RateInv(Next(s, step, cfg), cfg)
  {
    var t := Next(s, step, cfg);
    match step
    case ReceiveStep(c, m, env) => ReceiveKeepsRate(s, c, m, env, cfg);
    case ConnectStep(c) =>
      forall x
        ensures RateInvFor(t, x, cfg)
      {
        assert RateInvFor(s, x, cfg);
        if x == c {
          assert Tracks([], [], [], s.now, cfg.maxInputsPerMinute);
        } else {
          QuietRate(s, t, x, cfg);
        }
      }
    case CloseStep(c, sweepNow) =>
      PairedAppend(s.trace, Gone(c));
      forall x
        ensures RateInvFor(t, x, cfg)
      {
        assert RateInvFor(s, x, cfg);
        TimesAppend(s.trace, Gone(c), x);
        QuietRate(s, t, x, cfg);
      }
    case _ =>
      forall x
        ensures RateInvFor(t, x, cfg)
      {
        assert RateInvFor(s, x, cfg);
        QuietRate(s, t, x, cfg);
      }
  }

  lemma {:induction false} RunKeepsRate(s: State, steps: seq<Step>, cfg: Config)
    requires RateInv(s, cfg) && PossibleRun(s, steps, cfg)
    ensures RateInv(Run(s, steps, cfg), cfg)
    decreases |steps|
  {
    if steps != [] {
      StepKeepsRate(s, steps[0], cfg);
      RunKeepsRate(Next(s, steps[0], cfg), steps[1..], cfg);
    }
  }

  /** In any run, no client causes more than maxInputsPerMinute runtime writes in any 60 s window of admission times. */
  lemma RuntimeWriteBound(start: int, steps: seq<Step>, cfg: Config, c: ClientId, from: int)
    requires PossibleRun(Gateway.Init(start), steps, cfg)
    ensures |RL.Within(WriteTimes(Run(Gateway.Init(start), steps, cfg).trace, c), from, from + RATE_WINDOW_MS)|
            <= Max(0, cfg.maxInputsPerMinute)
  {
    var s := Run(Gateway.Init(start), steps, cfg);
    RunKeepsRate(Gateway.Init(start), steps, cfg);
    assert RateInvFor(s, c, cfg);
    WritesWithinAdmissions(s.trace, c, from, from + RATE_WINDOW_MS);
    RL.SpacedLogBound(AdmittedTimes(s.trace, c), from, cfg.maxInputsPerMinute, RATE_WINDOW_MS);
  }
}
