/**
 * What the gateway answers and lets happen, as a function of the messages so far: over
 * every run, an input reaches the runtime exactly when each of its conditions holds.
 */
module Answers {
  import opened Common
  import opened Ownership
  import opened Gateway
  import opened Access
  import E = Engine
  import GS = GatewaySafety
  import RL = RateLimiter
  import Encoding

  // ---- Records ----

  /** The client connected and has not closed since. */
  ghost predicate Connected(steps: seq<Step>, c: ClientId) {
    exists i :: 0 <= i < |steps| && steps[i] == ConnectStep(c) && StaysOpen(steps, i, c)
  }

  ghost predicate StaysOpen(steps: seq<Step>, i: nat, c: ClientId) {
    forall j :: i < j < |steps| ==> !(steps[j].CloseStep? && steps[j].client == c)
  }

  lemma ConnectedAppend(steps: seq<Step>, x: Step, c: ClientId)
    ensures Connected(steps + [x], c) <==>
            x == ConnectStep(c) || (Connected(steps, c) && !(x.CloseStep? && x.client == c))
  {
    var all := steps + [x];
    assert all[|steps|] == x;
    forall i | 0 <= i < |steps|
      ensures all[i] == steps[i]
      ensures StaysOpen(all, i, c) <==> StaysOpen(steps, i, c) && !(x.CloseStep? && x.client == c)
    {
      assert forall j :: i < j < |steps| ==> all[j] == steps[j];
    }
    assert StaysOpen(all, |steps|, c);
  }

  lemma StepConnects(s: State, x: Step, c: ClientId, cfg: Config)
    requires Possible(s, x)
    ensures c in Next(s, x, cfg).clients <==>
            x == ConnectStep(c) || (c in s.clients && !(x.CloseStep? && x.client == c))
  {
    match x
    case ReceiveStep(y, m, env) => MessageKeepsClients(s, y, m, env, cfg);
    case _ =>
  }

  lemma MessageKeepsClients(s: State, y: ClientId, m: Message, env: Env, cfg: Config)
    requires y in s.clients
    ensures Receive(s, y, m, env, cfg).0.clients.Keys == s.clients.Keys
  {
    if m.Input? {
      InputOwners(Counted(s, y, env, cfg), y, m.paneId, m.data, m.override, env, cfg);
    }
  }

  lemma {:induction false} RunConnects(start: int, steps: seq<Step>, c: ClientId, cfg: Config)
    requires PossibleRun(Init(start), steps, cfg)
    ensures c in Run(Init(start), steps, cfg).clients <==> Connected(steps, c)
    decreases |steps|
  {
    if steps != [] {
      var init, last := steps[..|steps| - 1], steps[|steps| - 1];
      assert steps == init + [last];
      RunAppend(Init(start), init, last, cfg);
      RunConnects(start, init, c, cfg);
      StepConnects(Run(Init(start), init, cfg), last, c, cfg);
      ConnectedAppend(init, last, c);
    }
  }

  /**
   * Over every run. The connected clients are those that connected and did not close. One is
   * authenticated iff no token is required or it presented the right one in a message that
   * passed the message limiter. Its input is enabled iff it is not disabled for all and, of its
   * enable, disable and disconnect messages that were taken, the last is an enable. It is
   * attached to the panes it attached to, within the cap, and has not left.
   */
  lemma {:induction false} RecordsFollowMessages(start: int, steps: seq<Step>, c: ClientId, cfg: Config)
    requires PossibleRun(Init(start), steps, cfg)
    ensures var s := Run(Init(start), steps, cfg);
            && (c in s.clients <==> Connected(steps, c))
            && (c in s.clients ==>
                  && (s.clients[c].authenticated <==> Authenticated(steps, c, cfg))
                  && (s.clients[c].inputEnabled <==> Enabled(steps, c, cfg) && !cfg.globalInputDisabled)
                  && s.clients[c].attachedPanes == Attached(steps, c, cfg))
  {
    RunFollows(start, steps, cfg);
    RunConnects(start, steps, c, cfg);
    assert Follows(Run(Init(start), steps, cfg), steps, c, cfg);
  }

  lemma {:induction false} AttachedIsAuthenticated(steps: seq<Step>, c: ClientId, cfg: Config)
    ensures Attached(steps, c, cfg) != {} ==> Authenticated(steps, c, cfg)
  {
    if steps != [] {
      var init, last := steps[..|steps| - 1], steps[|steps| - 1];
      assert steps == init + [last];
      AttachedIsAuthenticated(init, c, cfg);
      AuthenticatedAppend(init, last, c, cfg);
      TakenLast(init, last, cfg);
    }
  }

  lemma StepForgets(s: State, x: Step, cfg: Config)
    requires Possible(s, x) && s.messageTimes.Keys <= s.clients.Keys && s.inputTimes.Keys <= s.clients.Keys
    ensures var t := Next(s, x, cfg); t.messageTimes.Keys <= t.clients.Keys && t.inputTimes.Keys <= t.clients.Keys
  {
    match x
    case ReceiveStep(c, m, env) =>
      var u := Counted(s, c, env, cfg);
      MessageAnswer(s, c, m, env, cfg);
      MessageKeepsClients(s, c, m, env, cfg);
      if m.Input? {
        InputForgets(u, c, m.paneId, m.data, m.override, env, cfg);
      }
    case _ =>
  }

  lemma InputForgets(u: State, c: ClientId, paneId: Option<PaneId>, data: string, override: bool, env: Env, cfg: Config)
    requires c in u.clients && u.messageTimes.Keys <= u.clients.Keys && u.inputTimes.Keys <= u.clients.Keys
    ensures var t := HandleInput(u, c, paneId, data, override, env, cfg).0;
            t.clients == u.clients && t.messageTimes == u.messageTimes && t.inputTimes.Keys <= u.clients.Keys
  {
  }

  /** The limiters remember connected clients only. */
  lemma {:induction false} LimitersForget(start: int, steps: seq<Step>, cfg: Config)
    requires PossibleRun(Init(start), steps, cfg)
    ensures var s := Run(Init(start), steps, cfg);
            s.messageTimes.Keys <= s.clients.Keys && s.inputTimes.Keys <= s.clients.Keys
    decreases |steps|
  {
    if steps != [] {
      var init, last := steps[..|steps| - 1], steps[|steps| - 1];
      assert steps == init + [last];
      RunAppend(Init(start), init, last, cfg);
      LimitersForget(start, init, cfg);
      StepForgets(Run(Init(start), init, cfg), last, cfg);
    }
  }

  // ---- Handled messages ----

  lemma StepClock(s: State, x: Step, cfg: Config)
    requires Possible(s, x)
    ensures s.now <= Next(s, x, cfg).now
    ensures x.ReceiveStep? ==> x.env.messageNow <= Next(s, x, cfg).now
  {
    match x
    case ReceiveStep(c, m, env) =>
      MessageAnswer(s, c, m, env, cfg);
      HandleLimiters(Counted(s, c, env, cfg), c, m, env, cfg);
    case _ =>
  }

  /** A list of times grows by one that is no earlier and finds few recent ones. */
  lemma TimesGrow(times: seq<int>, last: int, now: int, later: int, most: int)
    requires RL.AtMost(times, last) && RL.Rising(times) && RL.Spaced(times, most, 60_000)
    requires last <= now <= later && Few(times, now, most)
    ensures RL.AtMost(times + [now], later) && RL.Rising(times + [now]) && RL.Spaced(times + [now], most, 60_000)
  {
    RL.AtMostWeakens(times, last, now);
    RL.AtMostWeakens(times, last, later);
    RL.AtMostConcat(times, [now], later);
    assert (times + [now])[..|times|] == times;
  }

  lemma {:induction false} PassingRises(start: int, steps: seq<Step>, c: ClientId, cfg: Config)
    requires PossibleRun(Init(start), steps, cfg)
    ensures var times := Passing(steps, c, cfg);
            && RL.AtMost(times, Run(Init(start), steps, cfg).now)
            && RL.Rising(times) && RL.Spaced(times, cfg.maxMessagesPerMinute, 60_000)
    decreases |steps|
  {
    if steps != [] {
      var init, last := steps[..|steps| - 1], steps[|steps| - 1];
      assert steps == init + [last];
      RunAppend(Init(start), init, last, cfg);
      PassingRises(start, init, c, cfg);
      var s, before := Run(Init(start), init, cfg), Passing(init, c, cfg);
      StepClock(s, last, cfg);
      RL.AtMostWeakens(before, s.now, Next(s, last, cfg).now);
      if From(last, c) && Few(before, last.env.messageNow, cfg.maxMessagesPerMinute) {
        TimesGrow(before, s.now, last.env.messageNow, Next(s, last, cfg).now, cfg.maxMessagesPerMinute);
      }
    }
  }

  /** No client has more than maxMessagesPerMinute messages handled in any 60 s window. */
  lemma {:induction false} HandledBound(start: int, steps: seq<Step>, c: ClientId, from: int, cfg: Config)
    requires PossibleRun(Init(start), steps, cfg)
    ensures |RL.Within(Passing(steps, c, cfg), from, from + 60_000)| <= Max(0, cfg.maxMessagesPerMinute)
  {
    PassingRises(start, steps, c, cfg);
    RL.SpacedLogBound(Passing(steps, c, cfg), from, cfg.maxMessagesPerMinute, 60_000);
  }

  // ---- Inputs ----

  /** Another client wrote to the pane less than a lease ago, has not left it, and is not overridden. */
  ghost predicate Conflicts(s: State, c: ClientId, p: PaneId, override: bool, env: Env, cfg: Config) {
    var w := GS.LastWriter(s.trace, p);
    w.Some? && w.value.0 != c && env.sweepNow < w.value.1 + cfg.leaseMs && !(override && cfg.overrideAllowed)
  }

  /** The leases that have not run out at a time. */
  ghost function Unexpired(owners: map<PaneId, Lease>, now: int): map<PaneId, Lease> {
    map p | p in owners && now < owners[p].expiresAtMs :: owners[p]
  }

  /** The lane is claimed: what the answer is, and what becomes of the leases and the trace. */
  lemma ClaimAnswered(s: State, c: ClientId, p: PaneId, data: string, override: bool, env: Env, cfg: Config)
    requires GS.LaneInv(s, cfg) && ClientsValid(s, cfg) && OwnersAttached(s) && c in s.clients
    requires s.now <= env.sweepNow
    ensures var (t, reply) := ClaimAndWrite(s, c, p, data, override, env, cfg);
            var bytes, live := |Encoding.Encode(data)|, Unexpired(s.owners, env.sweepNow);
            if Conflicts(s, c, p, override, env, cfg) then
              && reply == LaneConflict(p, GS.LastWriter(s.trace, p).value.0, cfg.overrideAllowed)
              && t.trace == s.trace && t.owners == live
            else
              && reply == (if env.writeOk then AckInput(p, bytes) else RuntimeFailure)
              && t.trace == s.trace + [Dispatched(c, p, data, env.inputNow, env.setNow, override
                                                  && cfg.overrideAllowed)]
              && t.owners == live[p := Lease(c, env.setNow + cfg.leaseMs)]
  {
    Encoding.EncodingRoundTrip(data);
    assert GS.LeaseMatches(s, p, cfg.leaseMs);
    assert p in s.owners ==> Holds(s.clients, s.owners[p].clientId, p);
    assert Unexpired(s.owners, env.sweepNow) == Sweep(s.owners, env.sweepNow);
  }

  /** An admitted input is answered by the first check that fails, and reaches the lane if none does. */
  lemma AdmittedAnswered(s: State, c: ClientId, paneId: Option<PaneId>, data: string, override: bool, env: Env,
                         cfg: Config)
    requires c in s.clients
    ensures var (t, reply) := HandleAdmitted(s, c, paneId, data, override, env, cfg);
            var bytes := |Encoding.Encode(data)|;
            if !(s.clients[c].inputEnabled && !cfg.globalInputDisabled) then t == s && reply == InputDisabled
            else if paneId.None? || data == "" then t == s && reply == InvalidInput
            else if paneId.value !in s.clients[c].attachedPanes then t == s && reply == PaneNotAttached
            else if bytes > cfg.maxInputBytes then t == s && reply == InputTooLarge(cfg.maxInputBytes, bytes)
            else (t, reply) == ClaimAndWrite(s, c, paneId.value, data, override, env, cfg)
  {
    Encoding.EncodingRoundTrip(data);
  }

  /** The state in which an admitted input is checked. */
  function Admission(u: State, c: ClientId, env: Env, cfg: Config): State {
    var (history, d) := RL.Consume(RL.HistoryOf(u.inputTimes, c), env.inputNow, cfg.maxInputsPerMinute, RATE_WINDOW_MS);
    u.(inputTimes := u.inputTimes[c := history], now := env.inputNow, trace := u.trace + [Admitted(c, env.inputNow)])
  }

  /** The input limiter decides as the times of the inputs that passed it say. */
  lemma InputLimited(u: State, inputs: seq<int>, c: ClientId, paneId: Option<PaneId>, data: string, override: bool,
                     env: Env, cfg: Config)
    requires c in u.clients && u.now <= env.inputNow
    requires GS.LimiterTracks(inputs, RL.HistoryOf(u.inputTimes, c), u.now, cfg.maxInputsPerMinute)
    ensures var (t, reply) := HandleInput(u, c, paneId, data, override, env, cfg);
            if Few(inputs, env.inputNow, cfg.maxInputsPerMinute) then
              (t, reply) == HandleAdmitted(Admission(u, c, env, cfg), c, paneId, data, override, env, cfg)
            else
              reply == InputRateLimited(RetryAfter(inputs, env.inputNow)) && t.trace == u.trace && t.owners == u.owners
  {
    LimiterStep(inputs, RL.HistoryOf(u.inputTimes, c), u.now, env.inputNow, cfg.maxInputsPerMinute);
  }

  lemma SameWriter(s: State, t: State, e: TraceEvent, p: PaneId)
    requires t.trace == s.trace + [e] && e.Admitted?
    ensures GS.LastWriter(t.trace, p) == GS.LastWriter(s.trace, p)
  {
    GS.LastWriterAppend(s.trace, e, p);
  }

  lemma AdmissionKeepsLanes(s: State, c: ClientId, env: Env, cfg: Config)
    requires GS.LaneInv(s, cfg) && s.now <= env.messageNow <= env.inputNow
    ensures GS.LaneInv(Admission(Counted(s, c, env, cfg), c, env, cfg), cfg)
  {
    GS.QuietMatches(s, Counted(s, c, env, cfg), cfg.leaseMs);
    GS.QuietMatches(Counted(s, c, env, cfg), Admission(Counted(s, c, env, cfg), c, env, cfg), cfg.leaseMs);
  }

  /**
   * What becomes of an input, in terms of the messages before it. It is answered by the first
   * of these that fails: the message limiter, authentication, the input limiter, the input
   * policy, a pane and some data, attachment to the pane, its size in bytes, and the lane. Only
   * if all hold is it written, and only from the lane on do leases change; the trace says
   * whether it was admitted and whether it was written.
   */
  ghost predicate InputOutcome(s: State, steps: seq<Step>, c: ClientId, paneId: Option<PaneId>, data: string,
                               override: bool, env: Env, cfg: Config, t: State, reply: Reply) {
    if !Few(Passing(steps, c, cfg), env.messageNow, cfg.maxMessagesPerMinute) then
      && reply == RateLimited(RetryAfter(Passing(steps, c, cfg), env.messageNow))
      && t.trace == s.trace && t.owners == s.owners
    else if !Authenticated(steps, c, cfg) then
      reply == AuthRequired && t.trace == s.trace && t.owners == s.owners
    else if !Few(Inputs(steps, c, cfg), env.inputNow, cfg.maxInputsPerMinute) then
      && reply == InputRateLimited(RetryAfter(Inputs(steps, c, cfg), env.inputNow))
      && t.trace == s.trace && t.owners == s.owners
    else
      AdmittedOutcome(s, steps, c, paneId, data, override, env, cfg, t, reply, s.trace + [Admitted(c, env.inputNow)])
  }

  ghost predicate AdmittedOutcome(s: State, steps: seq<Step>, c: ClientId, paneId: Option<PaneId>, data: string,
                                  override: bool, env: Env, cfg: Config, t: State, reply: Reply,
                                  admitted: seq<TraceEvent>) {
    var bytes, live := |Encoding.Encode(data)|, Unexpired(s.owners, env.sweepNow);
    if !Enabled(steps, c, cfg) || cfg.globalInputDisabled then
      reply == InputDisabled && t.trace == admitted && t.owners == s.owners
    else if paneId.None? || data == "" then
      reply == InvalidInput && t.trace == admitted && t.owners == s.owners
    else if paneId.value !in Attached(steps, c, cfg) then
      reply == PaneNotAttached && t.trace == admitted && t.owners == s.owners
    else if bytes > cfg.maxInputBytes then
      reply == InputTooLarge(cfg.maxInputBytes, bytes) && t.trace == admitted && t.owners == s.owners
    else if Conflicts(s, c, paneId.value, override, env, cfg) then
      && reply == LaneConflict(paneId.value, GS.LastWriter(s.trace, paneId.value).value.0, cfg.overrideAllowed)
      && t.trace == admitted && t.owners == live
    else
      && reply == (if env.writeOk then AckInput(paneId.value, bytes) else RuntimeFailure)
      && t.trace == admitted + [Dispatched(c, paneId.value, data, env.inputNow, env.setNow,
                                           override && cfg.overrideAllowed)]
      && t.owners == live[paneId.value := Lease(c, env.setNow + cfg.leaseMs)]
  }

  /** The admitted part. */
  lemma AdmissionAnswered(s: State, steps: seq<Step>, c: ClientId, paneId: Option<PaneId>, data: string,
                          override: bool, env: Env, cfg: Config)
    requires GS.LaneInv(s, cfg) && ClientsValid(s, cfg) && OwnersAttached(s) && c in s.clients
    requires RecordFollows(s, steps, c, cfg) && s.now <= env.messageNow <= env.inputNow <= env.sweepNow
    ensures var v := Admission(Counted(s, c, env, cfg), c, env, cfg);
            var (t, reply) := HandleAdmitted(v, c, paneId, data, override, env, cfg);
            AdmittedOutcome(s, steps, c, paneId, data, override, env, cfg, t, reply,
                            s.trace + [Admitted(c, env.inputNow)])
  {
    var v := Admission(Counted(s, c, env, cfg), c, env, cfg);
    AdmittedAnswered(v, c, paneId, data, override, env, cfg);
    if paneId.Some? {
      AdmissionKeepsLanes(s, c, env, cfg);
      ClaimAnswered(v, c, paneId.value, data, override, env, cfg);
      SameWriter(s, v, Admitted(c, env.inputNow), paneId.value);
    }
  }

  lemma HandledInput(s: State, steps: seq<Step>, c: ClientId, paneId: Option<PaneId>, data: string, override: bool,
                     env: Env, cfg: Config)
    requires c in s.clients && RecordFollows(s, steps, c, cfg) && LimitersFollow(s, steps, c, cfg)
    requires GS.LaneInv(s, cfg) && ClientsValid(s, cfg) && OwnersAttached(s)
    requires s.now <= env.messageNow <= env.inputNow <= env.sweepNow
    requires Few(Passing(steps, c, cfg), env.messageNow, cfg.maxMessagesPerMinute) && s.clients[c].authenticated
    ensures var (t, reply) := HandleInput(Counted(s, c, env, cfg), c, paneId, data, override, env, cfg);
            InputOutcome(s, steps, c, paneId, data, override, env, cfg, t, reply)
  {
    var u := Counted(s, c, env, cfg);
    GS.TracksLater(Inputs(steps, c, cfg), RL.HistoryOf(s.inputTimes, c), s.now, u.now, cfg.maxInputsPerMinute);
    InputLimited(u, Inputs(steps, c, cfg), c, paneId, data, override, env, cfg);
    AdmissionAnswered(s, steps, c, paneId, data, override, env, cfg);
  }

  lemma NotAuthenticated(u: State, c: ClientId, m: Message, env: Env, cfg: Config)
    requires c in u.clients && !u.clients[c].authenticated && m.Input?
    ensures Handle(u, c, m, env, cfg) == (u, AuthRequired)
  {
  }

  lemma RefusedInput(s: State, steps: seq<Step>, c: ClientId, paneId: Option<PaneId>, data: string, override: bool,
                     env: Env, cfg: Config)
    requires c in s.clients && RecordFollows(s, steps, c, cfg) && LimitersFollow(s, steps, c, cfg)
    requires s.now <= env.messageNow
    requires !(Few(Passing(steps, c, cfg), env.messageNow, cfg.maxMessagesPerMinute) && s.clients[c].authenticated)
    ensures var (t, reply) := Receive(s, c, Input(paneId, data, override), env, cfg);
            && t.trace == s.trace && t.owners == s.owners
            && reply == if Few(Passing(steps, c, cfg), env.messageNow, cfg.maxMessagesPerMinute) then AuthRequired
                        else RateLimited(RetryAfter(Passing(steps, c, cfg), env.messageNow))
  {
    var m := Input(paneId, data, override);
    AllowsFew(s, steps, c, env, cfg);
    MessageAnswer(s, c, m, env, cfg);
    if Allows(s, c, env, cfg) {
      NotAuthenticated(Counted(s, c, env, cfg), c, m, env, cfg);
    }
  }

  lemma TakenInput(s: State, steps: seq<Step>, c: ClientId, paneId: Option<PaneId>, data: string, override: bool,
                   env: Env, cfg: Config)
    requires c in s.clients && RecordFollows(s, steps, c, cfg) && LimitersFollow(s, steps, c, cfg)
    requires s.now <= env.messageNow
    requires Few(Passing(steps, c, cfg), env.messageNow, cfg.maxMessagesPerMinute) && s.clients[c].authenticated
    ensures Receive(s, c, Input(paneId, data, override), env, cfg) ==
            HandleInput(Counted(s, c, env, cfg), c, paneId, data, override, env, cfg)
  {
    MessageAnswer(s, c, Input(paneId, data, override), env, cfg);
    AllowsFew(s, steps, c, env, cfg);
  }

  lemma {:induction false} ReceivedInput(s: State, steps: seq<Step>, c: ClientId, paneId: Option<PaneId>, data: string,
                                         override: bool,
                      env: Env, cfg: Config)
    requires c in s.clients && RecordFollows(s, steps, c, cfg) && LimitersFollow(s, steps, c, cfg)
    requires GS.LaneInv(s, cfg) && ClientsValid(s, cfg) && OwnersAttached(s)
    requires s.now <= env.messageNow <= env.inputNow <= env.sweepNow
    ensures var (t, reply) := Receive(s, c, Input(paneId, data, override), env, cfg);
            InputOutcome(s, steps, c, paneId, data, override, env, cfg, t, reply)
  {
    if Few(Passing(steps, c, cfg), env.messageNow, cfg.maxMessagesPerMinute) && s.clients[c].authenticated {
      TakenInput(s, steps, c, paneId, data, override, env, cfg);
      HandledInput(s, steps, c, paneId, data, override, env, cfg);
    } else {
      RefusedInput(s, steps, c, paneId, data, override, env, cfg);
    }
  }

  /** Over every run, an input is answered so. */
  lemma {:induction false} InputAnswered(start: int, steps: seq<Step>, c: ClientId, paneId: Option<PaneId>,
                                         data: string, override: bool,
                      env: Env, cfg: Config)
    requires PossibleRun(Init(start), steps, cfg)
    requires Possible(Run(Init(start), steps, cfg), ReceiveStep(c, Input(paneId, data, override), env))
    ensures var s := Run(Init(start), steps, cfg);
            var (t, reply) := Receive(s, c, Input(paneId, data, override), env, cfg);
            InputOutcome(s, steps, c, paneId, data, override, env, cfg, t, reply)
  {
    RunFollows(start, steps, cfg);
    GS.RunKeepsLanes(Init(start), steps, cfg);
    assert Follows(Run(Init(start), steps, cfg), steps, c, cfg);
    ReceivedInput(Run(Init(start), steps, cfg), steps, c, paneId, data, override, env, cfg);
  }

  // ---- Who gets anywhere ----

  /** The k-th step is an input that called for the write, from a client that was entitled to it. */
  ghost predicate Entitled(steps: seq<Step>, k: nat, e: TraceEvent, cfg: Config)
    requires k < |steps| && e.Dispatched?
  {
    && From(steps[k], e.client) && steps[k].message.Input?
    && steps[k].message.paneId == Some(e.paneId) && steps[k].message.data == e.data
    && steps[k].env.inputNow == e.admittedAt && steps[k].env.setNow == e.at
    && e.byOverride == (steps[k].message.override && cfg.overrideAllowed)
    && Taken(steps, k, cfg)
    && Few(Inputs(steps[..k], e.client, cfg), e.admittedAt, cfg.maxInputsPerMinute)
    && Enabled(steps[..k], e.client, cfg) && !cfg.globalInputDisabled
    && e.data != "" && e.paneId in Attached(steps[..k], e.client, cfg)
    && |Encoding.Encode(e.data)| <= cfg.maxInputBytes
  }

  lemma EntitledStays(steps: seq<Step>, x: Step, k: nat, e: TraceEvent, cfg: Config)
    requires k < |steps| && e.Dispatched? && Entitled(steps, k, e, cfg)
    ensures Entitled(steps + [x], k, e, cfg)
  {
    TakenStays(steps, x, k, cfg);
    assert (steps + [x])[..k] == steps[..k];
  }

  /** A step that is no input adds no write to the trace. */
  lemma OtherSteps(s: State, x: Step, cfg: Config)
    requires Possible(s, x) && !(x.ReceiveStep? && x.message.Input?)
    ensures var t := Next(s, x, cfg);
            s.trace <= t.trace && forall i :: |s.trace| <= i < |t.trace| ==> !t.trace[i].Dispatched?
  {
    if x.ReceiveStep? {
      MessageAnswer(s, x.client, x.message, x.env, cfg);
      GS.OtherMessages(Counted(s, x.client, x.env, cfg), x.client, x.message, x.env, cfg);
    }
  }

  /** What an outcome with a write says. */
  lemma {:induction false} OutcomeWrites(s: State, steps: seq<Step>, c: ClientId, paneId: Option<PaneId>, data: string,
                                         override: bool,
                      env: Env, cfg: Config, t: State, reply: Reply, i: nat)
    requires InputOutcome(s, steps, c, paneId, data, override, env, cfg, t, reply)
    requires |s.trace| <= i < |t.trace| && t.trace[i].Dispatched?
    ensures Few(Passing(steps, c, cfg), env.messageNow, cfg.maxMessagesPerMinute) && Authenticated(steps, c, cfg)
    ensures Few(Inputs(steps, c, cfg), env.inputNow, cfg.maxInputsPerMinute)
    ensures Enabled(steps, c, cfg) && !cfg.globalInputDisabled
    ensures paneId.Some? && data != "" && paneId.value in Attached(steps, c, cfg)
    ensures |Encoding.Encode(data)| <= cfg.maxInputBytes
    ensures t.trace[i] == Dispatched(c, paneId.value, data, env.inputNow, env.setNow, override && cfg.overrideAllowed)
  {
  }

  lemma {:induction false} InputWrites(start: int, steps: seq<Step>, x: Step, i: nat, cfg: Config)
    requires PossibleRun(Init(start), steps, cfg) && Possible(Run(Init(start), steps, cfg), x)
    requires x.ReceiveStep? && x.message.Input?
    requires var s := Run(Init(start), steps, cfg); var t := Next(s, x, cfg);
             |s.trace| <= i < |t.trace| && t.trace[i].Dispatched?
    ensures var e := Next(Run(Init(start), steps, cfg), x, cfg).trace[i]; Entitled(steps + [x], |steps|, e, cfg)
  {
    var s, m := Run(Init(start), steps, cfg), x.message;
    var (t, reply) := Receive(s, x.client, m, x.env, cfg);
    InputAnswered(start, steps, x.client, m.paneId, m.data, m.override, x.env, cfg);
    OutcomeWrites(s, steps, x.client, m.paneId, m.data, m.override, x.env, cfg, t, reply, i);
    TakenLast(steps, x, cfg);
    assert (steps + [x])[..|steps|] == steps;
  }

  lemma {:induction false} InputKeepsTrace(start: int, steps: seq<Step>, x: Step, cfg: Config)
    requires PossibleRun(Init(start), steps, cfg) && Possible(Run(Init(start), steps, cfg), x)
    requires x.ReceiveStep? && x.message.Input?
    ensures Run(Init(start), steps, cfg).trace <= Next(Run(Init(start), steps, cfg), x, cfg).trace
  {
    var m := x.message;
    InputAnswered(start, steps, x.client, m.paneId, m.data, m.override, x.env, cfg);
  }

  /** The trace only grows, and by a write only if the step is an entitled input. */
  lemma {:induction false} StepWrites(start: int, steps: seq<Step>, x: Step, i: nat, cfg: Config)
    requires PossibleRun(Init(start), steps, cfg) && Possible(Run(Init(start), steps, cfg), x)
    ensures var s := Run(Init(start), steps, cfg); var t := Next(s, x, cfg);
            && s.trace <= t.trace
            && (|s.trace| <= i < |t.trace| && t.trace[i].Dispatched? ==>
                  Entitled(steps + [x], |steps|, t.trace[i], cfg))
  {
    var s := Run(Init(start), steps, cfg);
    if x.ReceiveStep? && x.message.Input? {
      InputKeepsTrace(start, steps, x, cfg);
      if |s.trace| <= i < |Next(s, x, cfg).trace| && Next(s, x, cfg).trace[i].Dispatched? {
        InputWrites(start, steps, x, i, cfg);
      }
    } else {
      OtherSteps(s, x, cfg);
    }
  }

  /** Over every run, each write in the trace was called for by an input of an entitled client. */
  lemma {:induction false} WritesAreEntitled(start: int, steps: seq<Step>, i: nat, cfg: Config) returns (k: nat)
    requires PossibleRun(Init(start), steps, cfg)
    requires i < |Run(Init(start), steps, cfg).trace| && Run(Init(start), steps, cfg).trace[i].Dispatched?
    ensures k < |steps| && Entitled(steps, k, Run(Init(start), steps, cfg).trace[i], cfg)
    decreases |steps|
  {
    var init, last := steps[..|steps| - 1], steps[|steps| - 1];
    assert steps == init + [last];
    RunAppend(Init(start), init, last, cfg);
    StepWrites(start, init, last, i, cfg);
    var before := Run(Init(start), init, cfg).trace;
    k := |init|;
    if i < |before| {
      assert before[i] == Run(Init(start), steps, cfg).trace[i];
      k := WritesAreEntitled(start, init, i, cfg);
      EntitledStays(init, last, k, before[i], cfg);
    }
  }

  lemma {:induction false} AuthenticatedStays(steps: seq<Step>, k: nat, c: ClientId, cfg: Config)
    requires k <= |steps| && Authenticated(steps[..k], c, cfg)
    ensures Authenticated(steps, c, cfg)
    decreases |steps|
  {
    if k < |steps| {
      var init := steps[..|steps| - 1];
      assert init[..k] == steps[..k] && steps == init + [steps[|steps| - 1]];
      AuthenticatedStays(init, k, c, cfg);
      AuthenticatedAppend(init, steps[|steps| - 1], c, cfg);
    } else {
      assert steps[..k] == steps;
    }
  }

  /** Over every run, only authenticated clients hold leases, are subscribed, or ever wrote. */
  lemma {:induction false} OnlyAuthenticated(start: int, steps: seq<Step>, cfg: Config)
    requires PossibleRun(Init(start), steps, cfg)
    ensures var s := Run(Init(start), steps, cfg);
            && (forall p :: p in s.owners ==> Authenticated(steps, s.owners[p].clientId, cfg))
            && (forall p, c :: p in s.engine.panes && c in s.engine.panes[p].subscribers ==>
                  Authenticated(steps, c, cfg))
            && (forall e :: e in s.trace && e.Dispatched? ==> Authenticated(steps, e.client, cfg))
  {
    var s := Run(Init(start), steps, cfg);
    ReachableAgrees(start, steps, cfg);
    forall c, p | Holds(s.clients, c, p)
      ensures Authenticated(steps, c, cfg)
    {
      RecordsFollowMessages(start, steps, c, cfg);
      AttachedIsAuthenticated(steps, c, cfg);
    }
    forall e | e in s.trace && e.Dispatched?
      ensures Authenticated(steps, e.client, cfg)
    {
      var i :| 0 <= i < |s.trace| && s.trace[i] == e;
      var k := WritesAreEntitled(start, steps, i, cfg);
      AuthenticatedStays(steps, k, e.client, cfg);
    }
  }

  // ---- The other answers ----

  /**
   * What any other message is answered, in the order of the checks: the message limiter,
   * parsing, authentication, and then what the message itself asks for.
   */
  ghost predicate OtherAnswer(s: State, steps: seq<Step>, c: ClientId, m: Message, env: Env, cfg: Config,
                              reply: Reply) {
    if !Few(Passing(steps, c, cfg), env.messageNow, cfg.maxMessagesPerMinute) then
      reply == RateLimited(RetryAfter(Passing(steps, c, cfg), env.messageNow))
    else if m.Malformed? then reply == ParseError
    else if m.Auth? then reply == if m.token == cfg.authToken || cfg.authToken == "" then AuthOk else InvalidToken
    else if !Authenticated(steps, c, cfg) then reply == AuthRequired
    else
      match m
      case Attach(paneId, _) => AttachAnswer(s, Attached(steps, c, cfg), paneId, env, cfg, reply)
      case DetachPane(paneId) => reply == if paneId.None? then InvalidPaneId else AckDetach(paneId.value)
      case EnableInput => reply == PolicyUpdate(!cfg.globalInputDisabled, cfg.globalInputDisabled)
      case DisableInput => reply == PolicyUpdate(false, cfg.globalInputDisabled)
      case ListSessions => reply == SessionList
      case Heartbeat => reply == HeartbeatAck
      case Disconnect => reply == AckDisconnect
      case _ => m.Unknown? ==> reply == UnknownType
  }

  /** An attach fails only for a pane that has no watcher yet, when its capture does. */
  ghost predicate AttachAnswer(s: State, attached: set<PaneId>, paneId: Option<PaneId>, env: Env, cfg: Config,
                               reply: Reply) {
    if paneId.None? then reply == InvalidPaneId
    else if paneId.value !in attached && |attached| >= cfg.maxAttachedPanes then reply == MaxAttachedPanesExceeded
    else
      reply == if paneId.value in s.engine.panes || env.capture.Some? then AckAttach(paneId.value) else RuntimeFailure
  }

  lemma AttachAnswered(s: State, c: ClientId, paneId: Option<PaneId>, since: Option<int>, env: Env, cfg: Config)
    requires c in s.clients && E.Consistent(s.engine, cfg.maxHistory)
    ensures AttachAnswer(s, s.clients[c].attachedPanes, paneId, env, cfg,
                         HandleAttach(s, c, paneId, since, env, cfg).1)
  {
  }

  /** Over every run, every other message is answered so. */
  lemma {:induction false} OthersAnswered(start: int, steps: seq<Step>, c: ClientId, m: Message, env: Env, cfg: Config)
    requires PossibleRun(Init(start), steps, cfg) && !m.Input?
    requires Possible(Run(Init(start), steps, cfg), ReceiveStep(c, m, env))
    ensures var s := Run(Init(start), steps, cfg);
            OtherAnswer(s, steps, c, m, env, cfg, Receive(s, c, m, env, cfg).1)
  {
    var s := Run(Init(start), steps, cfg);
    RunFollows(start, steps, cfg);
    ReachableAgrees(start, steps, cfg);
    assert Follows(s, steps, c, cfg);
    MessageAnswer(s, c, m, env, cfg);
    AllowsFew(s, steps, c, env, cfg);
    if m.Attach? {
      AttachAnswered(Counted(s, c, env, cfg), c, m.paneId, m.lastSeq, env, cfg);
    }
  }
}
