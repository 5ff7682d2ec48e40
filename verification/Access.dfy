/**
 * Who may do what, read off the messages alone: which of them the limiters let pass, who
 * is authenticated, whose input is enabled and who is attached where. The gateway's
 * records are exactly that, over every run.
 */
module Access {
  import opened Common
  import opened Gateway
  import GS = GatewaySafety
  import RL = RateLimiter

  // ---- What the messages say ----

  /** Fewer than most of the times lie in the minute that ends now. */
  predicate Few(times: seq<int>, now: int, most: int) {
    |RL.Within(times, now - 60_000, now)| < most
  }

  /** How long until the oldest of the times in the last minute is a minute old; a minute if there is none. */
  function RetryAfter(times: seq<int>, now: int): int {
    var recent := RL.Within(times, now - 60_000, now);
    if recent == [] then 60_000 else Max(0, recent[0] + 60_000 - now)
  }

  predicate From(step: Step, c: ClientId) {
    step.ReceiveStep? && step.client == c
  }

  predicate Sends(step: Step, c: ClientId, m: Message) {
    From(step, c) && step.message == m
  }

  /** When the messages of a client that passed the message limiter came. */
  function Passing(steps: seq<Step>, c: ClientId, cfg: Config): seq<int> {
    if steps == [] then []
    else
      var before, last := Passing(steps[..|steps| - 1], c, cfg), steps[|steps| - 1];
      if From(last, c) && Few(before, last.env.messageNow, cfg.maxMessagesPerMinute) then before + [last.env.messageNow]
      else before
  }

  /** The i-th step is a message that passed the message limiter. */
  predicate Passes(steps: seq<Step>, i: nat, cfg: Config)
    requires i < |steps|
  {
    steps[i].ReceiveStep?
    && Few(Passing(steps[..i], steps[i].client, cfg), steps[i].env.messageNow, cfg.maxMessagesPerMinute)
  }

  /** No token is required, or the right one was presented in a message that passed. */
  ghost predicate Authenticated(steps: seq<Step>, c: ClientId, cfg: Config) {
    cfg.authToken == ""
    || exists i :: 0 <= i < |steps| && Sends(steps[i], c, Auth(cfg.authToken)) && Passes(steps, i, cfg)
  }

  /** The i-th step is a message that is acted on, whatever the action. */
  ghost predicate Taken(steps: seq<Step>, i: nat, cfg: Config)
    requires i < |steps|
  {
    Passes(steps, i, cfg) && Authenticated(steps[..i], steps[i].client, cfg)
  }

  predicate SwitchesOff(step: Step, c: ClientId) {
    Sends(step, c, DisableInput) || Sends(step, c, Disconnect)
  }

  /** Of the client's enable, disable and disconnect messages that were taken, the last is an enable. */
  ghost predicate Enabled(steps: seq<Step>, c: ClientId, cfg: Config) {
    exists i :: 0 <= i < |steps| && EnabledAt(steps, i, c, cfg)
  }

  ghost predicate EnabledAt(steps: seq<Step>, i: nat, c: ClientId, cfg: Config)
    requires i < |steps|
  {
    && Sends(steps[i], c, EnableInput) && Taken(steps, i, cfg)
    && forall j :: i < j < |steps| && SwitchesOff(steps[j], c) ==> !Taken(steps, j, cfg)
  }

  function AttachedAfter(before: set<PaneId>, m: Message, cfg: Config): set<PaneId> {
    match m
    case Attach(Some(p), _) => if |before + {p}| <= Max(|before|, cfg.maxAttachedPanes) then before + {p} else before
    case DetachPane(Some(p)) => before - {p}
    case Disconnect => {}
    case _ => before
  }

  /** The panes a client attached to and has not left, as far as the cap let it. */
  ghost function Attached(steps: seq<Step>, c: ClientId, cfg: Config): set<PaneId> {
    if steps == [] then {}
    else
      var before, last := Attached(steps[..|steps| - 1], c, cfg), steps[|steps| - 1];
      if From(last, c) && Taken(steps, |steps| - 1, cfg) then AttachedAfter(before, last.message, cfg) else before
  }

  /** When the inputs of a client that passed the input limiter came to it. */
  ghost function Inputs(steps: seq<Step>, c: ClientId, cfg: Config): seq<int> {
    if steps == [] then []
    else
      var before, last := Inputs(steps[..|steps| - 1], c, cfg), steps[|steps| - 1];
      if From(last, c) && last.message.Input? && Taken(steps, |steps| - 1, cfg)
         && Few(before, last.env.inputNow, cfg.maxInputsPerMinute)
      then before + [last.env.inputNow]
      else before
  }

  // ---- One more step ----

  lemma PassesStays(steps: seq<Step>, x: Step, i: nat, cfg: Config)
    requires i < |steps|
    ensures Passes(steps + [x], i, cfg) <==> Passes(steps, i, cfg)
  {
    assert (steps + [x])[..i] == steps[..i];
  }

  lemma PassesLast(steps: seq<Step>, x: Step, cfg: Config)
    ensures Passes(steps + [x], |steps|, cfg) <==>
            x.ReceiveStep? && Few(Passing(steps, x.client, cfg), x.env.messageNow, cfg.maxMessagesPerMinute)
  {
    assert (steps + [x])[..|steps|] == steps;
  }

  lemma {:induction false} AuthenticatedAppend(steps: seq<Step>, x: Step, c: ClientId, cfg: Config)
    ensures Authenticated(steps + [x], c, cfg) <==>
            Authenticated(steps, c, cfg)
            || (Sends(x, c, Auth(cfg.authToken)) && Passes(steps + [x], |steps|, cfg))
  {
    var all := steps + [x];
    forall i | 0 <= i < |steps|
      ensures all[i] == steps[i] && (Passes(all, i, cfg) <==> Passes(steps, i, cfg))
    {
      PassesStays(steps, x, i, cfg);
    }
    assert all[|steps|] == x;
  }

  lemma TakenStays(steps: seq<Step>, x: Step, i: nat, cfg: Config)
    requires i < |steps|
    ensures Taken(steps + [x], i, cfg) <==> Taken(steps, i, cfg)
  {
    PassesStays(steps, x, i, cfg);
    assert (steps + [x])[..i] == steps[..i];
  }

  lemma TakenLast(steps: seq<Step>, x: Step, cfg: Config)
    ensures Taken(steps + [x], |steps|, cfg) <==>
            x.ReceiveStep? && Few(Passing(steps, x.client, cfg), x.env.messageNow, cfg.maxMessagesPerMinute)
            && Authenticated(steps, x.client, cfg)
  {
    PassesLast(steps, x, cfg);
    assert (steps + [x])[..|steps|] == steps;
  }

  lemma {:induction false} EnabledAppend(steps: seq<Step>, x: Step, c: ClientId, cfg: Config)
    ensures Enabled(steps + [x], c, cfg) <==>
            if From(x, c) && x.message.EnableInput? && Taken(steps + [x], |steps|, cfg) then true
            else if SwitchesOff(x, c) && Taken(steps + [x], |steps|, cfg) then false
            else Enabled(steps, c, cfg)
  {
    var all := steps + [x];
    assert all[|steps|] == x;
    forall i | 0 <= i < |steps|
      ensures all[i] == steps[i] && (Taken(all, i, cfg) <==> Taken(steps, i, cfg))
    {
      TakenStays(steps, x, i, cfg);
    }
    forall i | 0 <= i < |steps|
      ensures EnabledAt(all, i, c, cfg) <==>
              EnabledAt(steps, i, c, cfg) && !(SwitchesOff(x, c) && Taken(all, |steps|, cfg))
    {
    }
    assert EnabledAt(all, |steps|, c, cfg) <==> Sends(x, c, EnableInput) && Taken(all, |steps|, cfg);
  }

  lemma PassingAppend(steps: seq<Step>, x: Step, c: ClientId, cfg: Config)
    ensures Passing(steps + [x], c, cfg) ==
            Passing(steps, c, cfg)
            + if From(x, c) && Few(Passing(steps, c, cfg), x.env.messageNow, cfg.maxMessagesPerMinute)
              then [x.env.messageNow] else []
  {
    assert (steps + [x])[..|steps|] == steps;
  }

  lemma {:induction false} RunAppend(s: State, steps: seq<Step>, x: Step, cfg: Config)
    requires PossibleRun(s, steps + [x], cfg)
    ensures PossibleRun(s, steps, cfg) && Possible(Run(s, steps, cfg), x)
    ensures Run(s, steps + [x], cfg) == Next(Run(s, steps, cfg), x, cfg)
    decreases |steps|
  {
    if steps == [] {
      assert [] + [x] == [x] && [x][1..] == [];
    } else {
      assert (steps + [x])[1..] == steps[1..] + [x];
      RunAppend(Next(s, steps[0], cfg), steps[1..], x, cfg);
    }
  }

  // ---- The records follow the messages ----

  lemma AttachedAppend(steps: seq<Step>, x: Step, c: ClientId, cfg: Config)
    ensures Attached(steps + [x], c, cfg) ==
            if From(x, c) && Taken(steps + [x], |steps|, cfg)
                then AttachedAfter(Attached(steps, c, cfg), x.message, cfg)
            else Attached(steps, c, cfg)
  {
    assert (steps + [x])[..|steps|] == steps;
  }

  lemma InputsAppend(steps: seq<Step>, x: Step, c: ClientId, cfg: Config)
    ensures Inputs(steps + [x], c, cfg) ==
            Inputs(steps, c, cfg)
            + if From(x, c) && x.message.Input? && Taken(steps + [x], |steps|, cfg)
                 && Few(Inputs(steps, c, cfg), x.env.inputNow, cfg.maxInputsPerMinute)
              then [x.env.inputNow] else []
  {
    assert (steps + [x])[..|steps|] == steps;
  }

  ghost predicate LimitersFollow(s: State, steps: seq<Step>, c: ClientId, cfg: Config) {
    && GS.LimiterTracks(Passing(steps, c, cfg), RL.HistoryOf(s.messageTimes, c), s.now, cfg.maxMessagesPerMinute)
    && GS.LimiterTracks(Inputs(steps, c, cfg), RL.HistoryOf(s.inputTimes, c), s.now, cfg.maxInputsPerMinute)
  }

  ghost predicate RecordFollows(s: State, steps: seq<Step>, c: ClientId, cfg: Config)
    requires c in s.clients
  {
    && (s.clients[c].authenticated <==> Authenticated(steps, c, cfg))
    && (s.clients[c].inputEnabled <==> Enabled(steps, c, cfg) && !cfg.globalInputDisabled)
    && s.clients[c].attachedPanes == Attached(steps, c, cfg)
  }

  ghost predicate Follows(s: State, steps: seq<Step>, c: ClientId, cfg: Config) {
    && (c in s.clients ==> RecordFollows(s, steps, c, cfg) && LimitersFollow(s, steps, c, cfg))
    && (c !in s.used ==> Unheard(steps, c) && c !in s.messageTimes && c !in s.inputTimes)
  }

  predicate Unheard(steps: seq<Step>, c: ClientId) {
    forall i :: 0 <= i < |steps| ==> !From(steps[i], c)
  }

  lemma {:induction false} UnheardSaysNothing(steps: seq<Step>, c: ClientId, cfg: Config)
    requires Unheard(steps, c)
    ensures Passing(steps, c, cfg) == [] && Inputs(steps, c, cfg) == [] && Attached(steps, c, cfg) == {}
    ensures (Authenticated(steps, c, cfg) <==> cfg.authToken == "") && !Enabled(steps, c, cfg)
  {
    if steps != [] {
      UnheardSaysNothing(steps[..|steps| - 1], c, cfg);
    }
  }

  /** A step that is no message of the client, and leaves its record and limiters alone. */
  lemma {:induction false} OtherFollows(s: State, t: State, steps: seq<Step>, x: Step, c: ClientId, cfg: Config)
    requires Follows(s, steps, c, cfg) && !From(x, c) && s.now <= t.now && s.clients.Keys <= s.used <= t.used
    requires c in t.clients ==> c in s.clients && t.clients[c] == s.clients[c]
    requires c in t.clients ==> RL.HistoryOf(t.messageTimes, c) == RL.HistoryOf(s.messageTimes, c)
                                && RL.HistoryOf(t.inputTimes, c) == RL.HistoryOf(s.inputTimes, c)
    requires c !in t.used ==> c !in t.messageTimes && c !in t.inputTimes
    ensures Follows(t, steps + [x], c, cfg)
  {
    AuthenticatedAppend(steps, x, c, cfg);
    EnabledAppend(steps, x, c, cfg);
    AttachedAppend(steps, x, c, cfg);
    PassingAppend(steps, x, c, cfg);
    InputsAppend(steps, x, c, cfg);
    if c in t.clients {
      GS.TracksLater(Passing(steps, c, cfg), RL.HistoryOf(s.messageTimes, c), s.now, t.now, cfg.maxMessagesPerMinute);
      GS.TracksLater(Inputs(steps, c, cfg), RL.HistoryOf(s.inputTimes, c), s.now, t.now, cfg.maxInputsPerMinute);
    }
  }

  lemma ConnectFollows(s: State, steps: seq<Step>, c: ClientId, cfg: Config)
    requires Follows(s, steps, c, cfg) && c !in s.used
    ensures Follows(Connect(s, c, cfg), steps + [ConnectStep(c)], c, cfg)
  {
    var all := steps + [ConnectStep(c)];
    assert Unheard(all, c);
    UnheardSaysNothing(all, c, cfg);
    assert GS.Tracks([], [], [], s.now, cfg.maxMessagesPerMinute);
    assert GS.Tracks([], [], [], s.now, cfg.maxInputsPerMinute);
  }

  /** What a message that passed does to the record of its client. */
  lemma HandleRecord(s: State, c: ClientId, m: Message, env: Env, cfg: Config)
    requires c in s.clients
    ensures var t := Handle(s, c, m, env, cfg).0; var was := s.clients[c];
            && c in t.clients
            && (t.clients[c].authenticated <==>
                was.authenticated || (m.Auth? && (cfg.authToken == "" || m.token == cfg.authToken)))
            && (t.clients[c].inputEnabled <==>
                if was.authenticated && m.EnableInput? then !cfg.globalInputDisabled
                else was.inputEnabled && !(was.authenticated && (m.DisableInput? || m.Disconnect?)))
  {
    if m.Input? && s.clients[c].authenticated {
      InputOwners(s, c, m.paneId, m.data, m.override, env, cfg);
    }
  }

  lemma InputLimiters(s: State, c: ClientId, paneId: Option<PaneId>, data: string, override: bool, env: Env,
                      cfg: Config)
    requires c in s.clients && s.now <= env.inputNow <= env.sweepNow <= env.setNow
    ensures var t := HandleInput(s, c, paneId, data, override, env, cfg).0;
            && env.inputNow <= t.now && t.messageTimes == s.messageTimes
            && RL.HistoryOf(t.inputTimes, c) == RL.Consume(RL.HistoryOf(s.inputTimes, c), env.inputNow,
                                                           cfg.maxInputsPerMinute, RATE_WINDOW_MS).0
  {
  }

  /** And to the limiters and the clock. */
  lemma HandleLimiters(s: State, c: ClientId, m: Message, env: Env, cfg: Config)
    requires c in s.clients && s.now <= env.inputNow <= env.sweepNow <= env.setNow
    ensures var t := Handle(s, c, m, env, cfg).0; var calls := m.Input? && s.clients[c].authenticated;
            && s.now <= t.now && t.messageTimes == s.messageTimes && (calls ==> t.now >= env.inputNow)
            && RL.HistoryOf(t.inputTimes, c) ==
               (if calls then RL.Consume(RL.HistoryOf(s.inputTimes, c), env.inputNow, cfg.maxInputsPerMinute,
                                         RATE_WINDOW_MS).0
                else RL.HistoryOf(s.inputTimes, c))
  {
    if m.Input? {
      InputLimiters(s, c, m.paneId, m.data, m.override, env, cfg);
    }
  }

  lemma HandleAttached(s: State, c: ClientId, m: Message, env: Env, cfg: Config)
    requires c in s.clients
    ensures var t := Handle(s, c, m, env, cfg).0; var before := s.clients[c].attachedPanes;
            && c in t.clients
            && t.clients[c].attachedPanes ==
               if s.clients[c].authenticated then AttachedAfter(before, m, cfg) else before
  {
    if m.Attach? && m.paneId.Some? && m.paneId.value in s.clients[c].attachedPanes {
      assert s.clients[c].attachedPanes + {m.paneId.value} == s.clients[c].attachedPanes;
    }
    if m.Input? {
      InputOwners(s, c, m.paneId, m.data, m.override, env, cfg);
    }
  }

  /** The state in which a message that passed the message limiter is handled. */
  function Counted(s: State, c: ClientId, env: Env, cfg: Config): State {
    var (history, d) := RL.Consume(RL.HistoryOf(s.messageTimes, c), env.messageNow, cfg.maxMessagesPerMinute,
                                   RATE_WINDOW_MS);
    s.(messageTimes := s.messageTimes[c := history], now := env.messageNow)
  }

  predicate Allows(s: State, c: ClientId, env: Env, cfg: Config) {
    RL.Consume(RL.HistoryOf(s.messageTimes, c), env.messageNow, cfg.maxMessagesPerMinute, RATE_WINDOW_MS).1.allowed
  }

  function Hint(s: State, c: ClientId, env: Env, cfg: Config): int {
    RL.Consume(RL.HistoryOf(s.messageTimes, c), env.messageNow, cfg.maxMessagesPerMinute, RATE_WINDOW_MS).1.retryAfterMs
  }

  /** A message is refused, malformed, or handled. */
  lemma MessageAnswer(s: State, c: ClientId, m: Message, env: Env, cfg: Config)
    requires c in s.clients
    ensures var u, allowed := Counted(s, c, env, cfg), Allows(s, c, env, cfg);
            && (!allowed ==> Receive(s, c, m, env, cfg) == (u, RateLimited(Hint(s, c, env, cfg))))
            && (allowed && m.Malformed? ==> Receive(s, c, m, env, cfg) == (u, ParseError))
            && (allowed && !m.Malformed? ==> Receive(s, c, m, env, cfg) == Handle(u, c, m, env, cfg))
  {
  }

  /** The message limiter decides as the times of the messages that passed say. */
  lemma MessageCounted(s: State, steps: seq<Step>, c: ClientId, m: Message, env: Env, cfg: Config)
    requires c in s.clients && LimitersFollow(s, steps, c, cfg) && s.now <= env.messageNow
    ensures Allows(s, c, env, cfg) <==> Few(Passing(steps, c, cfg), env.messageNow, cfg.maxMessagesPerMinute)
    ensures LimitersFollow(Counted(s, c, env, cfg), steps + [ReceiveStep(c, Malformed, env)], c, cfg)
  {
    var x := ReceiveStep(c, Malformed, env);
    LimiterStep(Passing(steps, c, cfg), RL.HistoryOf(s.messageTimes, c), s.now, env.messageNow,
                cfg.maxMessagesPerMinute);
    PassingAppend(steps, x, c, cfg);
    InputsAppend(steps, x, c, cfg);
    assert Passing(steps, c, cfg) + [] == Passing(steps, c, cfg) && Inputs(steps, c, cfg) + [] == Inputs(steps, c, cfg);
    GS.TracksLater(Inputs(steps, c, cfg), RL.HistoryOf(s.inputTimes, c), s.now, env.messageNow, cfg.maxInputsPerMinute);
  }

  lemma LimiterAnswer(times: seq<int>, history: seq<int>, last: int, now: int, most: int)
    requires GS.LimiterTracks(times, history, last, most) && last <= now
    ensures var d := RL.Consume(history, now, most, RATE_WINDOW_MS).1;
            && (d.allowed <==> Few(times, now, most))
            && (!d.allowed ==> d.retryAfterMs == RetryAfter(times, now))
  {
    GS.ConsumeAllows(times, history, last, now, most);
  }

  lemma LimiterGrows(times: seq<int>, history: seq<int>, last: int, now: int, most: int, grown: seq<int>)
    requires GS.LimiterTracks(times, history, last, most) && last <= now
    requires grown == if RL.Consume(history, now, most, RATE_WINDOW_MS).1.allowed then times + [now] else times
    ensures GS.LimiterTracks(grown, RL.Consume(history, now, most, RATE_WINDOW_MS).0, now, most)
  {
    GS.ConsumeTracks(times, history, last, now, most);
  }

  /** One call of a limiter: what it answers, and the times it has let pass then. */
  lemma LimiterStep(times: seq<int>, history: seq<int>, last: int, now: int, most: int)
    requires GS.LimiterTracks(times, history, last, most) && last <= now
    ensures RL.Consume(history, now, most, RATE_WINDOW_MS).1.allowed <==> Few(times, now, most)
    ensures !Few(times, now, most) ==>
              RL.Consume(history, now, most, RATE_WINDOW_MS).1.retryAfterMs == RetryAfter(times, now)
    ensures GS.LimiterTracks(if Few(times, now, most) then times + [now] else times,
                             RL.Consume(history, now, most, RATE_WINDOW_MS).0, now, most)
  {
    LimiterAnswer(times, history, last, now, most);
    LimiterGrows(times, history, last, now, most, if Few(times, now, most) then times + [now] else times);
  }

  lemma AllowsFew(s: State, steps: seq<Step>, c: ClientId, env: Env, cfg: Config)
    requires c in s.clients && LimitersFollow(s, steps, c, cfg) && s.now <= env.messageNow
    ensures Allows(s, c, env, cfg) <==> Few(Passing(steps, c, cfg), env.messageNow, cfg.maxMessagesPerMinute)
    ensures !Allows(s, c, env, cfg) ==> Hint(s, c, env, cfg) == RetryAfter(Passing(steps, c, cfg), env.messageNow)
  {
    LimiterStep(Passing(steps, c, cfg), RL.HistoryOf(s.messageTimes, c), s.now, env.messageNow,
                cfg.maxMessagesPerMinute);
  }

  /** What a message says about its client. */
  lemma {:induction false} MessageSays(steps: seq<Step>, c: ClientId, m: Message, env: Env, cfg: Config)
    ensures var x := ReceiveStep(c, m, env); var all := steps + [x];
            var few := Few(Passing(steps, c, cfg), env.messageNow, cfg.maxMessagesPerMinute);
            var authenticated := Authenticated(steps, c, cfg);
            && (Authenticated(all, c, cfg) <==> authenticated || (few && m == Auth(cfg.authToken)))
            && (Enabled(all, c, cfg) <==>
                if few && authenticated && m.EnableInput? then true
                else Enabled(steps, c, cfg) && !(few && authenticated && (m.DisableInput? || m.Disconnect?)))
            && Attached(all, c, cfg) ==
               (if few && authenticated then AttachedAfter(Attached(steps, c, cfg), m, cfg)
                else Attached(steps, c, cfg))
  {
    var x := ReceiveStep(c, m, env);
    TakenLast(steps, x, cfg);
    PassesLast(steps, x, cfg);
    AuthenticatedAppend(steps, x, c, cfg);
    EnabledAppend(steps, x, c, cfg);
    AttachedAppend(steps, x, c, cfg);
  }

  lemma MessageRecord(s: State, steps: seq<Step>, c: ClientId, m: Message, env: Env, cfg: Config)
    requires c in s.clients && RecordFollows(s, steps, c, cfg) && LimitersFollow(s, steps, c, cfg)
    requires Possible(s, ReceiveStep(c, m, env))
    ensures var t := Receive(s, c, m, env, cfg).0;
            c in t.clients && RecordFollows(t, steps + [ReceiveStep(c, m, env)], c, cfg)
  {
    var u := Counted(s, c, env, cfg);
    MessageAnswer(s, c, m, env, cfg);
    AllowsFew(s, steps, c, env, cfg);
    MessageSays(steps, c, m, env, cfg);
    HandleRecord(u, c, m, env, cfg);
    HandleAttached(u, c, m, env, cfg);
  }

  /** The input limiter's call, if the message gets that far. */
  lemma InputCounted(u: State, t: State, inputs: seq<int>, c: ClientId, env: Env, calls: bool, cfg: Config)
    requires GS.LimiterTracks(inputs, RL.HistoryOf(u.inputTimes, c), u.now, cfg.maxInputsPerMinute)
    requires u.now <= env.inputNow && u.now <= t.now && (calls ==> env.inputNow <= t.now)
    requires RL.HistoryOf(t.inputTimes, c) ==
             if calls then RL.Consume(RL.HistoryOf(u.inputTimes, c), env.inputNow, cfg.maxInputsPerMinute,
                                      RATE_WINDOW_MS).0
             else RL.HistoryOf(u.inputTimes, c)
    ensures var after := if calls && Few(inputs, env.inputNow, cfg.maxInputsPerMinute) then inputs + [env.inputNow]
                         else inputs;
            GS.LimiterTracks(after, RL.HistoryOf(t.inputTimes, c), t.now, cfg.maxInputsPerMinute)
  {
    var history := RL.HistoryOf(u.inputTimes, c);
    if calls {
      LimiterStep(inputs, history, u.now, env.inputNow, cfg.maxInputsPerMinute);
      GS.TracksLater(if Few(inputs, env.inputNow, cfg.maxInputsPerMinute) then inputs + [env.inputNow] else inputs,
                     RL.HistoryOf(t.inputTimes, c), env.inputNow, t.now, cfg.maxInputsPerMinute);
    } else {
      GS.TracksLater(inputs, history, u.now, t.now, cfg.maxInputsPerMinute);
    }
  }

  /** Whether a message passes does not depend on what it says, and only an input counts as one. */
  lemma SameLimiters(steps: seq<Step>, c: ClientId, m: Message, env: Env, cfg: Config)
    ensures Passing(steps + [ReceiveStep(c, m, env)], c, cfg) == Passing(steps + [ReceiveStep(c, Malformed, env)], c,
                                                                         cfg)
    ensures Inputs(steps + [ReceiveStep(c, Malformed, env)], c, cfg) == Inputs(steps, c, cfg)
  {
    PassingAppend(steps, ReceiveStep(c, m, env), c, cfg);
    PassingAppend(steps, ReceiveStep(c, Malformed, env), c, cfg);
    InputsAppend(steps, ReceiveStep(c, Malformed, env), c, cfg);
    assert Inputs(steps, c, cfg) + [] == Inputs(steps, c, cfg);
  }

  lemma MessageLimiters(s: State, steps: seq<Step>, c: ClientId, m: Message, env: Env, cfg: Config)
    requires c in s.clients && Follows(s, steps, c, cfg) && Possible(s, ReceiveStep(c, m, env))
    ensures LimitersFollow(Receive(s, c, m, env, cfg).0, steps + [ReceiveStep(c, m, env)], c, cfg)
  {
    var x, u, t := ReceiveStep(c, m, env), Counted(s, c, env, cfg), Receive(s, c, m, env, cfg).0;
    var inputs := Inputs(steps, c, cfg);
    var calls := Allows(s, c, env, cfg) && m.Input? && u.clients[c].authenticated;
    MessageAnswer(s, c, m, env, cfg);
    MessageCounted(s, steps, c, m, env, cfg);
    TakenLast(steps, x, cfg);
    InputsAppend(steps, x, c, cfg);
    SameLimiters(steps, c, m, env, cfg);
    HandleLimiters(u, c, m, env, cfg);
    GS.TracksLater(Passing(steps + [x], c, cfg), RL.HistoryOf(u.messageTimes, c), u.now, t.now,
                   cfg.maxMessagesPerMinute);
    InputCounted(u, t, inputs, c, env, calls, cfg);
    assert inputs + [] == inputs;
  }

  /** A step of one client leaves the record and the limiters of every other alone. */
  lemma OthersUntouched(s: State, x: Step, c: ClientId, cfg: Config)
    requires Possible(s, x) && !From(x, c) && s.clients.Keys <= s.used && x != ConnectStep(c)
    ensures var t := Next(s, x, cfg);
            && s.now <= t.now && s.used <= t.used && t.clients.Keys <= t.used
            && (c in t.clients ==> c in s.clients && t.clients[c] == s.clients[c])
            && (c in t.clients ==> RL.HistoryOf(t.messageTimes, c) == RL.HistoryOf(s.messageTimes, c)
                                   && RL.HistoryOf(t.inputTimes, c) == RL.HistoryOf(s.inputTimes, c))
            && (c !in s.messageTimes ==> c !in t.messageTimes) && (c !in s.inputTimes ==> c !in t.inputTimes)
  {
    match x
    case ReceiveStep(y, m, env) => OthersMessage(s, y, m, env, c, cfg);
    case _ =>
  }

  lemma OthersHandled(u: State, y: ClientId, m: Message, env: Env, c: ClientId, cfg: Config)
    requires y in u.clients && y != c && u.now <= env.inputNow <= env.sweepNow <= env.setNow
    ensures var t := Handle(u, y, m, env, cfg).0;
            && u.now <= t.now && t.used == u.used && t.clients.Keys == u.clients.Keys
            && (c in u.clients ==> t.clients[c] == u.clients[c])
            && t.messageTimes == u.messageTimes && RL.HistoryOf(t.inputTimes, c) == RL.HistoryOf(u.inputTimes, c)
            && (c in t.inputTimes <==> c in u.inputTimes)
  {
    if m.Input? && u.clients[y].authenticated {
      OthersInput(u, y, m.paneId, m.data, m.override, env, c, cfg);
    }
  }

  lemma OthersMessage(s: State, y: ClientId, m: Message, env: Env, c: ClientId, cfg: Config)
    requires Possible(s, ReceiveStep(y, m, env)) && y != c
    ensures var t := Receive(s, y, m, env, cfg).0;
            && s.now <= t.now && t.used == s.used && t.clients.Keys == s.clients.Keys
            && (c in s.clients ==> t.clients[c] == s.clients[c])
            && RL.HistoryOf(t.messageTimes, c) == RL.HistoryOf(s.messageTimes, c)
            && RL.HistoryOf(t.inputTimes, c) == RL.HistoryOf(s.inputTimes, c)
            && (c in t.messageTimes <==> c in s.messageTimes) && (c in t.inputTimes <==> c in s.inputTimes)
  {
    MessageAnswer(s, y, m, env, cfg);
    OthersHandled(Counted(s, y, env, cfg), y, m, env, c, cfg);
  }

  lemma OthersInput(s: State, y: ClientId, paneId: Option<PaneId>, data: string, override: bool, env: Env, c: ClientId,
                    cfg: Config)
    requires y in s.clients && y != c && s.now <= env.inputNow <= env.sweepNow <= env.setNow
    ensures var t := HandleInput(s, y, paneId, data, override, env, cfg).0;
            && s.now <= t.now && t.used == s.used && t.clients == s.clients && t.messageTimes == s.messageTimes
            && RL.HistoryOf(t.inputTimes, c) == RL.HistoryOf(s.inputTimes, c)
            && (c in t.inputTimes <==> c in s.inputTimes)
  {
  }

  ghost predicate AllFollow(s: State, steps: seq<Step>, cfg: Config) {
    s.clients.Keys <= s.used && forall c :: Follows(s, steps, c, cfg)
  }

  lemma {:induction false} StepFollows(s: State, steps: seq<Step>, x: Step, c: ClientId, cfg: Config)
    requires AllFollow(s, steps, cfg) && Possible(s, x)
    ensures Follows(Next(s, x, cfg), steps + [x], c, cfg)
  {
    assert Follows(s, steps, c, cfg);
    if From(x, c) {
      MessageRecord(s, steps, c, x.message, x.env, cfg);
      MessageLimiters(s, steps, c, x.message, x.env, cfg);
      MessageUses(s, c, x.message, x.env, cfg);
    } else if x == ConnectStep(c) {
      ConnectFollows(s, steps, c, cfg);
    } else {
      OthersUntouched(s, x, c, cfg);
      OtherFollows(s, Next(s, x, cfg), steps, x, c, cfg);
    }
  }

  lemma MessageUses(s: State, c: ClientId, m: Message, env: Env, cfg: Config)
    requires c in s.clients
    ensures Receive(s, c, m, env, cfg).0.used == s.used
  {
    var u := Counted(s, c, env, cfg);
    if m.Input? {
      InputOwners(u, c, m.paneId, m.data, m.override, env, cfg);
    }
  }

  lemma StepUses(s: State, x: Step, cfg: Config)
    requires Possible(s, x) && s.clients.Keys <= s.used
    ensures Next(s, x, cfg).clients.Keys <= Next(s, x, cfg).used
  {
    match x
    case ReceiveStep(y, m, env) =>
      if m.Input? {
        InputOwners(Counted(s, y, env, cfg), y, m.paneId, m.data, m.override, env, cfg);
      }
    case _ =>
  }

  lemma {:induction false} RunFollows(start: int, steps: seq<Step>, cfg: Config)
    requires PossibleRun(Init(start), steps, cfg)
    ensures AllFollow(Run(Init(start), steps, cfg), steps, cfg)
    decreases |steps|
  {
    if steps != [] {
      var init, last := steps[..|steps| - 1], steps[|steps| - 1];
      assert steps == init + [last];
      RunAppend(Init(start), init, last, cfg);
      RunFollows(start, init, cfg);
      var s := Run(Init(start), init, cfg);
      StepUses(s, last, cfg);
      forall c
        ensures Follows(Next(s, last, cfg), steps, c, cfg)
      {
        StepFollows(s, init, last, c, cfg);
      }
    }
  }
}
