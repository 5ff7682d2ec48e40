/** The reconnect state machine of the iOS client and its capped exponential backoff. */
module Reconnect {
  import opened Common

  // ---- Backoff ----

  /** The policy's preconditions: a positive first delay, growth, a cap no lower than the first delay, a ratio. */
  datatype Policy = Policy(initialDelayMs: nat, multiplier: real, maxDelayMs: nat, jitterRatio: real)

  predicate ValidPolicy(p: Policy) {
    p.initialDelayMs > 0 && p.multiplier >= 1.0 && p.maxDelayMs >= p.initialDelayMs && 0.0 <= p.jitterRatio <= 1.0
  }

  function Pow(x: real, n: nat): real {
    if n == 0 then 1.0 else Pow(x, n - 1) * x
  }

  function MinReal(a: real, b: real): real { if a <= b then a else b }

  function MaxReal(a: real, b: real): real { if a <= b then b else a }

  /** To the nearest integer, halves away from zero; only used on what is not negative. */
  function Rounded(x: real): int {
    (x + 0.5).Floor
  }

  function BaseDelay(p: Policy, attempt: int): real {
    MinReal(p.maxDelayMs as real, p.initialDelayMs as real * Pow(p.multiplier, Max(attempt, 0)))
  }

  function LowerBound(p: Policy, base: real): real {
    MaxReal(0.0, base - base * p.jitterRatio)
  }

  function UpperBound(p: Policy, base: real): real {
    MinReal(p.maxDelayMs as real, base + base * p.jitterRatio)
  }

  function Clamped(randomUnit: real): (u: real)
    ensures 0.0 <= u <= 1.0
  {
    MinReal(MaxReal(randomUnit, 0.0), 1.0)
  }

  function Sampled(lower: real, span: real, u: real): real {
    lower + span * u
  }

  function DelayAround(p: Policy, base: real, randomUnit: real): int {
    Rounded(Sampled(LowerBound(p, base), UpperBound(p, base) - LowerBound(p, base), Clamped(randomUnit)))
  }

  function DelayMilliseconds(p: Policy, attempt: int, randomUnit: real): int {
    DelayAround(p, BaseDelay(p, attempt), randomUnit)
  }

  lemma MulMonotone(a: real, b: real, c: real)
    requires a <= b && c >= 0.0
    ensures a * c <= b * c
  {
  }

  lemma {:induction false} PowGrows(x: real, m: nat, n: nat)
    requires x >= 1.0 && m <= n
    ensures 1.0 <= Pow(x, m) <= Pow(x, n)
    decreases n
  {
    if n > 0 {
      if m == n {
        PowGrows(x, m - 1, n - 1);
        MulMonotone(1.0, x, Pow(x, n - 1));
      } else {
        PowGrows(x, m, n - 1);
        MulMonotone(1.0, x, Pow(x, n - 1));
      }
    }
  }

  lemma BaseGrows(p: Policy, attempt: int, later: int)
    requires ValidPolicy(p) && attempt <= later
    ensures 0.0 < BaseDelay(p, attempt) <= BaseDelay(p, later) <= p.maxDelayMs as real
  {
    PowGrows(p.multiplier, Max(attempt, 0), Max(later, 0));
    MulMonotone(1.0, Pow(p.multiplier, Max(attempt, 0)), p.initialDelayMs as real);
    MulMonotone(Pow(p.multiplier, Max(attempt, 0)), Pow(p.multiplier, Max(later, 0)), p.initialDelayMs as real);
  }

  lemma Distribute(a: real, b: real)
    ensures a * (1.0 - b) == a - a * b && a * (1.0 + b) == a + a * b
  {
  }

  lemma SumTimes(a: real, b: real, c: real)
    ensures (a + b) * c == a * c + b * c
  {
  }

  /** A fraction of an amount is at most the amount. */
  lemma Fraction(amount: real, ratio: real)
    requires 0.0 <= amount && 0.0 <= ratio <= 1.0
    ensures 0.0 <= amount * ratio <= amount
  {
    MulMonotone(0.0, amount, ratio);
    MulMonotone(ratio, 1.0, amount);
  }

  lemma FractionGrows(amount: real, more: real, ratio: real)
    requires 0.0 <= more && 0.0 <= ratio <= 1.0
    ensures amount * ratio <= (amount + more) * ratio <= amount * ratio + more
  {
    Fraction(more, ratio);
    SumTimes(amount, more, ratio);
  }

  lemma BandContains(p: Policy, base: real)
    requires ValidPolicy(p) && 0.0 <= base <= p.maxDelayMs as real
    ensures 0.0 <= LowerBound(p, base) <= base <= UpperBound(p, base) <= p.maxDelayMs as real
    ensures base * (1.0 - p.jitterRatio) <= LowerBound(p, base) && UpperBound(p, base) <= base * (1.0 + p.jitterRatio)
  {
    Fraction(base, p.jitterRatio);
    Distribute(base, p.jitterRatio);
  }

  lemma BandGrows(p: Policy, base: real, more: real)
    requires ValidPolicy(p) && 0.0 <= base && 0.0 <= more
    ensures LowerBound(p, base) <= LowerBound(p, base + more) && UpperBound(p, base) <= UpperBound(p, base + more)
  {
    FractionGrows(base, more, p.jitterRatio);
  }

  lemma SampledBetween(lower: real, span: real, u: real)
    requires 0.0 <= span && 0.0 <= u <= 1.0
    ensures lower <= Sampled(lower, span, u) <= lower + span
  {
    Fraction(span, u);
  }

  /** Raising both ends of an interval raises every point at a fixed fraction of it. */
  lemma SampledGrows(lower: real, span: real, up: real, widen: real, u: real)
    requires 0.0 <= up && 0.0 <= up + widen && 0.0 <= u <= 1.0
    ensures Sampled(lower, span, u) <= Sampled(lower + up, span + widen, u)
  {
    Fraction(up, u);
    Fraction(up + widen, u);
    SumTimes(span, widen, u);
    SumTimes(up, widen, u);
    Raised(span * u, widen * u, up * u, (span + widen) * u, (up + widen) * u, up);
  }

  lemma Raised(span: real, widen: real, up: real, wider: real, both: real, rise: real)
    requires wider == span + widen && both == up + widen && up <= rise && 0.0 <= both
    ensures span <= rise + wider
  {
  }

  lemma DelayAroundGrows(p: Policy, base: real, more: real, randomUnit: real)
    requires ValidPolicy(p) && 0.0 <= base && 0.0 <= more
    ensures DelayAround(p, base, randomUnit) <= DelayAround(p, base + more, randomUnit)
  {
    BandGrows(p, base, more);
    var lower, upper := LowerBound(p, base), UpperBound(p, base);
    var up, rise := LowerBound(p, base + more) - lower, UpperBound(p, base + more) - upper;
    SampledGrows(lower, upper - lower, up, rise - up, Clamped(randomUnit));
  }

  lemma DelayAroundInBand(p: Policy, base: real, randomUnit: real)
    requires ValidPolicy(p) && 0.0 <= base <= p.maxDelayMs as real
    ensures 0 <= DelayAround(p, base, randomUnit) <= p.maxDelayMs
    ensures Rounded(LowerBound(p, base)) <= DelayAround(p, base, randomUnit) <= Rounded(UpperBound(p, base))
  {
    BandContains(p, base);
    SampledBetween(LowerBound(p, base), UpperBound(p, base) - LowerBound(p, base), Clamped(randomUnit));
  }

  /** For a fixed random unit a later attempt never waits less. */
  lemma DelayGrows(p: Policy, attempt: int, later: int, randomUnit: real)
    requires ValidPolicy(p) && attempt <= later
    ensures DelayMilliseconds(p, attempt, randomUnit) <= DelayMilliseconds(p, later, randomUnit)
  {
    BaseGrows(p, attempt, later);
    DelayAroundGrows(p, BaseDelay(p, attempt), BaseDelay(p, later) - BaseDelay(p, attempt), randomUnit);
  }

  /**
   * A delay is not negative, never beyond the cap, and within the jitter band around the base
   * delay, both ends rounded.
   */
  lemma DelayInBand(p: Policy, attempt: int, randomUnit: real)
    requires ValidPolicy(p)
    ensures 0 <= DelayMilliseconds(p, attempt, randomUnit) <= p.maxDelayMs
    ensures var base := BaseDelay(p, attempt);
            && Rounded(LowerBound(p, base)) <= DelayMilliseconds(p, attempt, randomUnit) <= Rounded(UpperBound(p, base))
            && base * (1.0 - p.jitterRatio) <= LowerBound(p, base) <= UpperBound(p, base)
                <= base * (1.0 + p.jitterRatio)
  {
    BaseGrows(p, attempt, attempt);
    BandContains(p, BaseDelay(p, attempt));
    DelayAroundInBand(p, BaseDelay(p, attempt), randomUnit);
  }

  lemma Times3(a: real, b: real, c: real)
    ensures a * (b * c) == a * b * c
  {
  }

  lemma CappedStep(cap: real, grown: real, multiplier: real)
    requires 0.0 <= cap && multiplier >= 1.0
    ensures var base := MinReal(cap, grown);
            MinReal(cap, grown * multiplier) == if base * multiplier <= cap then base * multiplier else cap
  {
    if cap < grown {
      MulMonotone(1.0, multiplier, cap);
      MulMonotone(cap, grown, multiplier);
    }
  }

  /** The delay before an attempt as it would be without a cap. */
  function Uncapped(p: Policy, attempt: nat): real {
    p.initialDelayMs as real * Pow(p.multiplier, attempt)
  }

  lemma UncappedGrows(p: Policy, attempt: nat)
    ensures Uncapped(p, attempt + 1) == Uncapped(p, attempt) * p.multiplier
  {
    Times3(p.initialDelayMs as real, Pow(p.multiplier, attempt), p.multiplier);
  }

  lemma BaseIsCapped(p: Policy, attempt: nat)
    ensures BaseDelay(p, attempt) == MinReal(p.maxDelayMs as real, Uncapped(p, attempt))
  {
  }

  lemma BaseStarts(p: Policy, attempt: int)
    requires ValidPolicy(p) && attempt <= 0
    ensures BaseDelay(p, attempt) == p.initialDelayMs as real
  {
    assert Pow(p.multiplier, 0) == 1.0;
  }

  /**
   * The base delay starts at the initial delay, is multiplied for every further attempt, and
   * stays at the cap once it reaches it; attempts below zero count as zero.
   */
  lemma {:induction false} BaseIsCappedGrowth(p: Policy, attempt: int)
    requires ValidPolicy(p)
    ensures attempt <= 0 ==> BaseDelay(p, attempt) == p.initialDelayMs as real
    ensures attempt >= 0 ==>
              var grown, cap := BaseDelay(p, attempt) * p.multiplier, p.maxDelayMs as real;
              BaseDelay(p, attempt + 1) == if grown <= cap then grown else cap
  {
    if attempt <= 0 {
      BaseStarts(p, attempt);
    }
    if attempt >= 0 {
      BaseIsCapped(p, attempt);
      BaseIsCapped(p, attempt + 1);
      UncappedGrows(p, attempt);
      CappedStep(p.maxDelayMs as real, Uncapped(p, attempt), p.multiplier);
    }
  }

  /** To the nearest millisecond, halves up, the point at the random unit of the way from low to high. */
  ghost predicate RoundedPoint(low: real, high: real, randomUnit: real, delayMs: int) {
    var unit := if randomUnit < 0.0 then 0.0 else if randomUnit > 1.0 then 1.0 else randomUnit;
    var point := low + (high - low) * unit;
    point - 0.5 < delayMs as real <= point + 0.5
  }

  lemma SampledRounds(low: real, high: real, randomUnit: real)
    ensures RoundedPoint(low, high, randomUnit, Rounded(Sampled(low, high - low, Clamped(randomUnit))))
  {
    RoundedNear(Sampled(low, high - low, Clamped(randomUnit)));
  }

  lemma RoundedNear(x: real)
    ensures x - 0.5 < Rounded(x) as real <= x + 0.5
  {
  }

  lemma Ends(p: Policy, base: real, jitter: real)
    requires jitter == base * p.jitterRatio
    ensures LowerBound(p, base) == if jitter > base then 0.0 else base - jitter
    ensures UpperBound(p, base) == if base + jitter > p.maxDelayMs as real then p.maxDelayMs as real else base + jitter
  {
  }

  /**
   * A delay is the rounded point at the random unit of the way from the base delay minus its
   * jitter, not below zero, to the base delay plus its jitter, not above the cap.
   */
  lemma DelayIsRoundedPoint(p: Policy, attempt: int, jitter: real, randomUnit: real)
    requires jitter == BaseDelay(p, attempt) * p.jitterRatio
    ensures var base, cap := BaseDelay(p, attempt), p.maxDelayMs as real;
            RoundedPoint(if jitter > base then 0.0 else base - jitter,
                         if base + jitter > cap then cap else base + jitter,
                         randomUnit, DelayMilliseconds(p, attempt, randomUnit))
  {
    PointAround(p, BaseDelay(p, attempt), jitter, randomUnit);
  }

  lemma PointAround(p: Policy, base: real, jitter: real, randomUnit: real)
    requires jitter == base * p.jitterRatio
    ensures RoundedPoint(if jitter > base then 0.0 else base - jitter,
                         if base + jitter > p.maxDelayMs as real then p.maxDelayMs as real else base + jitter,
                         randomUnit, DelayAround(p, base, randomUnit))
  {
    Ends(p, base, jitter);
    SampledRounds(LowerBound(p, base), UpperBound(p, base), randomUnit);
  }

  // ---- The machine ----

  /** The delay before an attempt, counted from zero, for a random unit. */
  type Delay = (int, real) -> int

  datatype Phase = Idle | Connected | Waiting(attempt: nat, delayMs: int) | Reconnecting(attempt: nat) | Stopped

  datatype State = State(streamID: string, nextStreamSeq: nat, lastSeq: nat, phase: Phase)

  /** randomUnit is what the random source would answer. */
  datatype Trigger =
    | TransportConnected
    | Disconnected(randomUnit: real)
    | TimerFired
    | ReconnectFailed(randomUnit: real)
    | CursorUpdated(nextStreamSeq: nat, lastSeq: nat)
    | Stop

  datatype ResumeRequest = ResumeRequest(streamID: string, streamSeq: nat, lastSeq: nat)

  datatype Hook = Scheduled(attempt: nat, delayMs: int) | Resume(request: ResumeRequest)

  function Start(streamID: string, nextStreamSeq: nat, lastSeq: nat): State {
    State(streamID, Max(nextStreamSeq, 1), lastSeq, Idle)
  }

  function Schedule(delay: Delay, s: State, attempt: nat, randomUnit: real): (State, seq<Hook>) {
    var delayMs := delay(Max(attempt - 1, 0), randomUnit);
    (s.(phase := Waiting(attempt, delayMs)), [Scheduled(attempt, delayMs)])
  }

  function Transition(delay: Delay, s: State, trigger: Trigger): (State, seq<Hook>) {
    match trigger
    case CursorUpdated(nextStreamSeq, lastSeq) => (s.(nextStreamSeq := Max(nextStreamSeq, 1), lastSeq := lastSeq), [])
    case TransportConnected => (s.(phase := Connected), [])
    case Disconnected(randomUnit) =>
      if s.phase.Stopped? || s.phase.Waiting? || s.phase.Reconnecting? then (s, [])
          else Schedule(delay, s, 1, randomUnit)
    case TimerFired =>
      if !s.phase.Waiting? then (s, [])
      else (s.(phase := Reconnecting(s.phase.attempt)), [Resume(ResumeRequest(s.streamID, s.nextStreamSeq, s.lastSeq))])
    case ReconnectFailed(randomUnit) =>
      if !s.phase.Reconnecting? then (s, []) else Schedule(delay, s, s.phase.attempt + 1, randomUnit)
    case Stop => (s.(phase := Stopped), [])
  }

  function Run(delay: Delay, start: State, triggers: seq<Trigger>): State {
    if triggers == [] then start
    else Transition(delay, Run(delay, start, triggers[..|triggers| - 1]), triggers[|triggers| - 1]).0
  }

  function Emitted(delay: Delay, start: State, triggers: seq<Trigger>): seq<Hook> {
    if triggers == [] then []
    else Transition(delay, Run(delay, start, triggers[..|triggers| - 1]), triggers[|triggers| - 1]).1
  }

  /** All hooks of a run. */
  function Hooks(delay: Delay, start: State, triggers: seq<Trigger>): seq<Hook> {
    if triggers == [] then [] else Hooks(delay, start, triggers[..|triggers| - 1]) + Emitted(delay, start, triggers)
  }

  /** The hooks since the last connected trigger, or since the start. */
  function HooksSinceConnected(delay: Delay, start: State, triggers: seq<Trigger>): seq<Hook> {
    if triggers == [] then []
    else if triggers[|triggers| - 1].TransportConnected? then []
    else HooksSinceConnected(delay, start, triggers[..|triggers| - 1]) + Emitted(delay, start, triggers)
  }

  /** The cursor announced last. */
  function LatestCursor(start: State, triggers: seq<Trigger>): (nat, nat) {
    if triggers == [] then (start.nextStreamSeq, start.lastSeq)
    else
      match triggers[|triggers| - 1]
      case CursorUpdated(nextStreamSeq, lastSeq) => (Max(nextStreamSeq, 1), lastSeq)
      case _ => LatestCursor(start, triggers[..|triggers| - 1])
  }

  /** scheduled(1), resume, scheduled(2), resume, and so on, each delay one the policy allows for that attempt. */
  ghost predicate Alternating(delay: Delay, hooks: seq<Hook>) {
    hooks == []
    || (Alternating(delay, hooks[..|hooks| - 1]) && HookFits(delay, hooks[|hooks| - 1], |hooks|))
  }

  ghost predicate HookFits(delay: Delay, hook: Hook, position: nat) {
    if position % 2 == 1 then hook.Scheduled? && hook.attempt == (position + 1) / 2
        && IsDelay(delay, hook.attempt - 1, hook.delayMs)
    else hook.Resume?
  }

  ghost predicate IsDelay(delay: Delay, attempt: int, delayMs: int) {
    exists unit :: delayMs == delay(attempt, unit)
  }

  /** How many hooks there have been since the machine was last connected. */
  ghost predicate PhaseFits(phase: Phase, hooks: nat) {
    match phase
    case Idle => hooks == 0
    case Connected => hooks == 0
    case Waiting(attempt, _) => attempt >= 1 && hooks == 2 * attempt - 1
    case Reconnecting(attempt) => attempt >= 1 && hooks == 2 * attempt
    case Stopped => true
  }

  lemma {:induction false} TransitionAlternates(delay: Delay, s: State, trigger: Trigger, hooks: seq<Hook>)
    requires Alternating(delay, hooks) && PhaseFits(s.phase, |hooks|) && !trigger.TransportConnected?
    ensures var (t, emitted) := Transition(delay, s, trigger);
            Alternating(delay, hooks + emitted) && PhaseFits(t.phase, |hooks + emitted|)
  {
    var (t, emitted) := Transition(delay, s, trigger);
    if emitted == [] {
      assert hooks + emitted == hooks;
    } else {
      assert (hooks + emitted)[..|hooks|] == hooks;
      if emitted[0].Scheduled? {
        assert IsDelay(delay, emitted[0].attempt - 1, emitted[0].delayMs);
      }
    }
  }

  /** Between connected triggers, timers and resumes strictly alternate and the attempts count up from one. */
  lemma {:induction false} HooksAlternate(delay: Delay, start: State, triggers: seq<Trigger>)
    requires start.phase.Idle?
    ensures Alternating(delay, HooksSinceConnected(delay, start, triggers))
    ensures PhaseFits(Run(delay, start, triggers).phase, |HooksSinceConnected(delay, start, triggers)|)
  {
    if triggers != [] {
      var init, last := triggers[..|triggers| - 1], triggers[|triggers| - 1];
      HooksAlternate(delay, start, init);
      if !last.TransportConnected? {
        TransitionAlternates(delay, Run(delay, start, init), last, HooksSinceConnected(delay, start, init));
      }
    }
  }

  lemma {:induction false} CursorIsLatest(delay: Delay, start: State, triggers: seq<Trigger>)
    ensures var s := Run(delay, start, triggers);
            (s.nextStreamSeq, s.lastSeq) == LatestCursor(start, triggers) && s.streamID == start.streamID
  {
    if triggers != [] {
      CursorIsLatest(delay, start, triggers[..|triggers| - 1]);
    }
  }

  /** A trigger emits at most one hook, and a resume carries the cursor announced last before it. */
  lemma {:induction false} ResumeCarriesLatestCursor(delay: Delay, start: State, triggers: seq<Trigger>)
    ensures var emitted := Emitted(delay, start, triggers);
            && |emitted| <= 1
            && forall hook :: hook in emitted && hook.Resume? ==>
                 hook.request == ResumeRequest(start.streamID, LatestCursor(start, triggers).0,
                                               LatestCursor(start, triggers).1)
  {
    if triggers != [] {
      CursorIsLatest(delay, start, triggers[..|triggers| - 1]);
    }
  }

  lemma {:induction false} CursorStaysPositive(delay: Delay, start: State, triggers: seq<Trigger>)
    requires start.nextStreamSeq >= 1
    ensures LatestCursor(start, triggers).0 >= 1
  {
    if triggers != [] {
      CursorStaysPositive(delay, start, triggers[..|triggers| - 1]);
    }
  }

  /** Whatever cursor a machine is started with, no resume ever asks for a stream position below one. */
  lemma {:induction false} ResumesFromOne(delay: Delay, streamID: string, nextStreamSeq: nat, lastSeq: nat,
                                          triggers: seq<Trigger>)
    ensures var start := Start(streamID, nextStreamSeq, lastSeq);
            && start.nextStreamSeq == (if nextStreamSeq == 0 then 1 else nextStreamSeq)
            && start.lastSeq == lastSeq && start.streamID == streamID && start.phase.Idle?
            && forall hook :: hook in Emitted(delay, start, triggers) && hook.Resume? ==> hook.request.streamSeq >= 1
  {
    var start := Start(streamID, nextStreamSeq, lastSeq);
    ResumeCarriesLatestCursor(delay, start, triggers);
    CursorStaysPositive(delay, start, triggers);
  }

  /** After a stop the machine is awake once the transport connected again, until the next stop. */
  predicate Awake(triggers: seq<Trigger>) {
    triggers != []
    && match triggers[|triggers| - 1]
       case TransportConnected => true
       case Stop => false
       case _ => Awake(triggers[..|triggers| - 1])
  }

  /** The transport is never lost while the machine is awake. */
  predicate NeverLost(triggers: seq<Trigger>) {
    triggers == []
    || (NeverLost(triggers[..|triggers| - 1])
        && !(triggers[|triggers| - 1].Disconnected? && Awake(triggers[..|triggers| - 1])))
  }

  /**
   * After a stop, in whatever state, the machine emits nothing if and only if no connected
   * trigger is followed by a disconnected one before the next stop. In particular it is
   * silent until a connected trigger; but that trigger does end the stopped phase.
   */
  lemma {:induction false} SilentAfterStopIff(delay: Delay, s: State, triggers: seq<Trigger>)
    ensures var stopped := Transition(delay, s, Stop).0;
            && (Hooks(delay, stopped, triggers) == [] <==> NeverLost(triggers))
            && (NeverLost(triggers) ==>
                  Run(delay, stopped, triggers).phase == if Awake(triggers) then Connected else Stopped)
  {
    if triggers != [] {
      SilentAfterStopIff(delay, s, triggers[..|triggers| - 1]);
    }
  }

  // ---- Exactly when hooks are emitted ----

  /** No stop since the machine was last connected, or since the start. */
  predicate Running(triggers: seq<Trigger>) {
    triggers == []
    || match triggers[|triggers| - 1]
       case TransportConnected => true
       case Stop => false
       case _ => Running(triggers[..|triggers| - 1])
  }

  ghost predicate Settled(phase: Phase, running: bool, hooks: nat) {
    if !running then phase.Stopped?
    else if hooks == 0 then phase.Idle? || phase.Connected?
    else if hooks % 2 == 1 then phase.Waiting? else phase.Reconnecting?
  }

  lemma {:induction false} PhaseFollows(delay: Delay, start: State, triggers: seq<Trigger>)
    requires start.phase.Idle?
    ensures Settled(Run(delay, start, triggers).phase, Running(triggers),
                    |HooksSinceConnected(delay, start, triggers)|)
  {
    if triggers != [] {
      PhaseFollows(delay, start, triggers[..|triggers| - 1]);
    }
  }

  /**
   * Exactly when a trigger emits a hook. Unless stopped, a lost transport schedules the first
   * attempt if nothing was emitted since the machine was connected, a fired timer resumes if a
   * timer was scheduled last, and a failed attempt schedules the next one if a resume was
   * emitted last; the delay is the policy's for that attempt and the trigger's random unit.
   */
  lemma {:induction false} EmitsIff(delay: Delay, start: State, triggers: seq<Trigger>, trigger: Trigger)
    requires start.phase.Idle?
    ensures EmitsRightly(delay, |HooksSinceConnected(delay, start, triggers)|, Running(triggers), trigger,
                         Emitted(delay, start, triggers + [trigger]))
  {
    assert (triggers + [trigger])[..|triggers|] == triggers;
    PhaseFollows(delay, start, triggers);
    HooksAlternate(delay, start, triggers);
    TransitionEmits(delay, Run(delay, start, triggers), |HooksSinceConnected(delay, start, triggers)|,
                    Running(triggers), trigger);
  }

  /** n hooks were emitted since the machine was last connected. */
  ghost predicate EmitsRightly(delay: Delay, n: nat, running: bool, trigger: Trigger, emitted: seq<Hook>) {
    match trigger
    case Disconnected(unit) => emitted == if running && n == 0 then [Scheduled(1, delay(0, unit))] else []
    case ReconnectFailed(unit) =>
      emitted == if running && n > 0 && n % 2 == 0 then [Scheduled(n / 2 + 1, delay(n / 2, unit))] else []
    case TimerFired => if running && n % 2 == 1 then |emitted| == 1 && emitted[0].Resume? else emitted == []
    case _ => emitted == []
  }

  lemma TransitionEmits(delay: Delay, s: State, n: nat, running: bool, trigger: Trigger)
    requires Settled(s.phase, running, n) && PhaseFits(s.phase, n)
    ensures EmitsRightly(delay, n, running, trigger, Transition(delay, s, trigger).1)
  {
  }

  /** Every timer the machine asks for under a valid policy fits the policy's cap. */
  lemma ScheduledDelaysFit(p: Policy, s: State, trigger: Trigger, hook: Hook)
    requires ValidPolicy(p)
    requires hook in Transition((attempt, unit) => DelayMilliseconds(p, attempt, unit), s, trigger).1 && hook.Scheduled?
    ensures 0 <= hook.delayMs <= p.maxDelayMs
  {
    if trigger.Disconnected? || trigger.ReconnectFailed? {
      DelayInBand(p, Max(hook.attempt - 1, 0), trigger.randomUnit);
    }
  }
}
