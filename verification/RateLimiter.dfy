/**
 * The sliding-window limiter: per key, the times of the allowed calls that can
 * still matter. The specification keeps every allowed call since the last clear.
 */
module RateLimiter {
  import opened Common

  datatype Decision = Decision(allowed: bool, limit: int, windowMs: nat, retryAfterMs: int, remaining: int)

  function Trim(history: seq<int>, minTs: int): seq<int> {
    if history != [] && history[0] < minTs then Trim(history[1..], minTs) else history
  }

  /** One call for a key whose array is history. */
  function Consume(history: seq<int>, now: int, maxEvents: int, windowMs: nat): (seq<int>, Decision) {
    var kept := Trim(history, now - windowMs);
    if |kept| >= maxEvents then
      var oldest := if kept == [] then now else kept[0];
      (kept, Decision(false, maxEvents, windowMs, Max(0, oldest + windowMs - now), 0))
    else
      (kept + [now], Decision(true, maxEvents, windowMs, 0, Max(0, maxEvents - |kept| - 1)))
  }

  function HistoryOf(timestamps: map<string, seq<int>>, key: string): seq<int> {
    if key in timestamps then timestamps[key] else []
  }

  class SlidingWindowRateLimiter {
    const maxEvents: int
    const windowMs: nat
    var timestamps: map<string, seq<int>>

    constructor (maxEvents: int, windowMs: nat)
      ensures this.maxEvents == maxEvents && this.windowMs == windowMs && timestamps == map[]
    {
      this.maxEvents, this.windowMs, timestamps := maxEvents, windowMs, map[];
    }

    method ConsumeOne(key: string, now: int) returns (decision: Decision)
      modifies this
      ensures var (history, d) := Consume(HistoryOf(old(timestamps), key), now, maxEvents, windowMs);
              decision == d && timestamps == old(timestamps)[key := history]
    {
      var minTs := now - windowMs;
      var history := HistoryOf(timestamps, key);
      while |history| > 0 && history[0] < minTs
        invariant Trim(history, minTs) == Trim(HistoryOf(timestamps, key), minTs)
      {
        history := history[1..];
      }
      if |history| >= maxEvents {
        timestamps := timestamps[key := history];
        var oldest := if |history| > 0 then history[0] else now;
        return Decision(false, maxEvents, windowMs, Max(0, oldest + windowMs - now), 0);
      }
      history := history + [now];
      timestamps := timestamps[key := history];
      return Decision(true, maxEvents, windowMs, 0, Max(0, maxEvents - |history|));
    }

    method Clear(key: string)
      modifies this
      ensures timestamps == old(timestamps) - {key}
    {
      timestamps := timestamps - {key};
    }
  }

  // ---- Runs on one key ----

  datatype Call = ConsumeAt(now: int) | ClearKey

  /**
   * history is the limiter's array; gone are the allowed calls since the last clear
   * that were shifted out of it; last is the latest clock read.
   */
  datatype KeyState = KeyState(gone: seq<int>, history: seq<int>, last: int)

  /** Every call allowed since the last clear, in order. */
  function Log(s: KeyState): seq<int> { s.gone + s.history }

  function Start(since: int): KeyState { KeyState([], [], since) }

  function Step(s: KeyState, call: Call, maxEvents: int, windowMs: nat): KeyState {
    match call
    case ClearKey => KeyState([], [], s.last)
    case ConsumeAt(now) =>
      KeyState(s.gone + Shifted(s.history, now - windowMs), Consume(s.history, now, maxEvents, windowMs).0, now)
  }

  /** The calls that trimming takes off the front. */
  function Shifted(history: seq<int>, minTs: int): seq<int> {
    if history != [] && history[0] < minTs then [history[0]] + Shifted(history[1..], minTs) else []
  }

  function RunCalls(s: KeyState, calls: seq<Call>, maxEvents: int, windowMs: nat): KeyState
    decreases |calls|
  {
    if calls == [] then s else RunCalls(Step(s, calls[0], maxEvents, windowMs), calls[1..], maxEvents, windowMs)
  }

  /** The clock never goes back. */
  predicate Ordered(calls: seq<Call>, since: int)
    decreases |calls|
  {
    calls == [] ||
    match calls[0]
    case ClearKey => Ordered(calls[1..], since)
    case ConsumeAt(now) => since <= now && Ordered(calls[1..], now)
  }

  /** The calls in a closed interval of time. */
  function Within(log: seq<int>, from: int, to: int): seq<int> {
    if log == [] then []
    else (if from <= log[0] <= to then [log[0]] else []) + Within(log[1..], from, to)
  }

  predicate AtMost(s: seq<int>, t: int) {
    s == [] || (s[0] <= t && AtMost(s[1..], t))
  }

  predicate AtLeast(s: seq<int>, t: int) {
    s == [] || (s[0] >= t && AtLeast(s[1..], t))
  }

  predicate Sorted(s: seq<int>) {
    |s| <= 1 || (s[0] <= s[1] && Sorted(s[1..]))
  }

  /** Each call, when it was allowed, found fewer than maxEvents calls in the window that ends with it. */
  predicate Spaced(log: seq<int>, maxEvents: int, windowMs: nat) {
    log == [] ||
    (var init, now := log[..|log| - 1], log[|log| - 1];
     |Within(init, now - windowMs, now)| < maxEvents && Spaced(init, maxEvents, windowMs))
  }

  /** No call is earlier than one before it, read from the newest call back. */
  ghost predicate Rising(log: seq<int>) {
    log == [] ||
    (var init, last := log[..|log| - 1], log[|log| - 1];
     AtMost(init, last) && Rising(init))
  }

  ghost predicate ArrayInv(s: KeyState, maxEvents: int, windowMs: nat) {
    && Sorted(s.history) && AtMost(s.history, s.last) && AtMost(s.gone, s.last - windowMs - 1)
    && |s.history| <= Max(0, maxEvents)
  }

  ghost predicate Inv(s: KeyState, maxEvents: int, windowMs: nat) {
    && ArrayInv(s, maxEvents, windowMs)
    && Rising(Log(s)) && Spaced(Log(s), maxEvents, windowMs)
  }

  // ---- Sequences of times ----

  lemma {:induction false} SortedHead(s: seq<int>)
    requires Sorted(s) && s != []
    ensures AtLeast(s, s[0])
  {
    if |s| > 1 {
      SortedHead(s[1..]);
      AtLeastWeakens(s[1..], s[1], s[0]);
    }
  }

  lemma {:induction false} AtLeastWeakens(s: seq<int>, t: int, u: int)
    requires AtLeast(s, t) && u <= t
    ensures AtLeast(s, u)
  {
    if s != [] {
      AtLeastWeakens(s[1..], t, u);
    }
  }

  lemma {:induction false} AtMostWeakens(s: seq<int>, t: int, u: int)
    requires AtMost(s, t) && t <= u
    ensures AtMost(s, u)
  {
    if s != [] {
      AtMostWeakens(s[1..], t, u);
    }
  }

  lemma {:induction false} AtMostConcat(a: seq<int>, b: seq<int>, t: int)
    ensures AtMost(a + b, t) <==> AtMost(a, t) && AtMost(b, t)
  {
    if a == [] {
      assert a + b == b;
    } else {
      assert (a + b)[1..] == a[1..] + b;
      AtMostConcat(a[1..], b, t);
    }
  }

  lemma {:induction false} SortedAppend(s: seq<int>, now: int)
    requires Sorted(s) && AtMost(s, now)
    ensures Sorted(s + [now])
  {
    if s != [] {
      SortedAppend(s[1..], now);
      assert (s + [now])[1..] == s[1..] + [now];
    }
  }

  lemma {:induction false} TrimSorted(history: seq<int>, minTs: int)
    requires Sorted(history)
    ensures var kept := Trim(history, minTs);
            Sorted(kept) && |kept| <= |history|
  {
    if history != [] && history[0] < minTs {
      TrimSorted(history[1..], minTs);
    }
  }

  lemma {:induction false} TrimShortens(history: seq<int>, minTs: int)
    ensures |Trim(history, minTs)| <= |history|
    ensures Trim(history, minTs) != [] ==> Trim(history, minTs)[0] >= minTs
    ensures history != [] && history[0] < minTs ==> |Trim(history, minTs)| < |history|
  {
    if history != [] && history[0] < minTs {
      TrimShortens(history[1..], minTs);
    }
  }

  lemma {:induction false} ShiftedTrim(history: seq<int>, minTs: int)
    ensures Shifted(history, minTs) + Trim(history, minTs) == history
    ensures AtMost(Shifted(history, minTs), minTs - 1)
  {
    if history != [] && history[0] < minTs {
      var rest := history[1..];
      ShiftedTrim(rest, minTs);
      assert [history[0]] + Shifted(rest, minTs) + Trim(rest, minTs) == [history[0]] + rest;
    }
  }

  lemma {:induction false} WithinConcat(a: seq<int>, b: seq<int>, from: int, to: int)
    ensures Within(a + b, from, to) == Within(a, from, to) + Within(b, from, to)
  {
    if a == [] {
      assert a + b == b;
    } else {
      assert (a + b)[1..] == a[1..] + b;
      WithinConcat(a[1..], b, from, to);
    }
  }

  lemma {:induction false} WithinAll(s: seq<int>, from: int, to: int)
    requires AtLeast(s, from) && AtMost(s, to)
    ensures Within(s, from, to) == s
  {
    if s != [] {
      WithinAll(s[1..], from, to);
    }
  }

  lemma {:induction false} WithinNone(s: seq<int>, from: int, to: int)
    requires AtMost(s, from - 1)
    ensures Within(s, from, to) == []
  {
    if s != [] {
      WithinNone(s[1..], from, to);
    }
  }

  /** On a sorted array trimming is the same as filtering. */
  lemma {:induction false} TrimIsWithin(history: seq<int>, from: int, to: int)
    requires Sorted(history) && AtMost(history, to)
    ensures Trim(history, from) == Within(history, from, to)
  {
    if history != [] {
      if history[0] < from {
        TrimIsWithin(history[1..], from, to);
      } else {
        SortedHead(history);
        AtLeastWeakens(history, history[0], from);
        WithinAll(history, from, to);
      }
    }
  }

  /** An interval that ends at or before the newest call holds no more calls than the window ending at that call. */
  lemma {:induction false} WithinMono(s: seq<int>, from: int, to: int, wideFrom: int, wideTo: int)
    requires wideFrom <= from && AtMost(s, wideTo)
    ensures |Within(s, from, to)| <= |Within(s, wideFrom, wideTo)|
  {
    if s != [] {
      WithinMono(s[1..], from, to, wideFrom, wideTo);
    }
  }

  // ---- The invariant ----

  /** At a later time the trimmed array is the part of the log inside the window. */
  lemma KeptIsRecent(s: KeyState, now: int, maxEvents: int, windowMs: nat)
    requires ArrayInv(s, maxEvents, windowMs) && s.last <= now
    ensures Trim(s.history, now - windowMs) == Within(Log(s), now - windowMs, now)
  {
    WithinConcat(s.gone, s.history, now - windowMs, now);
    assert Within(s.gone, now - windowMs, now) == [] by {
      AtMostWeakens(s.gone, s.last - windowMs - 1, now - windowMs - 1);
      WithinNone(s.gone, now - windowMs, now);
    }
    assert Trim(s.history, now - windowMs) == Within(s.history, now - windowMs, now) by {
      AtMostWeakens(s.history, s.last, now);
      TrimIsWithin(s.history, now - windowMs, now);
    }
  }

  /** Trimming moves calls from the array to the gone ones; an allowed call is appended to the log. */
  lemma LogAfter(s: KeyState, now: int, maxEvents: int, windowMs: nat)
    ensures var kept := Trim(s.history, now - windowMs);
            Log(Step(s, ConsumeAt(now), maxEvents, windowMs)) == if |kept| < maxEvents then Log(s) + [now] else Log(s)
  {
    var shifted, kept := Shifted(s.history, now - windowMs), Trim(s.history, now - windowMs);
    ShiftedTrim(s.history, now - windowMs);
    Regrouped(s.gone, shifted, kept, now);
  }

  lemma Regrouped(gone: seq<int>, shifted: seq<int>, kept: seq<int>, now: int)
    ensures gone + shifted + kept == gone + (shifted + kept)
    ensures gone + shifted + (kept + [now]) == gone + (shifted + kept) + [now]
  {
  }

  lemma ConsumeKeepsArray(s: KeyState, now: int, maxEvents: int, windowMs: nat)
    requires ArrayInv(s, maxEvents, windowMs) && s.last <= now
    ensures ArrayInv(Step(s, ConsumeAt(now), maxEvents, windowMs), maxEvents, windowMs)
  {
    KeptBounds(s.history, s.last, now, now - windowMs);
    GoneBounds(s.gone, s.history, s.last, now, windowMs);
    TrimShortens(s.history, now - windowMs);
  }

  lemma ConsumeKeepsInv(s: KeyState, now: int, maxEvents: int, windowMs: nat)
    requires Inv(s, maxEvents, windowMs) && s.last <= now
    ensures Inv(Step(s, ConsumeAt(now), maxEvents, windowMs), maxEvents, windowMs)
  {
    ConsumeKeepsArray(s, now, maxEvents, windowMs);
    LogAfter(s, now, maxEvents, windowMs);
    LogStaysSpaced(s, now, maxEvents, windowMs);
  }

  lemma LogBounded(s: KeyState, now: int, maxEvents: int, windowMs: nat)
    requires ArrayInv(s, maxEvents, windowMs) && s.last <= now
    ensures AtMost(Log(s), now)
  {
    AtMostWeakens(s.history, s.last, now);
    AtMostWeakens(s.gone, s.last - windowMs - 1, now);
    AtMostConcat(s.gone, s.history, now);
  }

  lemma LogStaysSpaced(s: KeyState, now: int, maxEvents: int, windowMs: nat)
    requires Inv(s, maxEvents, windowMs) && s.last <= now
    ensures |Trim(s.history, now - windowMs)| < maxEvents ==>
              Rising(Log(s) + [now]) && Spaced(Log(s) + [now], maxEvents, windowMs)
  {
    if |Trim(s.history, now - windowMs)| < maxEvents {
      KeptIsRecent(s, now, maxEvents, windowMs);
      LogBounded(s, now, maxEvents, windowMs);
      LogGrows(Log(s), now, maxEvents, windowMs);
    }
  }

  lemma LogGrows(log: seq<int>, now: int, maxEvents: int, windowMs: nat)
    requires Rising(log) && Spaced(log, maxEvents, windowMs) && AtMost(log, now)
    requires |Within(log, now - windowMs, now)| < maxEvents
    ensures Rising(log + [now]) && Spaced(log + [now], maxEvents, windowMs)
  {
    assert (log + [now])[..|log + [now]| - 1] == log;
  }

  lemma KeptBounds(history: seq<int>, last: int, now: int, minTs: int)
    requires Sorted(history) && AtMost(history, last) && last <= now
    ensures var kept := Trim(history, minTs);
            && Sorted(kept) && AtMost(kept, now) && Sorted(kept + [now]) && AtMost(kept + [now], now)
  {
    var shifted, kept := Shifted(history, minTs), Trim(history, minTs);
    ShiftedTrim(history, minTs);
    TrimSorted(history, minTs);
    AtMostWeakens(history, last, now);
    AtMostConcat(shifted, kept, now);
    SortedAppend(kept, now);
    AtMostConcat(kept, [now], now);
  }

  lemma GoneBounds(gone: seq<int>, history: seq<int>, last: int, now: int, windowMs: nat)
    requires AtMost(gone, last - windowMs - 1) && last <= now
    ensures AtMost(gone + Shifted(history, now - windowMs), now - windowMs - 1)
  {
    ShiftedTrim(history, now - windowMs);
    AtMostWeakens(gone, last - windowMs - 1, now - windowMs - 1);
    AtMostConcat(gone, Shifted(history, now - windowMs), now - windowMs - 1);
  }

  lemma {:induction false} RunKeepsInv(s: KeyState, calls: seq<Call>, maxEvents: int, windowMs: nat)
    requires Inv(s, maxEvents, windowMs) && Ordered(calls, s.last)
    ensures Inv(RunCalls(s, calls, maxEvents, windowMs), maxEvents, windowMs)
    decreases |calls|
  {
    if calls != [] {
      if calls[0].ConsumeAt? {
        ConsumeKeepsInv(s, calls[0].now, maxEvents, windowMs);
      }
      RunKeepsInv(Step(s, calls[0], maxEvents, windowMs), calls[1..], maxEvents, windowMs);
    }
  }

  // ---- Main results ----

  /**
   * After any run, a call is allowed iff fewer than maxEvents calls allowed since
   * the last clear lie in [now - windowMs, now], and the array it works on is
   * exactly those calls.
   */
  lemma AllowedIffFewRecent(calls: seq<Call>, since: int, now: int, maxEvents: int, windowMs: nat)
    requires Ordered(calls, since)
    requires RunCalls(Start(since), calls, maxEvents, windowMs).last <= now
    ensures var s := RunCalls(Start(since), calls, maxEvents, windowMs);
            var recent := Within(Log(s), now - windowMs, now);
            && Trim(s.history, now - windowMs) == recent
            && (Consume(s.history, now, maxEvents, windowMs).1.allowed <==> |recent| < maxEvents)
            && Log(Step(s, ConsumeAt(now), maxEvents, windowMs)) ==
               if |recent| < maxEvents then Log(s) + [now] else Log(s)
  {
    var s := RunCalls(Start(since), calls, maxEvents, windowMs);
    RunKeepsInv(Start(since), calls, maxEvents, windowMs);
    KeptIsRecent(s, now, maxEvents, windowMs);
    LogAfter(s, now, maxEvents, windowMs);
  }

  /** A decision reports the limit, the window, and how many more calls would be allowed at the same time. */
  lemma {:induction false} DecisionReports(history: seq<int>, now: int, maxEvents: int, windowMs: nat)
    requires Sorted(history) && AtMost(history, now)
    ensures var (h, d) := Consume(history, now, maxEvents, windowMs);
            && d.limit == maxEvents && d.windowMs == windowMs && d.remaining == Max(0, maxEvents - |h|)
            && (d.allowed ==> d.retryAfterMs == 0)
            && (Consume(h, now, maxEvents, windowMs).1.allowed <==> d.remaining > 0)
  {
    var kept := Trim(history, now - windowMs);
    TrimSorted(history, now - windowMs);
    TrimShortens(history, now - windowMs);
    if |kept| < maxEvents {
      ShiftedTrim(history, now - windowMs);
      AtMostConcat(Shifted(history, now - windowMs), kept, now);
      SortedAppend(kept, now);
      TrimmedStays(kept + [now], now - windowMs);
    } else {
      TrimmedStays(kept, now - windowMs);
    }
  }

  lemma TrimmedStays(kept: seq<int>, minTs: int)
    requires kept != [] ==> kept[0] >= minTs
    ensures Trim(kept, minTs) == kept
  {
  }

  /** Every closed interval of length windowMs holds at most maxEvents of the calls allowed since the last clear. */
  lemma WindowBound(calls: seq<Call>, since: int, from: int, maxEvents: int, windowMs: nat)
    requires Ordered(calls, since)
    ensures |Within(Log(RunCalls(Start(since), calls, maxEvents, windowMs)), from, from + windowMs)|
        <= Max(0, maxEvents)
  {
    var s := RunCalls(Start(since), calls, maxEvents, windowMs);
    RunKeepsInv(Start(since), calls, maxEvents, windowMs);
    SpacedLogBound(Log(s), from, maxEvents, windowMs);
  }

  lemma {:induction false} SpacedLogBound(log: seq<int>, from: int, maxEvents: int, windowMs: nat)
    requires Rising(log) && Spaced(log, maxEvents, windowMs)
    ensures |Within(log, from, from + windowMs)| <= Max(0, maxEvents)
  {
    if log != [] {
      var init, last := log[..|log| - 1], log[|log| - 1];
      assert log == init + [last];
      WithinConcat(init, [last], from, from + windowMs);
      SpacedLogBound(init, from, maxEvents, windowMs);
      if from <= last <= from + windowMs {
        WithinMono(init, from, from + windowMs, last - windowMs, last);
      }
    }
  }

  /** The outcomes of calls at the given times, up to and including the first one that is allowed. */
  function Outcomes(history: seq<int>, times: seq<int>, maxEvents: int, windowMs: nat): (r: seq<bool>)
    ensures |r| <= |times|
    decreases |times|
  {
    if times == [] then []
    else
      var (h, d) := Consume(history, times[0], maxEvents, windowMs);
      [d.allowed] + if d.allowed then [] else Outcomes(h, times[1..], maxEvents, windowMs)
  }

  /** After any run the array holds at most maxEvents calls. */
  lemma ArrayBounded(calls: seq<Call>, since: int, maxEvents: int, windowMs: nat)
    requires Ordered(calls, since)
    ensures |RunCalls(Start(since), calls, maxEvents, windowMs).history| <= Max(0, maxEvents)
  {
    RunKeepsInv(Start(since), calls, maxEvents, windowMs);
  }

  lemma DenialMeansFull(history: seq<int>, now: int, maxEvents: int, windowMs: nat)
    requires |history| <= Max(0, maxEvents)
    requires !Consume(history, now, maxEvents, windowMs).1.allowed
    ensures var (h, d) := Consume(history, now, maxEvents, windowMs);
            |h| == Max(0, maxEvents) && (maxEvents > 0 ==> now + d.retryAfterMs == h[0] + windowMs)
  {
    TrimShortens(history, now - windowMs);
  }

  /**
   * The retry hint is exact, up to the boundary instant: after a denial every call
   * up to and including now + retryAfterMs is denied, and the first call strictly
   * later is allowed (when the limiter allows anything at all).
   */
  lemma {:induction false} RetryIsExact(history: seq<int>, now: int, times: seq<int>, maxEvents: int, windowMs: nat)
    requires |history| <= Max(0, maxEvents)
    requires !Consume(history, now, maxEvents, windowMs).1.allowed && times != []
    ensures var (h, d) := Consume(history, now, maxEvents, windowMs);
            var allowed := Outcomes(h, times, maxEvents, windowMs);
            && (forall i :: 0 <= i < |allowed| ==> (allowed[i] <==> maxEvents > 0 && times[i] > now + d.retryAfterMs))
            && (|allowed| == |times| || (allowed != [] && allowed[|allowed| - 1]))
  {
    DenialMeansFull(history, now, maxEvents, windowMs);
    FullUntilOldestLeaves(Consume(history, now, maxEvents, windowMs).0, times, maxEvents, windowMs);
  }

  /** A full array stays full until its oldest call leaves the window, and then makes room at once. */
  lemma {:induction false} FullUntilOldestLeaves(h: seq<int>, times: seq<int>, maxEvents: int, windowMs: nat)
    requires |h| == Max(0, maxEvents) && times != []
    ensures var allowed := Outcomes(h, times, maxEvents, windowMs);
            && (forall i :: 0 <= i < |allowed| ==> (allowed[i] <==> maxEvents > 0 && times[i] > h[0] + windowMs))
            && (|allowed| == |times| || (allowed != [] && allowed[|allowed| - 1]))
    decreases |times|
  {
    TrimShortens(h, times[0] - windowMs);
    if |times| > 1 && (maxEvents <= 0 || times[0] <= h[0] + windowMs) {
      FullUntilOldestLeaves(h, times[1..], maxEvents, windowMs);
    }
  }
}
