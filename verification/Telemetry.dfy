/**
 * Latency telemetry: a ring buffer of recent samples, running totals, and nearest-rank percentiles,
 * in exact arithmetic.
 */
module Telemetry {
  import opened Common

  /** A number as it may be reported: NaN and the infinities are not finite. */
  datatype Reported = Finite(ms: real) | NotFinite

  function Sanitize(latency: Reported): (ms: real)
    ensures ms >= 0.0
    ensures latency.Finite? && latency.ms >= 0.0 ==> ms == latency.ms
    ensures latency.Finite? && latency.ms < 0.0 ==> ms == 0.0
    ensures latency.NotFinite? ==> ms == 0.0
  {
    if latency.NotFinite? || latency.ms < 0.0 then 0.0 else latency.ms
  }

  /** To two decimals, halves up. */
  function RoundMetric(x: real): real {
    (x * 100.0 + 0.5).Floor as real / 100.0
  }

  function Ceiling(x: real): int {
    -((-x).Floor)
  }

  // ---- Samples ----

  function Total(samples: seq<real>): real {
    if samples == [] then 0.0 else Total(samples[..|samples| - 1]) + samples[|samples| - 1]
  }

  /** The smallest sample; None stands for the initial infinity. */
  function Minimum(samples: seq<real>): Option<real> {
    if samples == [] then None
    else
      var init, last := Minimum(samples[..|samples| - 1]), samples[|samples| - 1];
      if init.None? || last < init.value then Some(last) else init
  }

  function Maximum(samples: seq<real>): real {
    if samples == [] then 0.0
    else
      var init, last := Maximum(samples[..|samples| - 1]), samples[|samples| - 1];
      if last > init then last else init
  }

  /** The samples a ring of the given capacity still holds, oldest first. */
  function Recent(samples: seq<real>, capacity: nat): seq<real> {
    if |samples| <= capacity then samples else samples[|samples| - capacity..]
  }

  function AtMost(samples: seq<real>, v: real): nat {
    if samples == [] then 0 else AtMost(samples[1..], v) + if samples[0] <= v then 1 else 0
  }

  function Below(samples: seq<real>, v: real): nat {
    if samples == [] then 0 else Below(samples[1..], v) + if samples[0] < v then 1 else 0
  }

  /** v is the k-th smallest sample: at least k samples are no larger, fewer than k are smaller. */
  ghost predicate NearestRank(samples: seq<real>, k: nat, v: real) {
    v in samples && Below(samples, v) < k <= AtMost(samples, v)
  }

  // ---- Sorting and percentiles ----

  function Insert(x: real, sorted: seq<real>): (r: seq<real>)
    ensures |r| == |sorted| + 1
  {
    if sorted == [] || x <= sorted[0] then [x] + sorted else [sorted[0]] + Insert(x, sorted[1..])
  }

  function Sort(samples: seq<real>): (r: seq<real>)
    ensures |r| == |samples|
  {
    if samples == [] then [] else Insert(samples[0], Sort(samples[1..]))
  }

  predicate Ascending(s: seq<real>) {
    |s| <= 1 || (s[0] <= s[1] && Ascending(s[1..]))
  }

  function RankOf(n: nat, ratio: real): int {
    Ceiling(n as real * ratio)
  }

  function RankIndex(n: nat, ratio: real): int {
    Max(0, Min(n - 1, RankOf(n, ratio) - 1))
  }

  function Percentile(sorted: seq<real>, ratio: real): Option<real> {
    if sorted == [] then None
    else
      var index := RankIndex(|sorted|, ratio);
      assert 0 <= index < |sorted|;
      Some(RoundMetric(sorted[index]))
  }

  datatype Snapshot = Snapshot(
    count: nat,
    lastMs: Option<real>,
    minMs: Option<real>,
    maxMs: Option<real>,
    avgMs: Option<real>,
    p50Ms: Option<real>,
    p95Ms: Option<real>)

  /** The snapshot after a sequence of sanitized samples. */
  function Summary(samples: seq<real>, capacity: nat): Snapshot {
    if samples == [] then Snapshot(0, None, None, None, None, None, None)
    else
      var sorted := Sort(Recent(samples, capacity));
      Snapshot(
        |samples|,
        Some(RoundMetric(samples[|samples| - 1])),
        match Minimum(samples) case None => None case Some(min) => Some(RoundMetric(min)),
        Some(RoundMetric(Maximum(samples))),
        Some(RoundMetric(Total(samples) / |samples| as real)),
        Percentile(sorted, 0.5),
        Percentile(sorted, 0.95))
  }

  // ---- Counting ----

  lemma {:induction false} CountConcat(a: seq<real>, b: seq<real>, v: real)
    ensures AtMost(a + b, v) == AtMost(a, v) + AtMost(b, v) && Below(a + b, v) == Below(a, v) + Below(b, v)
  {
    if a == [] {
      assert a + b == b;
    } else {
      assert (a + b)[1..] == a[1..] + b;
      CountConcat(a[1..], b, v);
    }
  }

  lemma {:induction false} InsertCounts(x: real, sorted: seq<real>, v: real)
    ensures AtMost(Insert(x, sorted), v) == AtMost(sorted, v) + if x <= v then 1 else 0
    ensures Below(Insert(x, sorted), v) == Below(sorted, v) + if x < v then 1 else 0
  {
    if sorted == [] || x <= sorted[0] {
      assert ([x] + sorted)[1..] == sorted;
    } else {
      InsertCounts(x, sorted[1..], v);
      assert Insert(x, sorted)[1..] == Insert(x, sorted[1..]);
    }
  }

  lemma {:induction false} SortCounts(samples: seq<real>, v: real)
    ensures AtMost(Sort(samples), v) == AtMost(samples, v) && Below(Sort(samples), v) == Below(samples, v)
  {
    if samples != [] {
      SortCounts(samples[1..], v);
      InsertCounts(samples[0], Sort(samples[1..]), v);
    }
  }

  lemma {:induction false} InsertAscends(x: real, sorted: seq<real>)
    requires Ascending(sorted)
    ensures Ascending(Insert(x, sorted))
    ensures Insert(x, sorted)[0] == if sorted == [] || x <= sorted[0] then x else sorted[0]
    ensures forall y :: y in Insert(x, sorted) <==> y == x || y in sorted
  {
    if sorted == [] || x <= sorted[0] {
      assert ([x] + sorted)[1..] == sorted;
    } else {
      InsertAscends(x, sorted[1..]);
      assert Insert(x, sorted)[1..] == Insert(x, sorted[1..]);
    }
  }

  lemma {:induction false} SortAscends(samples: seq<real>)
    ensures Ascending(Sort(samples))
    ensures forall y :: y in Sort(samples) <==> y in samples
  {
    if samples != [] {
      SortAscends(samples[1..]);
      InsertAscends(samples[0], Sort(samples[1..]));
    }
  }

  lemma {:induction false} FirstIsLeast(s: seq<real>, i: nat)
    requires Ascending(s) && i < |s|
    ensures s[0] <= s[i]
  {
    if i > 0 {
      FirstIsLeast(s[1..], i - 1);
    }
  }

  lemma {:induction false} AscendingOrder(s: seq<real>, i: nat, j: nat)
    requires Ascending(s) && i <= j < |s|
    ensures s[i] <= s[j]
  {
    if i == 0 {
      FirstIsLeast(s, j);
    } else {
      AscendingOrder(s[1..], i - 1, j - 1);
    }
  }

  lemma {:induction false} NoneBelow(s: seq<real>, v: real)
    requires Ascending(s) && (s != [] ==> v <= s[0])
    ensures Below(s, v) == 0
  {
    if |s| > 1 {
      NoneBelow(s[1..], v);
    }
  }

  lemma {:induction false} SortedRank(s: seq<real>, i: nat)
    requires Ascending(s) && i < |s|
    ensures Below(s, s[i]) <= i < AtMost(s, s[i])
  {
    if i == 0 {
      NoneBelow(s, s[0]);
    } else {
      SortedRank(s[1..], i - 1);
      FirstIsLeast(s, i);
    }
  }

  lemma {:induction false} BelowCoversAtMost(s: seq<real>, v: real, w: real)
    requires v < w
    ensures AtMost(s, v) <= Below(s, w)
  {
    if s != [] {
      BelowCoversAtMost(s[1..], v, w);
    }
  }

  /** The k-th smallest sample is one value, and sorting puts it in its place. */
  lemma RankIsUnique(samples: seq<real>, k: nat, v: real, w: real)
    requires NearestRank(samples, k, v) && NearestRank(samples, k, w)
    ensures v == w
  {
    if v < w {
      BelowCoversAtMost(samples, v, w);
    } else if w < v {
      BelowCoversAtMost(samples, w, v);
    }
  }

  lemma {:induction false} SortFindsRank(samples: seq<real>, k: nat)
    requires 1 <= k <= |samples|
    ensures NearestRank(samples, k, Sort(samples)[k - 1])
  {
    var v := Sort(samples)[k - 1];
    SortAscends(samples);
    SortedRank(Sort(samples), k - 1);
    SortCounts(samples, v);
  }

  lemma CeilingBounds(x: real, n: nat)
    requires 0.0 < x <= n as real
    ensures 1 <= Ceiling(x) <= n
  {
  }

  lemma RankInRange(n: nat, ratio: real)
    requires n >= 1 && 0.0 < ratio <= 1.0
    ensures 1 <= RankOf(n, ratio) <= n
  {
    Scale(n, ratio, 1.0);
    PositiveProduct(n, ratio);
    CeilingBounds(n as real * ratio, n);
  }

  lemma PositiveProduct(n: nat, ratio: real)
    requires n >= 1 && 0.0 < ratio
    ensures 0.0 < n as real * ratio
  {
  }

  lemma PercentileAt(sorted: seq<real>, ratio: real, k: int)
    requires 1 <= k <= |sorted| && k == RankOf(|sorted|, ratio)
    ensures Percentile(sorted, ratio) == Some(RoundMetric(sorted[k - 1]))
  {
  }

  /** A percentile is the nearest-rank percentile of the samples, rounded. */
  lemma {:induction false} PercentileIsNearestRank(samples: seq<real>, ratio: real, k: int)
    requires samples != [] && 0.0 < ratio <= 1.0 && k == RankOf(|samples|, ratio)
    ensures 1 <= k <= |samples|
    ensures NearestRank(samples, k, Sort(samples)[k - 1])
    ensures Percentile(Sort(samples), ratio) == Some(RoundMetric(Sort(samples)[k - 1]))
  {
    RankInRange(|samples|, ratio);
    SortFindsRank(samples, k);
    PercentileAt(Sort(samples), ratio, k);
  }

  // ---- The order of a snapshot's figures ----

  lemma {:induction false} Extremes(samples: seq<real>, x: real)
    requires x in samples
    ensures Minimum(samples).Some? && Minimum(samples).value <= x <= Maximum(samples)
  {
    var init, last := samples[..|samples| - 1], samples[|samples| - 1];
    assert samples == init + [last];
    if x in init {
      Extremes(init, x);
    }
  }

  lemma OneMore(n: nat, x: real)
    ensures (n + 1) as real * x == n as real * x + x
  {
  }

  lemma {:induction false} TotalAtLeast(samples: seq<real>, x: real)
    requires forall i :: 0 <= i < |samples| ==> x <= samples[i]
    ensures |samples| as real * x <= Total(samples)
  {
    if samples != [] {
      var init, last := samples[..|samples| - 1], samples[|samples| - 1];
      TotalAtLeast(init, x);
      OneMore(|init|, x);
    }
  }

  lemma {:induction false} TotalAtMost(samples: seq<real>, x: real)
    requires forall i :: 0 <= i < |samples| ==> samples[i] <= x
    ensures Total(samples) <= |samples| as real * x
  {
    if samples != [] {
      var init, last := samples[..|samples| - 1], samples[|samples| - 1];
      TotalAtMost(init, x);
      OneMore(|init|, x);
    }
  }

  lemma Scale(n: nat, a: real, b: real)
    requires a <= b
    ensures n as real * a <= n as real * b
  {
  }

  lemma Quotient(total: real, n: nat, low: real, high: real)
    requires n > 0 && n as real * low <= total <= n as real * high
    ensures low <= total / n as real <= high
  {
  }

  lemma {:induction false} AverageBetween(samples: seq<real>)
    requires samples != []
    ensures Minimum(samples).Some?
    ensures Minimum(samples).value <= Total(samples) / |samples| as real <= Maximum(samples)
  {
    Extremes(samples, samples[0]);
    forall i | 0 <= i < |samples|
      ensures Minimum(samples).value <= samples[i] <= Maximum(samples)
    {
      Extremes(samples, samples[i]);
    }
    TotalAtLeast(samples, Minimum(samples).value);
    TotalAtMost(samples, Maximum(samples));
    Quotient(Total(samples), |samples|, Minimum(samples).value, Maximum(samples));
  }

  lemma FloorKeepsOrder(x: real, y: real)
    requires x <= y
    ensures x.Floor <= y.Floor
  {
  }

  lemma HundredthsKeepOrder(m: int, n: int)
    requires m <= n
    ensures m as real / 100.0 <= n as real / 100.0
  {
  }

  lemma RoundKeepsOrder(a: real, b: real)
    requires a <= b
    ensures RoundMetric(a) <= RoundMetric(b)
  {
    FloorKeepsOrder(a * 100.0 + 0.5, b * 100.0 + 0.5);
    HundredthsKeepOrder((a * 100.0 + 0.5).Floor, (b * 100.0 + 0.5).Floor);
  }

  lemma MedianBeforeTail(n: nat)
    requires n >= 1
    ensures 0 <= RankIndex(n, 0.5) <= RankIndex(n, 0.95) < n
  {
  }

  lemma {:induction false} PercentilesBetween(samples: seq<real>, recent: seq<real>) returns (median: real, tail: real)
    requires recent != [] && forall x :: x in recent ==> x in samples
    ensures Minimum(samples).Some? && Minimum(samples).value <= median <= tail <= Maximum(samples)
    ensures Percentile(Sort(recent), 0.5) == Some(RoundMetric(median))
        && Percentile(Sort(recent), 0.95) == Some(RoundMetric(tail))
  {
    var sorted := Sort(recent);
    var i, j := RankIndex(|recent|, 0.5), RankIndex(|recent|, 0.95);
    MedianBeforeTail(|recent|);
    median, tail := sorted[i], sorted[j];
    SortAscends(recent);
    AscendingOrder(sorted, i, j);
    assert median in recent && tail in recent;
    Extremes(samples, median);
    Extremes(samples, tail);
  }

  /**
   * In every snapshot of at least one sample: minimum <= median <= 95th percentile <= maximum, and
   * the mean lies between.
   */
  lemma {:induction false} SnapshotOrdered(samples: seq<real>, capacity: nat)
    requires samples != [] && capacity > 0
    ensures var s := Summary(samples, capacity);
            && s.minMs.Some? && s.p50Ms.Some? && s.p95Ms.Some? && s.maxMs.Some? && s.avgMs.Some?
            && s.minMs.value <= s.p50Ms.value <= s.p95Ms.value <= s.maxMs.value
            && s.minMs.value <= s.avgMs.value <= s.maxMs.value
  {
    var median, tail := PercentilesBetween(samples, Recent(samples, capacity));
    AverageBetween(samples);
    var min, max, avg := Minimum(samples).value, Maximum(samples), Total(samples) / |samples| as real;
    RoundKeepsOrder(min, median);
    RoundKeepsOrder(median, tail);
    RoundKeepsOrder(tail, max);
    RoundKeepsOrder(min, avg);
    RoundKeepsOrder(avg, max);
  }

  // ---- What a snapshot means ----

  /** A figure is reported to the nearest hundredth, halves up. */
  lemma RoundIsNearest(x: real)
    ensures x - 0.005 < RoundMetric(x) <= x + 0.005
    ensures (RoundMetric(x) * 100.0).Floor as real == RoundMetric(x) * 100.0
  {
    var n := (x * 100.0 + 0.5).Floor;
    assert x * 100.0 - 0.5 < n as real <= x * 100.0 + 0.5;
    assert RoundMetric(x) * 100.0 == n as real;
  }

  lemma CeilingExact(x: real)
    ensures (Ceiling(x) - 1) as real < x <= Ceiling(x) as real
  {
  }

  lemma {:induction false} MinimumReached(samples: seq<real>)
    requires samples != []
    ensures Minimum(samples).Some? && Minimum(samples).value in samples
  {
    var init, last := samples[..|samples| - 1], samples[|samples| - 1];
    assert samples == init + [last];
    if init != [] {
      MinimumReached(init);
    }
  }

  lemma {:induction false} MaximumReached(samples: seq<real>)
    requires samples != [] && forall i :: 0 <= i < |samples| ==> samples[i] >= 0.0
    ensures Maximum(samples) in samples
  {
    var init, last := samples[..|samples| - 1], samples[|samples| - 1];
    assert samples == init + [last];
    assert last >= 0.0;
    if init == [] {
      assert Maximum(init) == 0.0;
    } else {
      MaximumReached(init);
    }
  }

  /** v is the sample of rank k, for k the smallest whole number that is at least n times the ratio. */
  ghost predicate IsPercentile(recent: seq<real>, ratio: real, v: real) {
    exists k: nat :: (k - 1) as real < |recent| as real * ratio <= k as real && NearestRank(recent, k, v)
  }

  ghost predicate ReportsPercentile(figure: Option<real>, recent: seq<real>, ratio: real) {
    exists v :: IsPercentile(recent, ratio, v) && figure == Some(RoundMetric(v))
  }

  lemma {:induction false} PercentileReported(recent: seq<real>, ratio: real)
    requires recent != [] && 0.0 < ratio <= 1.0
    ensures ReportsPercentile(Percentile(Sort(recent), ratio), recent, ratio)
  {
    var k := RankOf(|recent|, ratio);
    PercentileIsNearestRank(recent, ratio, k);
    CeilingExact(|recent| as real * ratio);
    assert IsPercentile(recent, ratio, Sort(recent)[k - 1]);
  }

  ghost predicate IsLeast(v: real, samples: seq<real>) {
    v in samples && forall x :: x in samples ==> v <= x
  }

  ghost predicate IsGreatest(v: real, samples: seq<real>) {
    v in samples && forall x :: x in samples ==> x <= v
  }

  /**
   * The figures of a snapshot: the number of samples, the last, the least, the greatest and the
   * mean of them all, and the median and the 95th percentile, by nearest rank, of as many of the
   * newest as the window holds.
   */
  lemma {:induction false} SnapshotMeans(samples: seq<real>, capacity: nat)
    requires samples != [] && capacity > 0 && forall i :: 0 <= i < |samples| ==> samples[i] >= 0.0
    ensures var s, n := Summary(samples, capacity), |samples|;
            && s.count == n && s.lastMs == Some(RoundMetric(samples[n - 1]))
            && (exists v :: IsLeast(v, samples) && s.minMs == Some(RoundMetric(v)))
            && (exists v :: IsGreatest(v, samples) && s.maxMs == Some(RoundMetric(v)))
            && s.avgMs == Some(RoundMetric(Total(samples) / n as real))
    ensures var s, recent := Summary(samples, capacity), samples[|samples| - Min(|samples|, capacity)..];
            ReportsPercentile(s.p50Ms, recent, 0.5) && ReportsPercentile(s.p95Ms, recent, 0.95)
  {
    var recent := samples[|samples| - Min(|samples|, capacity)..];
    assert recent == Recent(samples, capacity);
    MinimumReached(samples);
    MaximumReached(samples);
    forall x | x in samples
      ensures Minimum(samples).value <= x <= Maximum(samples)
    {
      Extremes(samples, x);
    }
    assert IsLeast(Minimum(samples).value, samples) && IsGreatest(Maximum(samples), samples);
    PercentileReported(recent, 0.5);
    PercentileReported(recent, 0.95);
  }

  // ---- The ring ----

  lemma {:induction false} SameCountsSortAlike(a: seq<real>, b: seq<real>)
    requires |a| == |b| && forall v :: AtMost(a, v) == AtMost(b, v) && Below(a, v) == Below(b, v)
    ensures Sort(a) == Sort(b)
  {
    SortAscends(a);
    SortAscends(b);
    forall i | 0 <= i < |a|
      ensures Sort(a)[i] == Sort(b)[i]
    {
      var v, w := Sort(a)[i], Sort(b)[i];
      SortFindsRank(a, i + 1);
      SortFindsRank(b, i + 1);
      if v < w {
        BelowCoversAtMost(a, v, w);
      } else if w < v {
        BelowCoversAtMost(a, w, v);
      }
    }
  }

  lemma {:induction false} RotationSortsAlike(a: seq<real>, b: seq<real>)
    ensures Sort(a + b) == Sort(b + a)
  {
    forall v
      ensures AtMost(a + b, v) == AtMost(b + a, v) && Below(a + b, v) == Below(b + a, v)
    {
      CountConcat(a, b, v);
      CountConcat(b, a, v);
    }
    SameCountsSortAlike(a + b, b + a);
  }

  /** Read from the write index on and around, a full ring holds the most recent samples in order. */
  ghost predicate IsRing(values: seq<real>, writeIndex: nat, samples: seq<real>)
    requires writeIndex < |values|
  {
    if |samples| < |values| then writeIndex == |samples| && values[..writeIndex] == samples
    else values[writeIndex..] + values[..writeIndex] == Recent(samples, |values|)
  }

  class LatencyWindow {
    const values: array<real>
    var size: nat
    var writeIndex: nat
    var totalCount: nat
    var totalMs: real
    var minMs: Option<real>
    var maxMs: real
    var lastMs: real
    /** Every sanitized sample so far. */
    ghost var samples: seq<real>

    ghost predicate Valid()
      reads this, values
    {
      && writeIndex < values.Length && size == Min(|samples|, values.Length)
      && IsRing(values[..], writeIndex, samples) && Totals(samples)
    }

    ghost predicate Totals(samples: seq<real>)
      reads this
    {
      && totalCount == |samples| && totalMs == Total(samples) && minMs == Minimum(samples) && maxMs == Maximum(samples)
      && (samples != [] ==> lastMs == samples[|samples| - 1])
    }

    constructor (capacity: nat)
      requires capacity > 0
      ensures Valid() && fresh(values) && values.Length == capacity && samples == []
    {
      values := new real[capacity](_ => 0.0);
      size, writeIndex, totalCount, totalMs := 0, 0, 0, 0.0;
      minMs, maxMs, lastMs, samples := None, 0.0, 0.0, [];
    }

    method RecordLatency(latency: Reported)
      requires Valid()
      modifies this, values
      ensures Valid() && |samples| == |old(samples)| + 1 && samples[..|old(samples)|] == old(samples)
      ensures var value := samples[|old(samples)|];
              value == if latency.Finite? && latency.ms >= 0.0 then latency.ms else 0.0
    {
      var value := Sanitize(latency);
      StoreValue(value);
      size := Min(size + 1, values.Length);
      AddToTotals(value);
      samples := samples + [value];
    }

    method AddToTotals(value: real)
      requires Totals(samples)
      modifies this`totalCount, this`totalMs, this`lastMs, this`minMs, this`maxMs
      ensures Totals(samples + [value])
    {
      TotalsAdvance(samples, value);
      totalCount := totalCount + 1;
      totalMs := totalMs + value;
      lastMs := value;
      minMs := Some(if minMs.None? || value < minMs.value then value else minMs.value);
      maxMs := if value > maxMs then value else maxMs;
    }

    /** The ring's part of recording. */
    method StoreValue(value: real)
      requires writeIndex < values.Length && IsRing(values[..], writeIndex, samples)
      modifies this`writeIndex, values
      ensures writeIndex < values.Length && IsRing(values[..], writeIndex, samples + [value])
    {
      ghost var before := values[..];
      values[writeIndex] := value;
      writeIndex := (writeIndex + 1) % values.Length;
      RingAdvances(before, old(writeIndex), values[..], writeIndex, value, samples);
    }

    /** The ring holds exactly the most recent samples, as many as fit. */
    lemma RingHoldsRecent()
      requires Valid()
      ensures size == Min(|samples|, values.Length)
      ensures multiset(values[..size]) == multiset(Recent(samples, values.Length))
      ensures Sort(values[..size]) == Sort(Recent(samples, values.Length))
    {
      assert values[..values.Length] == values[..];
      if |samples| >= values.Length {
        var a, b := values[..writeIndex], values[writeIndex..];
        assert values[..size] == a + b;
        RotationSortsAlike(a, b);
        assert multiset(a + b) == multiset(b + a);
      }
    }

    method TakeSnapshot() returns (s: Snapshot)
      requires Valid()
      ensures s == Summary(samples, values.Length)
    {
      if totalCount == 0 {
        return Snapshot(0, None, None, None, None, None, None);
      }
      RingHoldsRecent();
      var recent := Sort(values[..size]);
      s := Snapshot(
        totalCount,
        Some(RoundMetric(lastMs)),
        if minMs.None? then None else Some(RoundMetric(minMs.value)),
        Some(RoundMetric(maxMs)),
        Some(RoundMetric(totalMs / totalCount as real)),
        Percentile(recent, 0.5),
        Percentile(recent, 0.95));
    }
  }

  lemma Spliced(front: seq<real>, value: real, back: seq<real>)
    ensures (front + [value] + back)[..|front| + 1] == front + [value]
    ensures (front + [value] + back)[|front| + 1..] == back
  {
  }

  lemma RingFills(before: seq<real>, after: seq<real>, next: nat, value: real, samples: seq<real>)
    requires |samples| < |before| && before[..|samples|] == samples
    requires after == before[|samples| := value] && next == if |samples| + 1 == |before| then 0 else |samples| + 1
    ensures if |samples| + 1 < |after| then next == |samples| + 1 && after[..next] == samples + [value]
            else next == 0 && after == samples + [value]
  {
    var back := before[|samples| + 1..];
    assert after == samples + [value] + back;
    Spliced(samples, value, back);
  }

  lemma RotatedAt(front: seq<real>, x: real, back: seq<real>)
    ensures var all := front + [x] + back; all[|front|..] + all[..|front|] == [x] + (back + front)
  {
    var all := front + [x] + back;
    assert all[..|front|] == front;
    assert all[|front|..] == [x] + back;
  }

  lemma RotatedAfter(front: seq<real>, x: real, back: seq<real>)
    ensures var all := front + [x] + back; all[|front| + 1..] + all[..|front| + 1] == back + front + [x]
  {
    Spliced(front, x, back);
    assert back + (front + [x]) == back + front + [x];
  }

  lemma RingTurns(before: seq<real>, at: nat, after: seq<real>, next: nat, value: real)
    requires at < |before| && after == before[at := value] && next == if at + 1 == |before| then 0 else at + 1
    ensures next < |after| && after[next..] + after[..next] == (before[at..] + before[..at])[1..] + [value]
  {
    var front, back := before[..at], before[at + 1..];
    assert after == front + [value] + back;
    assert before == front + [before[at]] + back;
    RotatedAt(front, before[at], back);
    assert ([before[at]] + (back + front))[1..] == back + front;
    RotatedAfter(front, value, back);
    if next == 0 {
      assert after[0..] + after[..0] == after[at + 1..] + after[..at + 1];
    }
  }

  lemma RecentTurns(samples: seq<real>, value: real, capacity: nat)
    requires 0 < capacity <= |samples|
    ensures Recent(samples + [value], capacity) == Recent(samples, capacity)[1..] + [value]
  {
  }

  lemma RingAdvances(before: seq<real>, at: nat, after: seq<real>, next: nat, value: real, samples: seq<real>)
    requires at < |before| && after == before[at := value] && next == if at + 1 == |before| then 0 else at + 1
    requires IsRing(before, at, samples)
    ensures next < |after| && IsRing(after, next, samples + [value])
  {
    if |samples| < |before| {
      RingFills(before, after, next, value, samples);
      assert after[0..] + after[..0] == after;
    } else {
      RecentTurns(samples, value, |before|);
      RingTurns(before, at, after, next, value);
    }
  }

  lemma TotalsAdvance(samples: seq<real>, value: real)
    ensures Total(samples + [value]) == Total(samples) + value
    ensures Minimum(samples + [value]) ==
            Some(if Minimum(samples).None? || value < Minimum(samples).value then value else Minimum(samples).value)
    ensures Maximum(samples + [value]) == if value > Maximum(samples) then value else Maximum(samples)
  {
    assert (samples + [value])[..|samples|] == samples;
  }
}
