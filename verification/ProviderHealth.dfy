/** Health of a provider from a sliding window of its recent originations. */
module ProviderHealth {
  import opened Basics
  import opened Documents

  datatype HealthStatus = Healthy | Degraded | Unhealthy

  datatype Sample = Sample(recordedAt: Time, success: bool, timedOut: bool, latencyMs: nat)

  datatype HealthSettings = HealthSettings(
    window: nat,
    minSamples: int,
    unhealthyFailures: int,
    unhealthyTimeoutRate: real,
    degradedFailureRate: real,
    degradedLatencyMs: real)

  datatype Report = Report(
    status: HealthStatus,
    requestCount: nat,
    successRate: real,
    failureRate: real,
    timeoutRate: real,
    p50: nat,
    p95: nat,
    consecutiveFailures: nat,
    lowConfidence: bool)

  // ---------- the window ----------

  predicate InOrder(history: seq<Sample>) {
    history == []
    || ((forall x :: x in history ==> history[0].recordedAt <= x.recordedAt) && InOrder(history[1..]))
  }

  /** The whole history filtered: what the window is meant to hold. */
  function Recent(history: seq<Sample>, cutoff: Time): seq<Sample> {
    if history == [] then []
    else (if history[0].recordedAt >= cutoff then [history[0]] else []) + Recent(history[1..], cutoff)
  }

  lemma {:induction false} AllRecent(history: seq<Sample>, cutoff: Time)
    requires forall x :: x in history ==> x.recordedAt >= cutoff
    ensures Recent(history, cutoff) == history
  {
    if history == [] {
    } else {
      AllRecent(history[1..], cutoff);
    }
  }

  lemma {:induction false} NoneRecent(history: seq<Sample>, cutoff: Time)
    requires forall x :: x in history ==> x.recordedAt < cutoff
    ensures Recent(history, cutoff) == []
  {
    if history == [] {
    } else {
      NoneRecent(history[1..], cutoff);
    }
  }

  lemma {:induction false} RecentOfParts(a: seq<Sample>, b: seq<Sample>, cutoff: Time)
    ensures Recent(a + b, cutoff) == Recent(a, cutoff) + Recent(b, cutoff)
  {
    if a == [] {
      assert a + b == b;
    } else {
      assert (a + b)[0] == a[0] && (a + b)[1..] == a[1..] + b;
      RecentOfParts(a[1..], b, cutoff);
      var first := if a[0].recordedAt >= cutoff then [a[0]] else [];
      assert first + (Recent(a[1..], cutoff) + Recent(b, cutoff)) == first + Recent(a[1..], cutoff) + Recent(b, cutoff);
    }
  }

  /** Filtering twice is filtering once by the later cutoff. */
  lemma {:induction false} RecentTwice(history: seq<Sample>, early: Time, late: Time)
    requires early <= late
    ensures Recent(Recent(history, early), late) == Recent(history, late)
  {
    if history == [] {
    } else {
      RecentTwice(history[1..], early, late);
      RecentOfParts(if history[0].recordedAt >= early then [history[0]] else [], Recent(history[1..], early), late);
    }
  }

  lemma {:induction false} RecentIsInOrder(history: seq<Sample>, cutoff: Time)
    requires InOrder(history)
    ensures InOrder(Recent(history, cutoff))
    ensures forall x :: x in Recent(history, cutoff) ==> x in history && x.recordedAt >= cutoff
  {
    if history == [] {
    } else {
      RecentIsInOrder(history[1..], cutoff);
      var rest := Recent(history[1..], cutoff);
      assert ([history[0]] + rest)[1..] == rest;
      assert history[0].recordedAt < cutoff ==> Recent(history, cutoff) == rest;
      forall x | x in [history[0]] + rest ensures x in history && history[0].recordedAt <= x.recordedAt {
        assert x != history[0] ==> x in rest;
      }
    }
  }

  // ---------- figures over a window ----------

  function Successes(samples: seq<Sample>): (n: nat)
    ensures n <= |samples|
  {
    if samples == [] then 0 else (if samples[0].success then 1 else 0) + Successes(samples[1..])
  }

  function Timeouts(samples: seq<Sample>): (n: nat)
    ensures n <= |samples|
  {
    if samples == [] then 0 else (if samples[0].timedOut then 1 else 0) + Timeouts(samples[1..])
  }

  /** The last `n` samples failed and the one before them, if any, did not. */
  predicate FailingSuffix(samples: seq<Sample>, n: nat) {
    && n <= |samples|
    && (forall i :: |samples| - n <= i < |samples| ==> !samples[i].success)
    && (n < |samples| ==> samples[|samples| - n - 1].success)
  }

  lemma FailingSuffixIsUnique(samples: seq<Sample>, n: nat, m: nat)
    requires FailingSuffix(samples, n) && FailingSuffix(samples, m)
    ensures n == m
  {
  }

  method CountTrailingFailures(samples: seq<Sample>) returns (failures: nat)
    ensures FailingSuffix(samples, failures)
  {
    failures := 0;
    for i := |samples| downto 0
      invariant failures == |samples| - i
      invariant forall j :: i <= j < |samples| ==> !samples[j].success
    {
      if samples[i].success { break; }
      failures := failures + 1;
    }
  }

  function TrailingFailures(samples: seq<Sample>): (n: nat)
    ensures FailingSuffix(samples, n)
  {
    if samples == [] || samples[|samples| - 1].success then 0 else 1 + TrailingFailures(samples[..|samples| - 1])
  }

  // ---------- percentiles ----------

  predicate Ascending(s: seq<nat>) {
    forall i, j :: 0 <= i < j < |s| ==> s[i] <= s[j]
  }

  function Insert(x: nat, s: seq<nat>): seq<nat> {
    if s == [] || x <= s[0] then [x] + s else [s[0]] + Insert(x, s[1..])
  }

  lemma {:induction false} InsertAdds(x: nat, s: seq<nat>)
    ensures multiset(Insert(x, s)) == multiset(s) + multiset{x}
  {
    if s == [] || x <= s[0] {
    } else {
      InsertAdds(x, s[1..]);
      assert s == [s[0]] + s[1..];
    }
  }

  lemma {:induction false} InsertMembers(x: nat, s: seq<nat>, y: nat)
    ensures y in Insert(x, s) <==> y == x || y in s
  {
    if s == [] || x <= s[0] {
    } else {
      InsertMembers(x, s[1..], y);
    }
  }

  lemma {:induction false} InsertAscends(x: nat, s: seq<nat>)
    requires Ascending(s)
    ensures Ascending(Insert(x, s))
  {
    if s == [] || x <= s[0] {
    } else {
      var rest := Insert(x, s[1..]);
      InsertAscends(x, s[1..]);
      forall i | 0 <= i < |rest| ensures s[0] <= rest[i] {
        InsertMembers(x, s[1..], rest[i]);
        assert rest[i] in s[1..] ==> s[0] <= rest[i];
      }
    }
  }

  function Sorted(s: seq<nat>): seq<nat> {
    if s == [] then [] else Insert(s[0], Sorted(s[1..]))
  }

  lemma {:induction false} SortedIsSorted(s: seq<nat>)
    ensures Ascending(Sorted(s)) && multiset(Sorted(s)) == multiset(s) && |Sorted(s)| == |s|
  {
    if s == [] {
    } else {
      SortedIsSorted(s[1..]);
      InsertAscends(s[0], Sorted(s[1..]));
      InsertAdds(s[0], Sorted(s[1..]));
      assert s == [s[0]] + s[1..];
    }
    SameElementsSameLength(Sorted(s), s);
  }

  lemma SameElementsSameLength(s: seq<nat>, t: seq<nat>)
    requires multiset(s) == multiset(t)
    ensures |s| == |t|
  {
    assert |s| == |multiset(s)| && |t| == |multiset(t)|;
  }

  /** Python's `round`: to the nearest integer, a half to the even one. */
  function Round(x: real): int {
    var f := x.Floor;
    var d := x - f as real;
    if d < 0.5 then f
    else if d > 0.5 then f + 1
    else if f % 2 == 0 then f
    else f + 1
  }

  lemma RoundIsNearest(x: real)
    ensures x - 0.5 <= Round(x) as real <= x + 0.5
  {
  }

  lemma RoundKeepsOrder(x: real, y: real)
    requires x <= y
    ensures Round(x) <= Round(y)
  {
  }

  /** The rank, as a real number, of the value a fraction of the way up. */
  function UpTheWay(fraction: real, size: nat): real {
    fraction * (size - 1) as real
  }

  function PercentileIndex(size: nat, fraction: real): (i: nat)
    requires size > 0 && 0.0 <= fraction
    ensures i < size
  {
    UpTheWayKeepsOrder(0.0, fraction, size);
    RoundIsNearest(UpTheWay(fraction, size));
    Min(size - 1, Round(UpTheWay(fraction, size)))
  }

  lemma UpTheWayKeepsOrder(low: real, high: real, size: nat)
    requires low <= high && size > 0
    ensures UpTheWay(low, size) <= UpTheWay(high, size)
    ensures UpTheWay(0.0, size) == 0.0 && UpTheWay(1.0, size) == (size - 1) as real
  {
    NonNegativeProduct(high - low, (size - 1) as real);
    assert UpTheWay(high, size) - UpTheWay(low, size) == (high - low) * (size - 1) as real;
  }

  lemma NonNegativeProduct(x: real, y: real)
    requires x >= 0.0 && y >= 0.0
    ensures x * y >= 0.0
  {
  }

  function Percentile(values: seq<nat>, fraction: real): (p: nat)
    requires 0.0 <= fraction
    ensures values == [] ==> p == 0
    ensures values != [] ==> p in values
  {
    if values == [] then 0
    else
      SortedIsSorted(values);
      var i := PercentileIndex(|values|, fraction);
      assert Sorted(values)[i] in multiset(values);
      Sorted(values)[i]
  }

  lemma IndexKeepsOrder(size: nat, low: real, high: real)
    requires size > 0 && 0.0 <= low <= high
    ensures PercentileIndex(size, low) <= PercentileIndex(size, high)
  {
    UpTheWayKeepsOrder(low, high, size);
    RoundKeepsOrder(UpTheWay(low, size), UpTheWay(high, size));
  }

  /** A larger fraction never gives a smaller percentile. */
  lemma PercentileKeepsOrder(values: seq<nat>, low: real, high: real)
    requires 0.0 <= low <= high
    ensures Percentile(values, low) <= Percentile(values, high)
  {
    if values != [] {
      IndexKeepsOrder(|values|, low, high);
      SortedIsSorted(values);
    }
  }

  /** `p` stands at position `k` when the values are put in order. */
  ghost predicate RankedAt(values: seq<nat>, k: nat, p: nat) {
    exists s: seq<nat> :: Ascending(s) && multiset(s) == multiset(values) && k < |s| && s[k] == p
  }

  /** `k` is the whole number nearest to `x`, the even one of two. */
  predicate NearestTo(x: real, k: int) {
    k as real - 0.5 <= x <= k as real + 0.5 && (x == k as real - 0.5 || x == k as real + 0.5 ==> k % 2 == 0)
  }

  /** The value whose rank is nearest to the fraction of the way up. */
  ghost predicate NearestRank(values: seq<nat>, fraction: real, p: nat) {
    exists k: nat :: RankedAt(values, k, p) && NearestTo(UpTheWay(fraction, |values|), k)
  }

  lemma PercentileIsNearestRank(values: seq<nat>, fraction: real)
    requires values != [] && 0.0 <= fraction <= 1.0
    ensures NearestRank(values, fraction, Percentile(values, fraction))
  {
    var k := PercentileIndex(|values|, fraction);
    SortedRanks(values, k);
    IndexIsNearest(|values|, fraction);
    assert RankedAt(values, k, Percentile(values, fraction)) && NearestTo(UpTheWay(fraction, |values|), k);
  }

  lemma IndexIsNearest(size: nat, fraction: real)
    requires size > 0 && 0.0 <= fraction <= 1.0
    ensures NearestTo(UpTheWay(fraction, size), PercentileIndex(size, fraction))
  {
    UpTheWayKeepsOrder(fraction, 1.0, size);
    RoundIsNearestTo(UpTheWay(fraction, size), size - 1);
  }

  lemma RoundIsNearestTo(x: real, n: int)
    ensures NearestTo(x, Round(x))
    ensures x <= n as real ==> Round(x) <= n
  {
  }

  lemma {:induction false} SameOrder(s: seq<nat>, t: seq<nat>)
    requires Ascending(s) && Ascending(t) && multiset(s) == multiset(t)
    ensures s == t
    decreases |s|
  {
    SameElementsSameLength(s, t);
    if s == [] {
    } else {
      LeastComesFirst(s, t);
      LeastComesFirst(t, s);
      assert s == [s[0]] + s[1..] && t == [t[0]] + t[1..];
      assert multiset(s[1..]) == multiset(s) - multiset{s[0]} && multiset(t[1..]) == multiset(t) - multiset{t[0]};
      SameOrder(s[1..], t[1..]);
    }
  }

  lemma LeastComesFirst(s: seq<nat>, t: seq<nat>)
    requires s != [] && Ascending(t) && multiset(s) == multiset(t)
    ensures t != [] && t[0] <= s[0]
  {
    assert s[0] in multiset(t);
    var i :| 0 <= i < |t| && t[i] == s[0];
  }

  /** There is only one such value. */
  lemma NearestRankIsUnique(values: seq<nat>, fraction: real, p: nat, q: nat)
    requires NearestRank(values, fraction, p) && NearestRank(values, fraction, q)
    ensures p == q
  {
    var k: nat :| RankedAt(values, k, p) && NearestTo(UpTheWay(fraction, |values|), k);
    var l: nat :| RankedAt(values, l, q) && NearestTo(UpTheWay(fraction, |values|), l);
    var s: seq<nat> :| Ascending(s) && multiset(s) == multiset(values) && k < |s| && s[k] == p;
    var t: seq<nat> :| Ascending(t) && multiset(t) == multiset(values) && l < |t| && t[l] == q;
    SameOrder(s, t);
    OneNearest(UpTheWay(fraction, |values|), k, l);
  }

  lemma OneNearest(x: real, k: int, l: int)
    requires NearestTo(x, k) && NearestTo(x, l)
    ensures k == l
  {
  }

  lemma SortedRanks(values: seq<nat>, k: nat)
    requires k < |values|
    ensures k < |Sorted(values)| && RankedAt(values, k, Sorted(values)[k])
  {
    SortedIsSorted(values);
    assert Ascending(Sorted(values));
  }

  // ---------- status ----------

  function Latencies(samples: seq<Sample>): seq<nat> {
    seq(|samples|, i requires 0 <= i < |samples| => samples[i].latencyMs)
  }

  function DeriveStatus(
    s: HealthSettings, failureRate: real, timeoutRate: real, consecutive: nat, p95: real, lowConfidence: bool
  ): HealthStatus {
    if consecutive >= s.unhealthyFailures then Unhealthy
    else if !lowConfidence && timeoutRate > s.unhealthyTimeoutRate then Unhealthy
    else if lowConfidence then Healthy
    else if failureRate > s.degradedFailureRate then Degraded
    else if p95 > s.degradedLatencyMs then Degraded
    else Healthy
  }

  function Share(part: nat, whole: nat): real {
    if whole == 0 then 0.0 else part as real / whole as real
  }

  function HealthOf(s: HealthSettings, samples: seq<Sample>): Report {
    var n := |samples|;
    var successRate := if n == 0 then 1.0 else Share(Successes(samples), n);
    var timeoutRate := Share(Timeouts(samples), n);
    var latencies := Latencies(samples);
    var p95 := Percentile(latencies, 0.95);
    var consecutive := TrailingFailures(samples);
    var low := n < s.minSamples;
    Report(DeriveStatus(s, 1.0 - successRate, timeoutRate, consecutive, p95 as real, low),
           n, successRate, 1.0 - successRate, timeoutRate, Percentile(latencies, 0.5), p95, consecutive, low)
  }

  /** The median latency is at most the 95th percentile, and both were observed. */
  lemma LatencyPercentiles(s: HealthSettings, samples: seq<Sample>)
    ensures var r := HealthOf(s, samples);
            r.p50 <= r.p95
            && (samples != [] ==>
                  (exists x :: x in samples && x.latencyMs == r.p50)
                  && (exists x :: x in samples && x.latencyMs == r.p95))
  {
    var latencies := Latencies(samples);
    PercentileKeepsOrder(latencies, 0.5, 0.95);
    if samples != [] {
      ObservedLatency(samples, Percentile(latencies, 0.5));
      ObservedLatency(samples, Percentile(latencies, 0.95));
    }
  }

  lemma ObservedLatency(samples: seq<Sample>, latency: nat)
    requires latency in Latencies(samples)
    ensures exists x :: x in samples && x.latencyMs == latency
  {
  }

  /** A silent window is healthy exactly when no threshold is already crossed by zero. */
  lemma SilenceIsHealthyIff(s: HealthSettings)
    ensures HealthOf(s, []).status == Healthy
            <==> s.unhealthyFailures >= 1
                 && (s.minSamples >= 1
                     || (s.unhealthyTimeoutRate >= 0.0 && s.degradedFailureRate >= 0.0 && s.degradedLatencyMs >= 0.0))
  {
  }

  predicate SaneThresholds(s: HealthSettings) {
    s.unhealthyFailures >= 1 && s.minSamples >= 1
  }

  /** Whatever the provider did, a window later without originations it counts as healthy again. */
  lemma QuietProviderRecovers(s: HealthSettings, history: seq<Sample>, window: seq<Sample>, now: Time)
    requires SaneThresholds(s) && forall x :: x in history ==> x.recordedAt < now - s.window
    requires window == Recent(history, now - s.window)
    ensures HealthOf(s, window).status == Healthy
  {
    NoneRecent(history, now - s.window);
    SilenceIsHealthyIff(s);
  }

  // ---------- figures as counts of positions ----------

  function TimedOutFrom(samples: seq<Sample>, lo: nat): set<int> {
    set i | lo <= i < |samples| && samples[i].timedOut
  }

  function FailedFrom(samples: seq<Sample>, lo: nat): set<int> {
    set i | lo <= i < |samples| && !samples[i].success
  }

  lemma {:induction false} TimeoutsFrom(samples: seq<Sample>, lo: nat)
    requires lo <= |samples|
    ensures Timeouts(samples[lo..]) == |TimedOutFrom(samples, lo)|
    decreases |samples| - lo
  {
    if lo == |samples| {
      assert TimedOutFrom(samples, lo) == {};
    } else {
      TimeoutsFrom(samples, lo + 1);
      assert samples[lo..][1..] == samples[lo + 1..];
      assert TimedOutFrom(samples, lo)
          == if samples[lo].timedOut then {lo} + TimedOutFrom(samples, lo + 1) else TimedOutFrom(samples, lo + 1);
    }
  }

  lemma {:induction false} FailuresFrom(samples: seq<Sample>, lo: nat)
    requires lo <= |samples|
    ensures |samples| - lo - Successes(samples[lo..]) == |FailedFrom(samples, lo)|
    decreases |samples| - lo
  {
    if lo == |samples| {
      assert FailedFrom(samples, lo) == {};
    } else {
      FailuresFrom(samples, lo + 1);
      assert samples[lo..][1..] == samples[lo + 1..];
      assert FailedFrom(samples, lo)
          == if samples[lo].success then FailedFrom(samples, lo + 1) else {lo} + FailedFrom(samples, lo + 1);
    }
  }

  function Failed(samples: seq<Sample>): set<int> {
    set i | 0 <= i < |samples| && !samples[i].success
  }

  function TimedOut(samples: seq<Sample>): set<int> {
    set i | 0 <= i < |samples| && samples[i].timedOut
  }

  /** `part` of `whole`, if there is any, is more than the threshold. */
  predicate Beyond(part: int, whole: int, threshold: real) {
    if whole == 0 then 0.0 > threshold else part as real > threshold * whole as real
  }

  lemma ShareIsBeyond(part: nat, whole: nat, threshold: real)
    ensures Share(part, whole) > threshold <==> Beyond(part, whole, threshold)
  {
    if whole > 0 {
      assert Share(part, whole) * whole as real == part as real;
      OrderByFactor(threshold, Share(part, whole), whole as real);
    }
  }

  lemma OrderByFactor(x: real, y: real, k: real)
    requires k > 0.0
    ensures x < y <==> x * k < y * k
  {
  }

  lemma RestOfOne(part: real, whole: real)
    requires whole > 0.0
    ensures 1.0 - part / whole == (whole - part) / whole
  {
    var q, r := part / whole, (whole - part) / whole;
    assert q * whole == part && r * whole == whole - part;
    assert (1.0 - q) * whole == whole - q * whole;
    OrderByFactor(1.0 - q, r, whole);
    OrderByFactor(r, 1.0 - q, whole);
  }

  /** The rates reported are the shares of the samples that timed out, and that failed. */
  lemma RatesAreShares(s: HealthSettings, samples: seq<Sample>)
    ensures HealthOf(s, samples).timeoutRate == Share(|TimedOut(samples)|, |samples|)
    ensures HealthOf(s, samples).failureRate == Share(|Failed(samples)|, |samples|)
    ensures var r := HealthOf(s, samples);
            && r.requestCount == |samples| && r.successRate + r.failureRate == 1.0
            && FailingSuffix(samples, r.consecutiveFailures) && (r.lowConfidence <==> |samples| < s.minSamples)
  {
    TimeoutsFrom(samples, 0);
    FailuresFrom(samples, 0);
    assert samples[0..] == samples;
    assert TimedOutFrom(samples, 0) == TimedOut(samples) && FailedFrom(samples, 0) == Failed(samples);
    if samples != [] {
      RestOfOne(Successes(samples) as real, |samples| as real);
      assert |samples| as real - Successes(samples) as real == |Failed(samples)| as real;
    }
  }

  /** Exactly when a provider is refused: too many failures in a row, or too many timeouts among enough calls. */
  lemma UnhealthyIff(s: HealthSettings, samples: seq<Sample>)
    ensures HealthOf(s, samples).status == Unhealthy
            <==> (exists n: nat :: n >= s.unhealthyFailures && FailingSuffix(samples, n))
                 || (|samples| >= s.minSamples && Beyond(|TimedOut(samples)|, |samples|, s.unhealthyTimeoutRate))
  {
    RatesAreShares(s, samples);
    ShareIsBeyond(|TimedOut(samples)|, |samples|, s.unhealthyTimeoutRate);
  }

  /** The latencies reported are the nearest-rank median and 95th percentile of those in the window. */
  lemma LatenciesAreNearestRank(s: HealthSettings, samples: seq<Sample>)
    requires samples != []
    ensures NearestRank(Latencies(samples), 0.5, HealthOf(s, samples).p50)
    ensures NearestRank(Latencies(samples), 0.95, HealthOf(s, samples).p95)
  {
    PercentileIsNearestRank(Latencies(samples), 0.5);
    PercentileIsNearestRank(Latencies(samples), 0.95);
  }

  /** Exactly when it is dialed with caution: among enough calls, too many failed or slow, yet not refused. */
  lemma DegradedIff(s: HealthSettings, samples: seq<Sample>)
    ensures HealthOf(s, samples).status == Degraded
            <==> HealthOf(s, samples).status != Unhealthy && |samples| >= s.minSamples
                 && (Beyond(|Failed(samples)|, |samples|, s.degradedFailureRate)
                     || HealthOf(s, samples).p95 as real > s.degradedLatencyMs)
  {
    RatesAreShares(s, samples);
    ShareIsBeyond(|Failed(samples)|, |samples|, s.degradedFailureRate);
  }

  // ---------- the manager ----------

  /** Drops samples from the front while they are too old; in a window that is in order, that is all of them. */
  method DropOld(window: seq<Sample>, cutoff: Time) returns (rest: seq<Sample>)
    requires InOrder(window)
    ensures rest == Recent(window, cutoff)
  {
    rest := window;
    while rest != [] && rest[0].recordedAt < cutoff
      invariant InOrder(rest) && Recent(rest, cutoff) == Recent(window, cutoff)
      decreases |rest|
    {
      rest := rest[1..];
    }
    AllRecent(rest, cutoff);
  }

  /** A window is its provider's whole history, filtered by the cutoff it was last trimmed to. */
  ghost predicate IsWindow(window: seq<Sample>, history: seq<Sample>, trimmedTo: Time, latest: Time, span: nat) {
    && InOrder(history) && (forall x :: x in history ==> x.recordedAt <= latest)
    && trimmedTo <= latest - span
    && window == Recent(history, trimmedTo)
  }

  lemma TrimmedIsWindow(window: seq<Sample>, history: seq<Sample>, trimmedTo: Time, latest: Time, span: nat, now: Time)
    requires IsWindow(window, history, trimmedTo, latest, span) && latest <= now
    ensures InOrder(window)
    ensures Recent(window, now - span) == Recent(history, now - span)
    ensures IsWindow(Recent(history, now - span), history, now - span, now, span)
  {
    RecentIsInOrder(history, trimmedTo);
    RecentTwice(history, trimmedTo, now - span);
  }

  lemma {:induction false} AppendedIsInOrder(history: seq<Sample>, sample: Sample)
    requires InOrder(history) && forall x :: x in history ==> x.recordedAt <= sample.recordedAt
    ensures InOrder(history + [sample])
  {
    if history == [] {
      assert history + [sample] == [sample];
    } else {
      AppendedIsInOrder(history[1..], sample);
      assert (history + [sample])[1..] == history[1..] + [sample];
    }
  }

  lemma AppendedIsWindow(
    window: seq<Sample>, history: seq<Sample>, trimmedTo: Time, latest: Time, span: nat, sample: Sample
  )
    requires IsWindow(window, history, trimmedTo, latest, span) && latest <= sample.recordedAt
    ensures IsWindow(window + [sample], history + [sample], trimmedTo, sample.recordedAt, span)
  {
    RecentOfParts(history, [sample], trimmedTo);
    AppendedIsInOrder(history, sample);
  }

  method Compute(s: HealthSettings, window: seq<Sample>) returns (report: Report)
    ensures report == HealthOf(s, window)
  {
    var consecutive := CountTrailingFailures(window);
    FailingSuffixIsUnique(window, consecutive, TrailingFailures(window));
    var n := |window|;
    var successRate := if n == 0 then 1.0 else Share(Successes(window), n);
    var timeoutRate := Share(Timeouts(window), n);
    var latencies := Latencies(window);
    var p95 := Percentile(latencies, 0.95);
    var low := n < s.minSamples;
    report := Report(DeriveStatus(s, 1.0 - successRate, timeoutRate, consecutive, p95 as real, low),
                     n, successRate, 1.0 - successRate, timeoutRate, Percentile(latencies, 0.5), p95, consecutive, low);
  }

  /** The health manager's state for one provider; `history` is every sample ever recorded. */
  class HealthManager {
    const settings: HealthSettings
    var samples: seq<Sample>
    ghost var history: seq<Sample>
    ghost var trimmedTo: Time
    ghost var latest: Time

    ghost predicate Valid()
      reads this
    {
      IsWindow(samples, history, trimmedTo, latest, settings.window)
    }

    constructor (settings: HealthSettings, now: Time)
      ensures Valid() && this.settings == settings && history == [] && latest == now
    {
      this.settings := settings;
      samples := [];
      history := [];
      trimmedTo := now - settings.window;
      latest := now;
    }

    method Trim(now: Time)
      requires Valid() && latest <= now
      modifies this
      ensures Valid() && history == old(history) && latest == now
      ensures samples == Recent(history, now - settings.window)
    {
      TrimmedIsWindow(samples, history, trimmedTo, latest, settings.window, now);
      samples := DropOld(samples, now - settings.window);
      trimmedTo := now - settings.window;
      latest := now;
    }

    /** Clock readings: `at` stamps the sample, `now` is read again for the trim. */
    method RecordOriginate(success: bool, latencyMs: nat, timedOut: bool, at: Time, now: Time)
      requires Valid() && latest <= at <= now
      modifies this
      ensures Valid() && latest == now
      ensures history == old(history) + [Sample(at, success, timedOut, latencyMs)]
      ensures samples == Recent(history, now - settings.window)
    {
      var sample := Sample(at, success, timedOut, latencyMs);
      AppendedIsWindow(samples, history, trimmedTo, latest, settings.window, sample);
      samples := samples + [sample];
      history := history + [sample];
      latest := at;
      Trim(now);
    }

    /** The report is that of the whole history filtered by the window, however the samples came in. */
    method GetHealth(now: Time) returns (report: Report)
      requires Valid() && latest <= now
      modifies this
      ensures Valid() && latest == now && history == old(history)
      ensures samples == Recent(history, now - settings.window)
      ensures report == HealthOf(settings, Recent(history, now - settings.window))
    {
      Trim(now);
      report := Compute(settings, samples);
    }

    method ShouldAllowRetry(now: Time) returns (allowed: bool)
      requires Valid() && latest <= now
      modifies this
      ensures Valid() && latest == now && history == old(history)
      ensures allowed <==> HealthOf(settings, Recent(history, now - settings.window)).status != Unhealthy
    {
      var report := GetHealth(now);
      allowed := report.status != Unhealthy;
    }
  }
}
