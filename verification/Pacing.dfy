/** The pacing engine: how many calls to ask for, from a snapshot of the campaign, over the reals. */
module Pacing {
  import opened Basics
  import opened Documents
  import opened ProviderHealth
  import opened Safety

  datatype PacingConfig = PacingConfig(
    soonFreeWeight: real,
    safetyMargin: real,
    minAnswerRate: real,
    maxAnswerRate: real,
    volatilityThreshold: real,
    volatilityFactor: real,
    maxRequestPerTick: int,
    forcedAnswerRate: Option<real>)

  datatype Snapshot = Snapshot(
    mode: Mode,
    available: nat,
    reserved: nat,
    wrapUp: nat,
    longConnected: nat,
    ringing: nat,
    initiated: nat,
    recentRate: Option<real>,
    previousRate: Option<real>,
    baselineRate: real,
    status: HealthStatus,
    capturedAt: Time)

  function MaxR(a: real, b: real): real {
    if a < b then b else a
  }

  function MinR(a: real, b: real): real {
    if b < a then b else a
  }

  function Clamp(value: real, minimum: real, maximum: real): real {
    MaxR(minimum, MinR(maximum, value))
  }

  function BlendedRate(recent: Option<real>, baseline: real, minimum: real, maximum: real): real {
    Clamp(if recent.None? then baseline else 0.7 * recent.value + 0.3 * baseline, minimum, maximum)
  }

  predicate IsVolatile(recent: Option<real>, previous: Option<real>, threshold: real) {
    recent.Some? && previous.Some?
    && (if recent.value >= previous.value then recent.value - previous.value
        else previous.value - recent.value) > threshold
  }

  function HealthFactor(status: HealthStatus): real {
    match status
    case Healthy => 1.0
    case Degraded => 0.5
    case Unhealthy => 0.0
  }

  function EffectiveRate(snap: Snapshot, c: PacingConfig): real {
    if c.forcedAnswerRate.Some? then c.forcedAnswerRate.value
    else BlendedRate(snap.recentRate, snap.baselineRate, c.minAnswerRate, c.maxAnswerRate)
  }

  function FreeCapacity(snap: Snapshot, c: PacingConfig): real {
    snap.available as real + (snap.wrapUp + snap.longConnected) as real * c.soonFreeWeight
  }

  function InFlight(snap: Snapshot): nat {
    snap.ringing + snap.initiated + snap.reserved
  }

  function Raw(capacity: real, rate: real, inFlight: nat): (n: nat)
    requires rate != 0.0
  {
    MaxR(0.0, capacity / rate - inFlight as real).Floor
  }

  function VolatilityFactor(snap: Snapshot, c: PacingConfig): real {
    if IsVolatile(snap.recentRate, snap.previousRate, c.volatilityThreshold) then c.volatilityFactor else 1.0
  }

  function Scale(raw: real, margin: real, health: real, volatility: real): real {
    raw * margin * health * volatility
  }

  function Capped(scaled: real, limit: int): int {
    Min(scaled.Floor, limit)
  }

  /** None is the division by zero, the one way the arithmetic can fail. */
  function Compute(snap: Snapshot, c: PacingConfig): Option<int> {
    var rate := EffectiveRate(snap, c);
    if rate == 0.0 then None
    else
      var raw := Raw(FreeCapacity(snap, c), rate, InFlight(snap));
      Some(Capped(Scale(raw as real, c.safetyMargin, HealthFactor(snap.status), VolatilityFactor(snap, c)),
                  c.maxRequestPerTick))
  }

  /** Fails closed: if the calculation fails, nothing is asked for. */
  function ComputeRequest(snap: Snapshot, c: PacingConfig): Request {
    var r := Compute(snap, c);
    Request(if r.Some? then r.value else 0, snap.mode, snap.capturedAt)
  }

  // ---------- sane configurations ----------

  predicate Sane(c: PacingConfig) {
    && c.soonFreeWeight >= 0.0
    && 0.0 <= c.safetyMargin <= 1.0
    && 0.0 < c.minAnswerRate <= c.maxAnswerRate <= 1.0
    && 0.0 <= c.volatilityFactor <= 1.0
    && c.maxRequestPerTick >= 0
    && (c.forcedAnswerRate.Some? ==> c.minAnswerRate <= c.forcedAnswerRate.value <= 1.0)
  }

  function ProgressiveConfig(c: PacingConfig): PacingConfig {
    c.(forcedAnswerRate := Some(1.0), safetyMargin := 1.0, soonFreeWeight := 0.0)
  }

  lemma RateStaysWithinBounds(snap: Snapshot, c: PacingConfig)
    requires c.minAnswerRate <= c.maxAnswerRate
    ensures c.minAnswerRate
            <= BlendedRate(snap.recentRate, snap.baselineRate, c.minAnswerRate, c.maxAnswerRate)
            <= c.maxAnswerRate
    ensures Sane(c) ==> c.minAnswerRate <= EffectiveRate(snap, c) <= 1.0
  {
  }

  lemma FailsOnlyOnZeroRate(snap: Snapshot, c: PacingConfig)
    requires c.minAnswerRate <= c.maxAnswerRate
    ensures Compute(snap, c).None? <==> EffectiveRate(snap, c) == 0.0
    ensures Sane(c) ==> Compute(snap, c).Some?
  {
  }

  // ---------- arithmetic ----------

  lemma ProductKeepsOrder(x: real, y: real, k: real)
    requires x <= y && k >= 0.0
    ensures x * k <= y * k
  {
  }

  lemma PartOf(x: real, k: real, part: real)
    requires x >= 0.0 && 0.0 <= k <= 1.0 && part == x * k
    ensures 0.0 <= part <= x
  {
  }

  lemma SignOfFactor(d: real, k: real)
    requires d * k >= 0.0 && k > 0.0
    ensures d >= 0.0
  {
  }

  lemma QuotientBounds(x: real, y: real, k: real, l: real)
    requires 0.0 <= x <= y && 0.0 < l <= k
    ensures 0.0 <= x / k <= y / k <= y / l
  {
    var q, r, t := x / k, y / k, y / l;
    assert q * k == x && r * k == y && t * l == y;
    SignOfFactor(q, k);
    assert (r - q) * k == y - x;
    SignOfFactor(r - q, k);
    ProductKeepsOrder(l, k, r);
    assert (t - r) * l == y - r * l;
    SignOfFactor(t - r, l);
  }

  lemma FloorKeepsOrder(x: real, y: real)
    requires x <= y
    ensures x.Floor <= y.Floor
  {
  }

  lemma ScaleBounds(raw: real, margin: real, health: real, volatility: real)
    requires raw >= 0.0 && 0.0 <= margin <= 1.0 && 0.0 <= health <= 1.0 && 0.0 <= volatility <= 1.0
    ensures 0.0 <= Scale(raw, margin, health, volatility) <= raw * margin <= raw
  {
    var a := raw * margin;
    var b := a * health;
    PartOfPart(raw, a, b, b * volatility, margin, health, volatility);
  }

  lemma PartOfPart(raw: real, a: real, b: real, scaled: real, margin: real, health: real, volatility: real)
    requires raw >= 0.0 && 0.0 <= margin <= 1.0 && 0.0 <= health <= 1.0 && 0.0 <= volatility <= 1.0
    requires a == raw * margin && b == a * health && scaled == b * volatility
    ensures 0.0 <= scaled <= a <= raw
  {
    PartOf(raw, margin, a);
    PartOf(a, health, b);
    PartOf(b, volatility, scaled);
  }

  lemma ScaleKeepsOrder(x: real, y: real, margin: real, health: real, volatility: real)
    requires x <= y && margin >= 0.0 && health >= 0.0 && volatility >= 0.0
    ensures Scale(x, margin, health, volatility) <= Scale(y, margin, health, volatility)
  {
  }

  lemma CapacityIsNonNegative(snap: Snapshot, c: PacingConfig)
    requires Sane(c)
    ensures FreeCapacity(snap, c) >= snap.available as real
  {
  }

  lemma RawBounds(capacity: real, rate: real, least: real, inFlight: nat)
    requires capacity >= 0.0 && 0.0 < least <= rate
    ensures Raw(capacity, rate, inFlight) as real <= capacity / least
  {
  }

  // ---------- bounds and monotonicity ----------

  /** The request lies between zero and the tick limit, and within the margin of what the capacity could ever need. */
  lemma RequestBounds(snap: Snapshot, c: PacingConfig)
    requires Sane(c)
    ensures var n := ComputeRequest(snap, c).requested;
            0 <= n <= c.maxRequestPerTick
            && n as real <= FreeCapacity(snap, c) / c.minAnswerRate * c.safetyMargin
  {
    RateStaysWithinBounds(snap, c);
    CapacityIsNonNegative(snap, c);
    var rate, capacity := EffectiveRate(snap, c), FreeCapacity(snap, c);
    var raw := Raw(capacity, rate, InFlight(snap));
    RawBounds(capacity, rate, c.minAnswerRate, InFlight(snap));
    ScaleBounds(raw as real, c.safetyMargin, HealthFactor(snap.status), VolatilityFactor(snap, c));
    ProductKeepsOrder(raw as real, capacity / c.minAnswerRate, c.safetyMargin);
  }

  /** The snapshots agree but for the capacity and the calls in flight. */
  predicate SameConditions(a: Snapshot, b: Snapshot) {
    a.recentRate == b.recentRate && a.previousRate == b.previousRate && a.baselineRate == b.baselineRate
    && a.status == b.status
  }

  /** More free agents never ask for fewer calls, and more calls in flight never ask for more. */
  lemma RequestIsMonotone(a: Snapshot, b: Snapshot, c: PacingConfig)
    requires Sane(c) && SameConditions(a, b)
    requires a.available <= b.available && a.wrapUp + a.longConnected <= b.wrapUp + b.longConnected
    requires InFlight(b) <= InFlight(a)
    ensures ComputeRequest(a, c).requested <= ComputeRequest(b, c).requested
  {
    RateStaysWithinBounds(a, c);
    var rate := EffectiveRate(a, c);
    CapacityIsNonNegative(a, c);
    CapacityKeepsOrder(a, b, c);
    RawKeepsOrder(FreeCapacity(a, c), FreeCapacity(b, c), rate, InFlight(a), InFlight(b));
    var x, y := Raw(FreeCapacity(a, c), rate, InFlight(a)), Raw(FreeCapacity(b, c), rate, InFlight(b));
    ScaleKeepsOrder(x as real, y as real, c.safetyMargin, HealthFactor(a.status), VolatilityFactor(a, c));
  }

  lemma CapacityKeepsOrder(a: Snapshot, b: Snapshot, c: PacingConfig)
    requires Sane(c)
    requires a.available <= b.available && a.wrapUp + a.longConnected <= b.wrapUp + b.longConnected
    ensures FreeCapacity(a, c) <= FreeCapacity(b, c)
  {
    ProductKeepsOrder((a.wrapUp + a.longConnected) as real, (b.wrapUp + b.longConnected) as real, c.soonFreeWeight);
  }

  lemma RawKeepsOrder(x: real, y: real, rate: real, more: nat, fewer: nat)
    requires 0.0 <= x <= y && rate > 0.0 && fewer <= more
    ensures Raw(x, rate, more) <= Raw(y, rate, fewer)
  {
    QuotientBounds(x, y, rate, rate);
    FloorKeepsOrder(MaxR(0.0, x / rate - more as real), MaxR(0.0, y / rate - fewer as real));
  }

  /** An unhealthy provider is asked for nothing, whatever else the snapshot says. */
  lemma UnhealthyAsksForNothing(snap: Snapshot, c: PacingConfig)
    requires c.maxRequestPerTick >= 0 && snap.status == Unhealthy
    ensures ComputeRequest(snap, c).requested == 0
  {
    if Compute(snap, c).Some? {
      var raw := Raw(FreeCapacity(snap, c), EffectiveRate(snap, c), InFlight(snap));
      ScaledByZero(raw as real, c.safetyMargin, VolatilityFactor(snap, c));
    }
  }

  lemma ScaledByZero(raw: real, margin: real, volatility: real)
    ensures Scale(raw, margin, 0.0, volatility) == 0.0
  {
  }

  /** Progressive dialing asks for at most the available agents not already spoken for. */
  lemma ProgressiveNeverOverdials(snap: Snapshot, c: PacingConfig)
    requires Sane(c)
    ensures ComputeRequest(snap, ProgressiveConfig(c)).requested <= Max(0, snap.available - InFlight(snap))
  {
    var p := ProgressiveConfig(c);
    ProgressiveRaw(snap, c);
    ScaleBounds(Max(0, snap.available - InFlight(snap)) as real, 1.0, HealthFactor(snap.status),
                VolatilityFactor(snap, p));
  }

  lemma ProgressiveRaw(snap: Snapshot, c: PacingConfig)
    ensures var p := ProgressiveConfig(c);
            EffectiveRate(snap, p) == 1.0 && FreeCapacity(snap, p) == snap.available as real
            && Raw(FreeCapacity(snap, p), 1.0, InFlight(snap)) == Max(0, snap.available - InFlight(snap))
  {
  }

  /** With a healthy provider and steady answers it asks for exactly those agents, up to the tick limit. */
  lemma ProgressiveAsksForTheFree(snap: Snapshot, c: PacingConfig)
    requires Sane(c) && snap.status == Healthy
    requires !IsVolatile(snap.recentRate, snap.previousRate, c.volatilityThreshold)
    ensures ComputeRequest(snap, ProgressiveConfig(c)).requested
            == Min(Max(0, snap.available - InFlight(snap)), c.maxRequestPerTick)
  {
  }

  // ---------- the exact request ----------

  /** With `k` more calls on top of those in flight, answers at this rate still find an agent for each. */
  predicate AgentsSuffice(snap: Snapshot, c: PacingConfig, rate: real, k: int) {
    (k + snap.ringing + snap.initiated + snap.reserved) as real * rate
    <= snap.available as real + (snap.wrapUp + snap.longConnected) as real * c.soonFreeWeight
  }

  /** 7 parts recent and 3 parts baseline. */
  function Blend(snap: Snapshot): real {
    if snap.recentRate.None? then snap.baselineRate
    else (7.0 * snap.recentRate.value + 3.0 * snap.baselineRate) / 10.0
  }

  /** The answer rate used: forced, or the blend kept within its bounds. */
  predicate RateIs(snap: Snapshot, c: PacingConfig, rate: real) {
    if c.forcedAnswerRate.Some? then rate == c.forcedAnswerRate.value
    else if Blend(snap) < c.minAnswerRate then rate == c.minAnswerRate
    else if Blend(snap) > c.maxAnswerRate then rate == c.maxAnswerRate
    else rate == Blend(snap)
  }

  /** The share that caution leaves: the margin, halved or ended by the provider, cut by unsteady answers. */
  function CautiousShareOf(snap: Snapshot, c: PacingConfig): real {
    (c.safetyMargin * (if snap.status == Healthy then 1.0 else if snap.status == Degraded then 0.5 else 0.0))
    * (if Unsteady(snap, c) then c.volatilityFactor else 1.0)
  }

  predicate Unsteady(snap: Snapshot, c: PacingConfig) {
    snap.recentRate.Some? && snap.previousRate.Some?
    && (snap.recentRate.value > snap.previousRate.value + c.volatilityThreshold
        || snap.previousRate.value > snap.recentRate.value + c.volatilityThreshold)
  }

  /** `n` calls are within that share of `raw` calls, and within the tick limit. */
  predicate ShareReaches(snap: Snapshot, c: PacingConfig, raw: nat, n: int) {
    n <= c.maxRequestPerTick && n as real <= raw as real * CautiousShareOf(snap, c)
  }

  lemma RateIsBlended(snap: Snapshot, c: PacingConfig)
    requires Sane(c)
    ensures RateIs(snap, c, EffectiveRate(snap, c))
  {
  }

  lemma RawIsWhatSuffices(capacity: real, rate: real, inFlight: nat, k: int)
    requires k > 0 && rate > 0.0
    ensures k <= Raw(capacity, rate, inFlight) <==> (k + inFlight) as real * rate <= capacity
  {
    ProductIsQuotient((k + inFlight) as real, capacity, rate);
    WholePart(MaxR(0.0, capacity / rate - inFlight as real), k);
  }

  lemma ProductIsQuotient(x: real, y: real, k: real)
    requires k > 0.0
    ensures x * k <= y <==> x <= y / k
  {
    var q := y / k;
    assert q * k == y;
    if x <= q {
      ProductKeepsOrder(x, q, k);
    } else {
      StrictProduct(q, x, k);
    }
  }

  lemma StrictProduct(x: real, y: real, k: real)
    requires x < y && k > 0.0
    ensures x * k < y * k
  {
  }

  lemma ScaleIsShare(raw: real, margin: real, health: real, volatility: real)
    ensures Scale(raw, margin, health, volatility) == raw * (margin * health * volatility)
  {
  }

  lemma ShareAsScaled(snap: Snapshot, c: PacingConfig)
    ensures CautiousShareOf(snap, c) == c.safetyMargin * HealthFactor(snap.status) * VolatilityFactor(snap, c)
  {
  }

  lemma WholePart(x: real, n: int)
    ensures n <= x.Floor <==> n as real <= x
  {
  }

  /**
   * The request, exactly: of the most calls whose answers would still find an agent each, the share that caution
   * leaves, up to the tick limit.
   */
  lemma RequestIsExact(snap: Snapshot, c: PacingConfig) returns (rate: real, raw: nat)
    requires Sane(c)
    ensures RateIs(snap, c, rate)
    ensures forall k :: k > 0 ==> (k <= raw <==> AgentsSuffice(snap, c, rate, k))
    ensures forall n :: n > 0 ==> (n <= ComputeRequest(snap, c).requested <==> ShareReaches(snap, c, raw, n))
    ensures var r := ComputeRequest(snap, c);
            r.requested >= 0 && r.mode == snap.mode && r.capturedAt == snap.capturedAt
  {
    rate := EffectiveRate(snap, c);
    RateIsBlended(snap, c);
    RateStaysWithinBounds(snap, c);
    raw := Raw(FreeCapacity(snap, c), rate, InFlight(snap));
    forall k | k > 0 ensures k <= raw <==> AgentsSuffice(snap, c, rate, k) {
      RawIsWhatSuffices(FreeCapacity(snap, c), rate, InFlight(snap), k);
    }
    RequestBounds(snap, c);
    forall n | n > 0 ensures n <= ComputeRequest(snap, c).requested <==> ShareReaches(snap, c, raw, n) {
      RequestReaches(snap, c, raw, n);
    }
  }

  lemma RequestReaches(snap: Snapshot, c: PacingConfig, raw: nat, n: int)
    requires EffectiveRate(snap, c) != 0.0 && raw == Raw(FreeCapacity(snap, c), EffectiveRate(snap, c), InFlight(snap))
    ensures n <= ComputeRequest(snap, c).requested <==> ShareReaches(snap, c, raw, n)
  {
    ShareAsScaled(snap, c);
    var scaled := Scale(raw as real, c.safetyMargin, HealthFactor(snap.status), VolatilityFactor(snap, c));
    ScaleIsShare(raw as real, c.safetyMargin, HealthFactor(snap.status), VolatilityFactor(snap, c));
    WholePart(scaled, n);
    assert ComputeRequest(snap, c).requested == Capped(scaled, c.maxRequestPerTick);
  }
}
