/** What the two dialing modes are approved for on the same snapshot and the same reading of capacity. */
module ModesCompared {
  import opened Basics
  import opened Documents
  import opened ProviderHealth
  import opened Safety
  import opened Pacing
  import opened Dialers

  /** What a mode asks for. */
  function Asked(snap: Snapshot, c: PacingConfig, mode: Mode): Request {
    ComputeRequest(snap.(mode := mode), EngineConfig(c, mode))
  }

  /** What it is then approved for. */
  function ApprovedIn(
    mode: Mode, safety: SafetySettings, cap: int, c: PacingConfig, snap: Snapshot, r: Reading, drop: real, now: Time
  ): nat {
    Decide(safety, cap, Asked(snap, c, mode), r, drop, now).approved
  }

  /** The most any request could be approved for. */
  function Room(safety: SafetySettings, cap: int, snap: Snapshot, r: Reading, now: Time): nat {
    if Max(0, now - snap.capturedAt) as real > safety.maxSnapshotAge || r.expiredLeases > 0
       || r.provider == Unhealthy then 0
    else Min(Max(0, r.available - r.reserved), Min(Max(0, cap - r.active), Max(0, RingingLimit(safety, r) - r.ringing)))
  }

  lemma ApprovedWithinRoom(
    mode: Mode, safety: SafetySettings, cap: int, c: PacingConfig, snap: Snapshot, r: Reading, drop: real, now: Time
  )
    ensures ApprovedIn(mode, safety, cap, c, snap, r, drop, now)
            == Max(0, Min(Asked(snap, c, mode).requested, Room(safety, cap, snap, r, now)))
  {
    var req := Asked(snap, c, mode);
    EightLimitsAreFive(safety, cap, req, r, RingingLimit(safety, r), IsStale(safety, r, req, now), drop);
  }

  /**
   * In one tick predictive dialing is approved for more calls than progressive dialing exactly when what
   * progressive dialing asks for falls short both of the room there is and of what predictive dialing asks for.
   */
  lemma PredictiveBeatsProgressiveIff(
    safety: SafetySettings, cap: int, c: PacingConfig, snap: Snapshot, r: Reading, drop: real, now: Time
  )
    ensures ApprovedIn(Predictive, safety, cap, c, snap, r, drop, now)
            > ApprovedIn(Progressive, safety, cap, c, snap, r, drop, now)
            <==> Max(0, Asked(snap, c, Progressive).requested)
                 < Min(Asked(snap, c, Predictive).requested, Room(safety, cap, snap, r, now))
  {
    ApprovedWithinRoom(Predictive, safety, cap, c, snap, r, drop, now);
    ApprovedWithinRoom(Progressive, safety, cap, c, snap, r, drop, now);
  }

  /** How much of what it might ask for progressive dialing asks for, with this provider and these answers. */
  function Caution(snap: Snapshot, c: PacingConfig): real {
    HealthFactor(snap.status) * VolatilityFactor(snap, c)
  }

  /** Its cautious share of the free agents. */
  function CautiousShare(snap: Snapshot, c: PacingConfig): int {
    (Max(0, snap.available - snap.reserved) as real * Caution(snap, c)).Floor
  }

  /** No call is ringing or initiated, and the reading finds no more agents free than the snapshot. */
  predicate NothingBeingSetUp(snap: Snapshot, r: Reading) {
    snap.ringing + snap.initiated == 0 && r.available - r.reserved <= snap.available - snap.reserved
  }

  /** Without calls being set up, progressive dialing asks for its cautious share of the free agents. */
  lemma ProgressiveShare(snap: Snapshot, c: PacingConfig)
    requires Sane(c) && snap.ringing + snap.initiated == 0
    ensures Asked(snap, c, Progressive).requested
            == Min(CautiousShare(snap, c), c.maxRequestPerTick)
  {
    var p, own := snap.(mode := Progressive), ProgressiveConfig(c);
    ProgressiveRaw(p, c);
    var raw := Max(0, snap.available - snap.reserved) as real;
    Regrouped(raw, HealthFactor(snap.status), VolatilityFactor(snap, c));
    assert Pacing.Compute(p, own) == Some(Capped(Scale(raw, 1.0, HealthFactor(snap.status), VolatilityFactor(snap, c)),
                                          c.maxRequestPerTick));
  }

  lemma Regrouped(raw: real, health: real, volatility: real)
    ensures Scale(raw, 1.0, health, volatility) == raw * (health * volatility)
  {
  }

  /**
   * Without calls being set up there is a win exactly when progressive dialing's cautious share of the free
   * agents leaves room that predictive dialing asks for.
   */
  lemma CautionWinsIff(
    safety: SafetySettings, cap: int, c: PacingConfig, snap: Snapshot, r: Reading, drop: real, now: Time
  )
    requires Sane(c) && NothingBeingSetUp(snap, r)
    ensures ApprovedIn(Predictive, safety, cap, c, snap, r, drop, now)
            > ApprovedIn(Progressive, safety, cap, c, snap, r, drop, now)
            <==> CautiousShare(snap, c)
                 < Min(Asked(snap, c, Predictive).requested, Room(safety, cap, snap, r, now))
  {
    var free := Max(0, snap.available - snap.reserved) as real;
    ProgressiveShare(snap, c);
    CautionIsAShare(snap, c);
    ProductIsNonNegative(free, Caution(snap, c));
    RequestIsSane(snap.(mode := Predictive), c, Predictive);
    PredictiveBeatsProgressiveIff(safety, cap, c, snap, r, drop, now);
  }

  lemma CautionIsAShare(snap: Snapshot, c: PacingConfig)
    requires Sane(c)
    ensures 0.0 <= Caution(snap, c) <= 1.0
  {
    PartOf(HealthFactor(snap.status), VolatilityFactor(snap, c), Caution(snap, c));
  }

  lemma ProductIsNonNegative(x: real, y: real)
    requires x >= 0.0 && y >= 0.0
    ensures x * y >= 0.0
  {
  }

  lemma WholeShare(snap: Snapshot, c: PacingConfig)
    requires Caution(snap, c) == 1.0
    ensures CautiousShare(snap, c) == Max(0, snap.available - snap.reserved)
  {
  }

  lemma CalmNeverWins(
    safety: SafetySettings, cap: int, c: PacingConfig, snap: Snapshot, r: Reading, drop: real, now: Time
  )
    requires Sane(c) && NothingBeingSetUp(snap, r) && Caution(snap, c) == 1.0
    ensures ApprovedIn(Predictive, safety, cap, c, snap, r, drop, now)
            <= ApprovedIn(Progressive, safety, cap, c, snap, r, drop, now)
  {
    var free := Max(0, snap.available - snap.reserved);
    CautionWinsIff(safety, cap, c, snap, r, drop, now);
    WholeShare(snap, c);
    RoomIsFree(safety, cap, snap, r, now, free);
  }

  lemma RoomIsFree(safety: SafetySettings, cap: int, snap: Snapshot, r: Reading, now: Time, free: nat)
    requires Max(0, r.available - r.reserved) <= free
    ensures Room(safety, cap, snap, r, now) <= free
  {
  }

  lemma UnhealthyNeverWins(
    safety: SafetySettings, cap: int, c: PacingConfig, snap: Snapshot, r: Reading, drop: real, now: Time
  )
    requires Sane(c) && snap.status == Unhealthy
    ensures ApprovedIn(Predictive, safety, cap, c, snap, r, drop, now) == 0
  {
    UnhealthyAsksForNothing(snap.(mode := Predictive), c);
    ApprovedWithinRoom(Predictive, safety, cap, c, snap, r, drop, now);
  }

  /**
   * A win has one of two causes. Calls are being set up: their agents no longer count as available, and
   * progressive dialing subtracts the calls from the available agents all the same. Or progressive dialing
   * is cautious, with a degraded provider or unsteady answers.
   */
  lemma WinsHaveTwoCauses(
    safety: SafetySettings, cap: int, c: PacingConfig, snap: Snapshot, r: Reading, drop: real, now: Time
  )
    requires Sane(c) && r.available - r.reserved <= snap.available - snap.reserved
    ensures ApprovedIn(Predictive, safety, cap, c, snap, r, drop, now)
            > ApprovedIn(Progressive, safety, cap, c, snap, r, drop, now) ==>
              snap.ringing + snap.initiated > 0 || snap.status == Degraded
              || IsVolatile(snap.recentRate, snap.previousRate, c.volatilityThreshold)
  {
    if snap.status == Unhealthy {
      UnhealthyNeverWins(safety, cap, c, snap, r, drop, now);
    } else if snap.ringing + snap.initiated == 0 && Caution(snap, c) == 1.0 {
      CalmNeverWins(safety, cap, c, snap, r, drop, now);
    }
  }

  // The defaults of the application's settings.
  const DEFAULT_PACING := PacingConfig(0.5, 0.85, 0.05, 0.95, 0.15, 0.6, 50, None)
  const DEFAULT_SAFETY := SafetySettings(5000.0, 0.25, 2.0, 0.3)

  /** Ten agents free and five more on ringing calls, at a baseline of one answer in four: 10 calls against 5. */
  lemma PredictiveCanWin()
    ensures var snap := Snapshot(Predictive, 10, 0, 0, 0, 5, 0, None, None, 0.25, Healthy, 0);
            var r := Reading(10, 0, 5, 5, 0, 0.0, Healthy);
            && ApprovedIn(Predictive, DEFAULT_SAFETY, 100, DEFAULT_PACING, snap, r, 0.0, 0) == 10
            && ApprovedIn(Progressive, DEFAULT_SAFETY, 100, DEFAULT_PACING, snap, r, 0.0, 0) == 5
  {
    var snap := Snapshot(Predictive, 10, 0, 0, 0, 5, 0, None, None, 0.25, Healthy, 0);
    var r := Reading(10, 0, 5, 5, 0, 0.0, Healthy);
    ApprovedWithinRoom(Predictive, DEFAULT_SAFETY, 100, DEFAULT_PACING, snap, r, 0.0, 0);
    ApprovedWithinRoom(Progressive, DEFAULT_SAFETY, 100, DEFAULT_PACING, snap, r, 0.0, 0);
    assert Asked(snap, DEFAULT_PACING, Predictive).requested == 29;
    assert Asked(snap, DEFAULT_PACING, Progressive).requested == 5;
    assert Room(DEFAULT_SAFETY, 100, snap, r, 0) == 10;
  }

  lemma DegradedRequests(snap: Snapshot)
    requires snap == Snapshot(Predictive, 10, 0, 0, 0, 0, 0, None, None, 0.25, Degraded, 0)
    ensures Asked(snap, DEFAULT_PACING, Predictive).requested == 17
    ensures Asked(snap, DEFAULT_PACING, Progressive).requested == 5
  {
    ProgressiveShare(snap, DEFAULT_PACING);
    assert EffectiveRate(snap, DEFAULT_PACING) == 0.25 && FreeCapacity(snap, DEFAULT_PACING) == 10.0;
    assert Raw(10.0, 0.25, 0) == 40 && Scale(40.0, 0.85, 0.5, 1.0) == 17.0;
  }

  /** Ten agents free, no call being set up and a degraded provider: 10 calls against 5 again. */
  lemma CautionLetsPredictiveWin()
    ensures var snap := Snapshot(Predictive, 10, 0, 0, 0, 0, 0, None, None, 0.25, Degraded, 0);
            var r := Reading(10, 0, 0, 0, 0, 0.0, Degraded);
            && ApprovedIn(Predictive, DEFAULT_SAFETY, 100, DEFAULT_PACING, snap, r, 0.0, 0) == 10
            && ApprovedIn(Progressive, DEFAULT_SAFETY, 100, DEFAULT_PACING, snap, r, 0.0, 0) == 5
  {
    var snap := Snapshot(Predictive, 10, 0, 0, 0, 0, 0, None, None, 0.25, Degraded, 0);
    var r := Reading(10, 0, 0, 0, 0, 0.0, Degraded);
    ApprovedWithinRoom(Predictive, DEFAULT_SAFETY, 100, DEFAULT_PACING, snap, r, 0.0, 0);
    ApprovedWithinRoom(Progressive, DEFAULT_SAFETY, 100, DEFAULT_PACING, snap, r, 0.0, 0);
    DegradedRequests(snap);
    assert Room(DEFAULT_SAFETY, 100, snap, r, 0) == 10;
  }
}
