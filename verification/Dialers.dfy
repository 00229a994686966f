/** One tick of a dialer: pacing asks, safety caps, the allocator places. */
module Dialers {
  import opened Basics
  import opened AgentMachine
  import opened CallMachine
  import opened Documents
  import Store
  import Handlers
  import Linking
  import opened ProviderHealth
  import opened Safety
  import opened Pacing
  import opened ConcurrencyCap
  import opened TickOutcomes
  import opened Repositories
  import opened Services

  /** What the pacing engine is shown besides the counts in the store. */
  datatype Trends = Trends(longConnected: nat, recentRate: Option<real>, previousRate: Option<real>, baselineRate: real)

  function TakeSnapshot(
    w: Store.World, campaign: CampaignId, mode: Mode, trends: Trends, status: HealthStatus
  ): Snapshot {
    Snapshot(
      mode,
      |AgentsIn(w, campaign, AgentState.Available)|,
      |AgentsIn(w, campaign, AgentState.Reserved)|,
      |AgentsIn(w, campaign, AgentState.WrapUp)|,
      trends.longConnected,
      |CallsIn(w, campaign, CallState.Ringing)|,
      |CallsIn(w, campaign, CallState.Initiated)|,
      trends.recentRate, trends.previousRate, trends.baselineRate,
      status,
      w.now)
  }

  /** Progressive dialing runs the same engine on its own configuration. */
  function EngineConfig(c: PacingConfig, mode: Mode): PacingConfig {
    match mode
    case Progressive => ProgressiveConfig(c)
    case Predictive => c
  }

  datatype Campaign = Campaign(id: CampaignId, mode: Mode, cap: int, provider: ProviderId)

  class Dialer {
    const db: Database
    const safety: SafetyController
    const allocator: CallAllocator
    const config: PacingConfig

    constructor (db: Database, settings: Store.Settings, safety: SafetyController, config: PacingConfig)
      ensures Valid() && this.db == db && this.safety == safety && this.config == config
      ensures allocator.settings == settings
    {
      this.db := db;
      this.safety := safety;
      this.config := config;
      allocator := new CallAllocator(db, settings);
    }

    predicate Valid() {
      allocator.Valid() && allocator.db == db
    }

    /**
     * The clock is read once for the snapshot and once for its age, the provider's health once for each.
     * `readable` is whether the safety controller could read the capacity: if not, nothing is placed.
     */
    method Tick(
      campaign: Campaign, worker: WorkerId, trends: Trends, atSnapshot: HealthStatus, readable: bool,
      atSafety: HealthStatus, failureRate: real, inputs: seq<Handlers.DialInput>
    ) returns (request: Request, decision: Decision, tally: Handlers.Tally)
      requires Valid()
      modifies db, safety.availability
      ensures var w1 := Store.Tick(old(db.State()));
              request == ComputeRequest(TakeSnapshot(w1, campaign.id, campaign.mode, trends, atSnapshot),
                                        EngineConfig(config, campaign.mode))
              && var w2 := Store.Tick(w1);
                 var drop := Detect(old(safety.availability.PreviousOf(campaign.id)),
                                    |AgentsIn(w2, campaign.id, AgentState.Available)|, safety.availability.threshold);
                 if readable then
                   (db.State(), decision, tally)
                   == DialerTick(allocator.settings, safety.settings, w2, campaign.id, campaign.cap, campaign.provider,
                                 worker, request, failureRate, atSafety, if drop.Some? then drop.value else 0.0, inputs)
                 else (db.State(), decision, tally) == (w2, FailClosed(request), Handlers.Tally(0, 0, 0, 0))
    {
      var _ := db.Now();
      var snapshot := TakeSnapshot(db.State(), campaign.id, campaign.mode, trends, atSnapshot);
      request := ComputeRequest(snapshot, EngineConfig(config, campaign.mode));
      var now := db.Now();
      var reading := if readable then Some(ReadCapacity(db.State(), campaign.id, failureRate, atSafety)) else None;
      decision := safety.Evaluate(campaign.id, campaign.cap, request, reading, now);
      tally := allocator.Allocate(campaign.id, campaign.provider, worker, UpToApproved(inputs, decision.approved));
    }
  }

  /** From pacing to placed calls, on a linked store: no stage exceeds the one before it, or the cap. */
  lemma StagesNarrow(
    s: Store.Settings, safety: SafetySettings, c: PacingConfig, w: Store.World, campaign: Campaign, worker: WorkerId,
    snap: Snapshot, rate: real, health: HealthStatus, drop: real, inputs: seq<Handlers.DialInput>
  )
    requires Linking.Inv(s, w) && Sane(c)
    ensures var request := ComputeRequest(snap, EngineConfig(c, campaign.mode));
            var (w', d, t) := DialerTick(s, safety, w, campaign.id, campaign.cap, campaign.provider, worker, request,
                                         rate, health, drop, inputs);
            && t.placed <= t.attempted <= d.approved <= request.requested <= c.maxRequestPerTick
            && (health == Unhealthy ==> t.attempted == 0)
            && (campaign.mode == Progressive ==> t.attempted <= Max(0, snap.available - InFlight(snap)))
  {
    var request := ComputeRequest(snap, EngineConfig(c, campaign.mode));
    RequestIsSane(snap, c, campaign.mode);
    TickIsBounded(s, safety, w, campaign.id, campaign.cap, campaign.provider, worker, request, rate, health, drop,
                  inputs);
    var r := ReadCapacity(w, campaign.id, rate, health);
    VerdictsMeanWhatTheySay(safety, campaign.cap, request, r, drop, w.now);
    ApprovalFits(campaign.cap, request, r, RingingLimit(safety, r), IsStale(safety, r, request, w.now));
  }

  /** The snapshot counts the campaign's own documents and is dated by the clock. */
  lemma SnapshotCountsDocuments(
    w: Store.World, campaign: CampaignId, mode: Mode, trends: Trends, status: HealthStatus
  )
    ensures var snap := TakeSnapshot(w, campaign, mode, trends, status);
            && snap.available == |FreeIn(w, campaign)| && snap.reserved == |ReservedIn(w, campaign)|
            && snap.wrapUp == |set id | id in w.agents && w.agents[id].campaign == campaign
                                        && w.agents[id].state == AgentState.WrapUp|
            && snap.ringing == |RingingIn(w, campaign)|
            && snap.initiated == |set k | k in w.calls && k.campaign == campaign
                                          && w.calls[k].state == CallState.Initiated|
            && snap.capturedAt == w.now && snap.mode == mode && snap.status == status
  {
    assert AgentsIn(w, campaign, AgentState.Available) == FreeIn(w, campaign);
    assert AgentsIn(w, campaign, AgentState.Reserved) == ReservedIn(w, campaign);
    assert AgentsIn(w, campaign, AgentState.WrapUp)
        == set id | id in w.agents && w.agents[id].campaign == campaign && w.agents[id].state == AgentState.WrapUp;
    assert CallsIn(w, campaign, CallState.Ringing) == RingingIn(w, campaign);
    assert CallsIn(w, campaign, CallState.Initiated)
        == set k | k in w.calls && k.campaign == campaign && w.calls[k].state == CallState.Initiated;
  }

  lemma RequestIsSane(snap: Snapshot, c: PacingConfig, mode: Mode)
    requires Sane(c)
    ensures 0 <= ComputeRequest(snap, EngineConfig(c, mode)).requested <= c.maxRequestPerTick
    ensures mode == Progressive ==>
              ComputeRequest(snap, EngineConfig(c, mode)).requested <= Max(0, snap.available - InFlight(snap))
  {
    RequestBounds(snap, EngineConfig(c, mode));
    ProgressiveNeverOverdials(snap, c);
  }
}
