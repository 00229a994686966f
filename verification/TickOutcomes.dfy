/** What a dialer's tick approves and attempts: exactly, on the stored documents and the attempts themselves. */
module TickOutcomes {
  import opened Basics
  import opened AgentMachine
  import opened CallMachine
  import opened Documents
  import opened Store
  import opened Handlers
  import opened Linking
  import opened Exclusivity
  import opened Conservation
  import opened ProviderHealth
  import opened Safety
  import opened ConcurrencyCap
  import opened SweepOutcomes

  // ---------- the attempts ----------

  /** The attempts were made one after another, each on the store the one before it left, with the inputs in order. */
  predicate MadeInOrder(
    s: Settings, campaign: CampaignId, via: ProviderId, worker: WorkerId, inputs: seq<DialInput>, ws: seq<World>,
    made: seq<Attempt>
  ) {
    && |ws| == |made| + 1 && |made| <= |inputs|
    && forall i :: 0 <= i < |made| ==> AttemptDial(s, ws[i], campaign, via, worker, inputs[i]) == (ws[i + 1], made[i])
  }

  lemma FirstMade(
    s: Settings, campaign: CampaignId, via: ProviderId, worker: WorkerId, inputs: seq<DialInput>, w: World,
    w1: World, a: Attempt, rest: seq<World>, made: seq<Attempt>
  )
    requires inputs != [] && AttemptDial(s, w, campaign, via, worker, inputs[0]) == (w1, a)
    requires MadeInOrder(s, campaign, via, worker, inputs[1..], rest, made) && rest[0] == w1
    ensures MadeInOrder(s, campaign, via, worker, inputs, [w] + rest, [a] + made)
  {
  }

  lemma {:induction false} LoopTrace(
    s: Settings, w: World, campaign: CampaignId, via: ProviderId, worker: WorkerId, inputs: seq<DialInput>,
    contentions: nat, tally: Tally
  ) returns (ws: seq<World>)
    ensures MadeInOrder(s, campaign, via, worker, inputs, ws,
                        Outcomes(s, w, campaign, via, worker, inputs, contentions))
    ensures ws[0] == w && ws[|ws| - 1] == AllocateFrom(s, w, campaign, via, worker, inputs, contentions, tally).0
    decreases |inputs|
  {
    if inputs == [] {
      ws := [w];
    } else {
      var (w1, a) := AttemptDial(s, w, campaign, via, worker, inputs[0]);
      var run := if a.ContendedAttempt? then contentions + 1 else 0;
      if run >= MAX_CONSECUTIVE_CONTENTIONS {
        ws := [w, w1];
      } else {
        var rest := LoopTrace(s, w1, campaign, via, worker, inputs[1..], run, Count(tally, a));
        FirstMade(s, campaign, via, worker, inputs, w, w1, a, rest,
                  Outcomes(s, w1, campaign, via, worker, inputs[1..], run));
        ws := [w] + rest;
      }
    }
  }

  /**
   * A tick makes as many attempts as were approved, with its inputs in order, each on the store the one before
   * left; it makes fewer exactly when the last three it made were contended.
   */
  lemma TickAttemptsWhatIsApproved(
    s: Settings, safety: SafetySettings, w: World, campaign: CampaignId, cap: int, via: ProviderId, worker: WorkerId,
    req: Request, rate: real, health: HealthStatus, drop: real, inputs: seq<DialInput>
  ) returns (ws: seq<World>, made: seq<Attempt>)
    requires Inv(s, w)
    requires var d := DialerTick(s, safety, w, campaign, cap, via, worker, req, rate, health, drop, inputs).1;
             |inputs| >= d.approved
    ensures var (w', d, t) := DialerTick(s, safety, w, campaign, cap, via, worker, req, rate, health, drop, inputs);
            && MadeInOrder(s, campaign, via, worker, inputs, ws, made) && ws[0] == w && ws[|ws| - 1] == w'
            && Tallied(t, made) && |made| <= d.approved
            && (|made| < d.approved ==> EndsInThree(made)) && NoneBeforeTheEnd(made)
  {
    var d := DialerTick(s, safety, w, campaign, cap, via, worker, req, rate, health, drop, inputs).1;
    var first := inputs[..d.approved];
    assert UpToApproved(inputs, d.approved) == first;
    ws, made := AllocationInOrder(s, w, campaign, via, worker, first);
    assert forall i :: 0 <= i < |first| ==> first[i] == inputs[i];
  }

  /** The tally of the attempts made, each kind by its positions. */
  predicate Tallied(t: Tally, made: seq<Attempt>) {
    && t.attempted == |made|
    && t.placed == |set i | 0 <= i < |made| && made[i] == AllocatedAttempt|
    && t.failed == |set i | 0 <= i < |made| && made[i] == FailedAttempt|
    && t.contended == |set i | 0 <= i < |made| && made[i] == ContendedAttempt|
  }

  lemma AllocationInOrder(
    s: Settings, w: World, campaign: CampaignId, via: ProviderId, worker: WorkerId, inputs: seq<DialInput>
  ) returns (ws: seq<World>, made: seq<Attempt>)
    requires Inv(s, w)
    ensures var (w', t) := Allocate(s, w, campaign, via, worker, inputs);
            && MadeInOrder(s, campaign, via, worker, inputs, ws, made) && ws[0] == w && ws[|ws| - 1] == w'
            && Tallied(t, made) && (|made| < |inputs| ==> EndsInThree(made)) && NoneBeforeTheEnd(made)
  {
    made := Outcomes(s, w, campaign, via, worker, inputs, 0);
    ws := LoopTrace(s, w, campaign, via, worker, inputs, 0, Tally(0, 0, 0, 0));
    AllocationIsConserved(s, w, campaign, via, worker, inputs);
    HowManyArePositions(made, AllocatedAttempt);
    HowManyArePositions(made, FailedAttempt);
    HowManyArePositions(made, ContendedAttempt);
  }

  /** The positions of `a` from `lo` on. */
  function PositionsFrom(made: seq<Attempt>, a: Attempt, lo: nat): set<int> {
    set i | lo <= i < |made| && made[i] == a
  }

  lemma {:induction false} HowManyFrom(made: seq<Attempt>, a: Attempt, lo: nat)
    requires lo <= |made|
    ensures HowMany(made[lo..], a) == |PositionsFrom(made, a, lo)|
    decreases |made| - lo
  {
    if lo == |made| {
      assert PositionsFrom(made, a, lo) == {};
    } else {
      HowManyFrom(made, a, lo + 1);
      assert made[lo..][1..] == made[lo + 1..];
      assert PositionsFrom(made, a, lo)
          == if made[lo] == a then {lo} + PositionsFrom(made, a, lo + 1) else PositionsFrom(made, a, lo + 1);
    }
  }

  lemma HowManyArePositions(made: seq<Attempt>, a: Attempt)
    ensures HowMany(made, a) == |set i | 0 <= i < |made| && made[i] == a|
  {
    HowManyFrom(made, a, 0);
    assert made[0..] == made;
    assert PositionsFrom(made, a, 0) == set i | 0 <= i < |made| && made[i] == a;
  }

  // ---------- what may be placed ----------

  function FreeIn(w: World, campaign: CampaignId): set<AgentId> {
    set id | id in w.agents && w.agents[id].campaign == campaign && w.agents[id].state == AgentState.Available
  }

  function ReservedIn(w: World, campaign: CampaignId): set<AgentId> {
    set id | id in w.agents && w.agents[id].campaign == campaign && w.agents[id].state == AgentState.Reserved
  }

  function OpenIn(w: World, campaign: CampaignId): set<CallKey> {
    set k | k in w.calls && k.campaign == campaign && !w.calls[k].terminal
  }

  function RingingIn(w: World, campaign: CampaignId): set<CallKey> {
    set k | k in w.calls && k.campaign == campaign && w.calls[k].state == CallState.Ringing
  }

  /** What the rules ask of `n` more calls, on the documents: freshness, request, agents, cap and ringing. */
  predicate RoomFor(
    safety: SafetySettings, w: World, campaign: CampaignId, cap: int, req: Request, health: HealthStatus, n: int
  ) {
    && health != Unhealthy && n <= req.requested
    && Max(0, w.now - req.capturedAt) as real <= safety.maxSnapshotAge
    && (forall id :: id in w.agents ==> !RanOut(w.agents[id], w.now))
    && n + |ReservedIn(w, campaign)| <= |FreeIn(w, campaign)|
    && n + |OpenIn(w, campaign)| <= cap
    && RingingFits(safety.maxRingingRatio, |FreeIn(w, campaign)|, n + |RingingIn(w, campaign)|)
  }

  /** No more calls ring than the ratio times the free agents. */
  predicate RingingFits(ratio: real, free: nat, ringing: int) {
    ringing as real <= ratio * free as real
  }

  lemma WholeOf(x: real, n: int)
    requires n > 0
    ensures n <= Truncate(x) <==> n as real <= x
  {
  }

  lemma ApprovedIff(cap: int, req: Request, r: Reading, ceiling: int, stale: bool, n: int)
    requires n > 0
    ensures n <= ShortApproval(cap, req, r, ceiling, stale)
            <==> !stale && r.provider != Unhealthy && n <= req.requested && n + r.reserved <= r.available
                 && n + r.active <= cap && n + r.ringing <= ceiling
  {
  }

  lemma ReadFromStore(s: Settings, w: World, campaign: CampaignId, rate: real, health: HealthStatus)
    requires Inv(s, w)
    ensures var r := ReadCapacity(w, campaign, rate, health);
            && r.reserved == |ReservedIn(w, campaign)| && r.available == |FreeIn(w, campaign)|
            && r.active == |OpenIn(w, campaign)| && r.ringing == |RingingIn(w, campaign)| && r.provider == health
            && (r.expiredLeases == 0 <==> forall id :: id in w.agents ==> !RanOut(w.agents[id], w.now))
  {
    Consistent(s, w);
    CountsAddUp(w, campaign, rate, health);
    OpenAreActive(s, w, campaign);
    NoneExpired(w);
    assert AgentsIn(w, campaign, AgentState.Reserved) == ReservedIn(w, campaign);
    assert AgentsIn(w, campaign, AgentState.Available) == FreeIn(w, campaign);
    assert CallsIn(w, campaign, CallState.Ringing) == RingingIn(w, campaign);
  }

  lemma NoneExpired(w: World)
    ensures |ExpiredAgents(w, w.now)| == 0 <==> forall id :: id in w.agents ==> !RanOut(w.agents[id], w.now)
  {
    RanOutIsExpired(w, w.now);
    var expired := ExpiredAgents(w, w.now);
    if |expired| == 0 {
      forall id | id in w.agents ensures !RanOut(w.agents[id], w.now) {
        assert id !in expired;
      }
    } else {
      var id :| id in expired;
    }
  }

  lemma OpenAreActive(s: Settings, w: World, campaign: CampaignId)
    requires Inv(s, w)
    ensures ActiveCalls(w, campaign) == OpenIn(w, campaign)
  {
    forall k | k in w.calls ensures CallConsistent(w.calls[k]) && w.calls[k].rank >= 2 {
      assert CallOk(w, k);
    }
  }

  lemma CeilingFits(safety: SafetySettings, r: Reading, n: int)
    requires n > 0
    ensures n <= RingingLimit(safety, r) <==> RingingFits(safety.maxRingingRatio, r.available, n)
  {
    WholeOf(safety.maxRingingRatio * r.available as real, n);
  }

  lemma RoomAsRead(
    safety: SafetySettings, w: World, campaign: CampaignId, cap: int, req: Request, r: Reading, n: int
  )
    requires n > 0 && r.reserved == |ReservedIn(w, campaign)| && r.available == |FreeIn(w, campaign)|
    requires r.active == |OpenIn(w, campaign)| && r.ringing == |RingingIn(w, campaign)|
    requires r.expiredLeases == 0 <==> forall id :: id in w.agents ==> !RanOut(w.agents[id], w.now)
    ensures n <= ShortApproval(cap, req, r, RingingLimit(safety, r), IsStale(safety, r, req, w.now))
            <==> RoomFor(safety, w, campaign, cap, req, r.provider, n)
  {
    ApprovedIff(cap, req, r, RingingLimit(safety, r), IsStale(safety, r, req, w.now), n);
    CeilingFits(safety, r, n + r.ringing);
  }

  /** A tick may place `n` calls exactly when the documents leave room for `n` by every rule. */
  lemma TickMayPlaceIff(
    s: Settings, safety: SafetySettings, w: World, campaign: CampaignId, cap: int, via: ProviderId, worker: WorkerId,
    req: Request, rate: real, health: HealthStatus, drop: real, inputs: seq<DialInput>, n: int
  )
    requires Inv(s, w) && n > 0
    ensures n <= DialerTick(s, safety, w, campaign, cap, via, worker, req, rate, health, drop, inputs).1.approved
            <==> RoomFor(safety, w, campaign, cap, req, health, n)
  {
    var r := ReadCapacity(w, campaign, rate, health);
    VerdictsMeanWhatTheySay(safety, cap, req, r, drop, w.now);
    ReadFromStore(s, w, campaign, rate, health);
    RoomAsRead(safety, w, campaign, cap, req, r, n);
  }
}
