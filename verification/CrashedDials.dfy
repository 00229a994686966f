/**
 * A worker that stops for good in the middle of a dial, and what one run of recovery, late enough and
 * with room, makes of it: nobody is shared, and exactly when the attempt is counted.
 */
module CrashedDials {
  import opened Basics
  import opened AgentMachine
  import opened CallMachine
  import opened Documents
  import opened Store
  import opened Effects
  import opened Handlers
  import opened Linking
  import opened DialKeepsLinks
  import opened RecoveryKeepsLinks
  import opened SweepsKeepLinks
  import opened LimitedSweeps
  import opened RecoveryFixpoint
  import opened CancelledDials
  import opened DialResidue

  // ---------- one run of sweeps ----------

  /** By `now` nobody holds the dial's borrower on a live lease. */
  predicate BorrowerIsLeft(x: World, k: CallKey, now: Time) {
    && k.borrower in x.borrowers
    && (x.borrowers[k.borrower].lease.None? || BorrowerLeaseExpired(x.borrowers[k.borrower], now))
  }

  /** By `now` nobody holds its agent either, and its call, if open, is stale and has nobody's borrower. */
  predicate Abandoned(s: Settings, x: World, k: CallKey, now: Time) {
    && k.agent in x.agents && k.borrower in x.borrowers
    && (if x.agents[k.agent].lease.None? then Resting(x.agents[k.agent]) else AgentLeaseExpired(x.agents[k.agent], now))
    && (Active(x, k) ==> BorrowerIsLeft(x, k, now) && Stale(x.calls[k], now - s.staleTimeout))
  }

  lemma ResidueIsConsistent(s: Settings, x: World, k: CallKey)
    requires LinkedBut(s, x, k)
    ensures CallsConsistent(x)
  {
    var y :| Residue(s, x, y, k);
    forall z | z in x.calls ensures CallConsistent(x.calls[z]) {
      if z != k { assert CallOk(y, z); }
    }
  }

  // Each sweep by what it treats: fresh copies, all its candidates, and none left after it.

  predicate AgentsSwept(s: Settings, x: World, now: Time, ids: seq<AgentId>, x': World) {
    && Distinct(ids) && (forall id :: id in ids ==> id in x.agents && AgentLeaseExpired(x.agents[id], now))
    && x' == AgentSweep(s, x, ids, x.agents, now, 0).0 && ExpiredAgents(x', now) == {}
  }

  predicate BorrowersSwept(x: World, now: Time, ids: seq<BorrowerId>, x': World) {
    && Distinct(ids) && (forall b :: b in ids ==> b in x.borrowers && BorrowerLeaseExpired(x.borrowers[b], now))
    && x' == BorrowerSweep(x, ids, x.borrowers, now, 0).0 && ExpiredBorrowers(x', now) == {}
  }

  predicate CallsSwept(
    s: Settings, x: World, cutoff: Time, keys: seq<CallKey>, reports: map<CallKey, ProviderStatus>, x': World
  ) {
    && Distinct(keys) && (forall z :: z in keys ==> Active(x, z))
    && x' == CallSweep(s, x, keys, x.calls, reports, 0).0 && StaleCalls(x', cutoff) == {}
  }

  predicate SilentSwept(s: Settings, x: World, ids: seq<AgentId>, x': World) {
    && Distinct(ids) && (forall id :: id in ids ==> id in x.agents && x.agents[id].state != AgentState.Offline)
    && x' == HeartbeatSweep(s, x, ids, x.agents, 0).0
  }

  predicate StuckSwept(x: World, ids: seq<AgentId>, x': World) {
    && Distinct(ids) && (forall id :: id in ids ==> id in x.agents && x.agents[id].state == AgentState.WrapUp)
    && x' == WrapUpSweep(x, ids, x.agents, Recovery, 0).0
  }

  lemma LeaseSweepsByStages(s: Settings, x: World, now: Time, input: SweepInput)
    returns (ids: seq<AgentId>, x1: World, held: seq<BorrowerId>, x2: World)
    requires CallsConsistent(x) && OrdersOk(x, input)
    requires |ExpiredAgents(x, now)| <= s.sweepLimit && |ExpiredBorrowers(x, now)| <= s.sweepLimit
    ensures AgentsSwept(s, x, now, ids, x1) && BorrowersSwept(x1, now, held, x2) && NoWorse(s, x, x2, now)
    ensures x2 == SweepExpiredBorrowers(s, SweepExpiredAgents(s, x, now, input).0, now, input).0
  {
    ids := PickedAgents(s, x, now, input);
    x1 := SweepExpiredAgents(s, x, now, input).0;
    PickIsDistinct(ExpiredAgents(x, now), input.expired, s.sweepLimit);
    AgentSweepLeaves(s, x, now, input);
    SubsetIsNoLarger(ExpiredBorrowers(x1, now), ExpiredBorrowers(x, now));
    held := Pick(ExpiredBorrowers(x1, now), input.borrowers, s.sweepLimit);
    x2 := SweepExpiredBorrowers(s, x1, now, input).0;
    PickIsDistinct(ExpiredBorrowers(x1, now), input.borrowers, s.sweepLimit);
    BorrowerSweepLeaves(s, x1, now, input);
    NoWorseThrough(s, x, x1, x2, now);
  }

  lemma StaleSweepByStage(s: Settings, x: World, now: Time, input: SweepInput) returns (keys: seq<CallKey>, x': World)
    requires CallsConsistent(x) && OrdersOk(x, input) && |StaleCalls(x, now - s.staleTimeout)| <= s.sweepLimit
    ensures CallsSwept(s, x, now - s.staleTimeout, keys, input.reports, x') && x' == SweepStaleCalls(s, x, now, input).0
  {
    keys := Pick(StaleCalls(x, now - s.staleTimeout), input.calls, s.sweepLimit);
    x' := SweepStaleCalls(s, x, now, input).0;
    PickedStaleCalls(x, now - s.staleTimeout, input.calls, s.sweepLimit);
    CallSweepLeaves(s, x, now, input);
  }

  lemma LastSweepsByStages(s: Settings, x: World, now: Time, input: SweepInput)
    returns (silent: seq<AgentId>, x1: World, stuck: seq<AgentId>, x2: World)
    requires Distinct(input.silent) && Distinct(input.wrapUps)
    ensures SilentSwept(s, x, silent, x1) && StuckSwept(x1, stuck, x2)
    ensures x2 == SweepStuckWrapUps(s, SweepSilentAgents(s, x, now, input).0, now, input).0
  {
    silent := Pick(SilentAgents(x, now - s.heartbeatTimeout), input.silent, s.sweepLimit);
    PickIsDistinct(SilentAgents(x, now - s.heartbeatTimeout), input.silent, s.sweepLimit);
    x1 := SweepSilentAgents(s, x, now, input).0;
    stuck := Pick(FinishedWrapUps(x1, now - StuckWrapUpAge(s)), input.wrapUps, s.sweepLimit);
    PickIsDistinct(FinishedWrapUps(x1, now - StuckWrapUpAge(s)), input.wrapUps, s.sweepLimit);
    x2 := SweepStuckWrapUps(s, x1, now, input).0;
  }

  lemma AgentStage(s: Settings, x: World, k: CallKey, now: Time, ids: seq<AgentId>, x': World)
    requires LinkedBut(s, x, k) && Abandoned(s, x, k, now) && AgentsSwept(s, x, now, ids, x')
    ensures LinkedBut(s, x', k) && SameBorrower(x, x', k) && SameCall(x, x', k)
    ensures k.agent in x'.agents && Resting(x'.agents[k.agent]) && x'.agents[k.agent].lease.None?
  {
    AgentSweepResidue(s, x, k, ids, x.agents, now, 0);
    assert k.agent !in ExpiredAgents(x', now);
  }

  lemma OthersOutlast(s: Settings, x: World, k: CallKey, now: Time)
    requires LinkedBut(s, x, k) && ExpiredAgents(x, now) == {}
    ensures forall z :: Active(x, z) && z != k ==> z.borrower !in ExpiredBorrowers(x, now)
  {
    var y :| Residue(s, x, y, k);
    forall z | Active(x, z) && z != k ensures z.borrower !in ExpiredBorrowers(x, now) {
      OtherOutlasts(s, x, y, k, z, now);
    }
  }

  lemma OtherOutlasts(s: Settings, x: World, y: World, k: CallKey, z: CallKey, now: Time)
    requires Residue(s, x, y, k) && Active(x, z) && z != k && z.agent !in ExpiredAgents(x, now)
    ensures z.borrower !in ExpiredBorrowers(x, now)
  {
    LinkedHere(s, x, y, k, z);
    assert CallOk(y, z) && z.agent != k.agent && z.borrower != k.borrower;
    BorrowersOutlastAgents(s, y, z, now);
  }

  lemma BorrowerStage(s: Settings, x: World, k: CallKey, now: Time, ids: seq<BorrowerId>, x': World)
    requires LinkedBut(s, x, k) && ExpiredAgents(x, now) == {} && BorrowersSwept(x, now, ids, x')
    ensures LinkedBut(s, x', k) && SameAgent(x, x', k) && SameCall(x, x', k)
    ensures BorrowerIsLeft(x, k, now) ==> k.borrower in x'.borrowers && x'.borrowers[k.borrower].lease.None?
    ensures !BorrowerIsLeft(x, k, now) ==> SameBorrower(x, x', k)
  {
    OthersOutlast(s, x, k, now);
    BorrowerSweepResidue(s, x, k, ids, x.borrowers, now, 0);
    assert k.borrower !in ExpiredBorrowers(x', now);
  }

  lemma CallStage(
    s: Settings, x: World, k: CallKey, cutoff: Time, keys: seq<CallKey>, reports: map<CallKey, ProviderStatus>,
    x': World
  )
    requires LinkedBut(s, x, k) && Loose(x, k) && CallsSwept(s, x, cutoff, keys, reports, x')
    requires Active(x, k) ==> Stale(x.calls[k], cutoff)
    ensures LinkedBut(s, x', k) && SameAgent(x, x', k) && SameBorrower(x, x', k)
    ensures (k in x'.calls <==> k in x.calls) && (k in x'.calls ==> x'.calls[k].terminal)
  {
    CallSweepResidue(s, x, k, keys, x.calls, reports, 0);
    assert k !in StaleCalls(x', cutoff);
  }

  lemma SilentStage(s: Settings, x: World, k: CallKey, ids: seq<AgentId>, x': World)
    requires LinkedBut(s, x, k) && k.agent in x.agents && Resting(x.agents[k.agent]) && SilentSwept(s, x, ids, x')
    ensures LinkedBut(s, x', k) && SameBorrower(x, x', k) && SameCall(x, x', k)
    ensures k.agent in x'.agents && Resting(x'.agents[k.agent])
  {
    HeartbeatSweepResidue(s, x, k, ids, x.agents, 0);
  }

  lemma StuckStage(s: Settings, x: World, k: CallKey, ids: seq<AgentId>, x': World)
    requires LinkedBut(s, x, k) && StuckSwept(x, ids, x')
    requires k.agent in x.agents && Resting(x.agents[k.agent])
    ensures LinkedBut(s, x', k) && SameBorrower(x, x', k) && SameCall(x, x', k)
    ensures k.agent in x'.agents && Resting(x'.agents[k.agent])
  {
    WrapUpSweepResidue(s, x, k, ids, x.agents, 0);
  }

  /** What the dial left is freed: its agent rests and its call is over. */
  predicate Cleared(x: World, k: CallKey) {
    && k.agent in x.agents && Resting(x.agents[k.agent])
    && (k in x.calls ==> x.calls[k].terminal)
  }

  /** From `x` to `x'` the dial's borrower is let go of if nobody holds it on a live lease, and kept otherwise. */
  predicate BorrowerSwept(x: World, x': World, k: CallKey, now: Time) {
    if BorrowerIsLeft(x, k, now) then k.borrower in x'.borrowers && x'.borrowers[k.borrower].lease.None?
    else SameBorrower(x, x', k)
  }

  lemma FirstStages(
    s: Settings, x: World, k: CallKey, now: Time, ids: seq<AgentId>, x1: World, held: seq<BorrowerId>, x2: World
  )
    requires LinkedBut(s, x, k) && Abandoned(s, x, k, now)
    requires AgentsSwept(s, x, now, ids, x1) && BorrowersSwept(x1, now, held, x2)
    ensures LinkedBut(s, x2, k) && SameCall(x, x2, k) && Loose(x2, k)
    ensures k.agent in x2.agents && Resting(x2.agents[k.agent]) && BorrowerSwept(x, x2, k, now)
  {
    AgentStage(s, x, k, now, ids, x1);
    BorrowerStage(s, x1, k, now, held, x2);
  }

  lemma LaterStages(
    s: Settings, x: World, k: CallKey, cutoff: Time, keys: seq<CallKey>, reports: map<CallKey, ProviderStatus>,
    x3: World, silent: seq<AgentId>, x4: World, stuck: seq<AgentId>, x5: World
  )
    requires LinkedBut(s, x, k) && Loose(x, k) && k.agent in x.agents && Resting(x.agents[k.agent])
    requires Active(x, k) ==> Stale(x.calls[k], cutoff)
    requires CallsSwept(s, x, cutoff, keys, reports, x3) && SilentSwept(s, x3, silent, x4) && StuckSwept(x4, stuck, x5)
    ensures LinkedBut(s, x5, k) && Cleared(x5, k) && SameBorrower(x, x5, k) && (k in x5.calls <==> k in x.calls)
  {
    CallStage(s, x, k, cutoff, keys, reports, x3);
    SilentStage(s, x3, k, silent, x4);
    StuckStage(s, x4, k, stuck, x5);
  }

  /** A run of the five sweeps, stage by stage. */
  datatype Stages = Stages(
    ids: seq<AgentId>, x1: World, held: seq<BorrowerId>, x2: World, keys: seq<CallKey>, x3: World,
    silent: seq<AgentId>, x4: World, stuck: seq<AgentId>, x5: World)

  predicate Staged(s: Settings, x: World, now: Time, reports: map<CallKey, ProviderStatus>, g: Stages) {
    && AgentsSwept(s, x, now, g.ids, g.x1) && BorrowersSwept(g.x1, now, g.held, g.x2)
    && CallsSwept(s, g.x2, now - s.staleTimeout, g.keys, reports, g.x3)
    && SilentSwept(s, g.x3, g.silent, g.x4) && StuckSwept(g.x4, g.stuck, g.x5)
  }

  lemma RunByStages(s: Settings, x: World, now: Time, input: SweepInput) returns (g: Stages)
    requires CallsConsistent(x) && OrdersOk(x, input) && BacklogOf(s, x, now).Fits(s.sweepLimit)
    ensures Staged(s, x, now, input.reports, g) && g.x5 == SweepsAt(s, x, now, input).0
  {
    var ids, x1, held, x2 := LeaseSweepsByStages(s, x, now, input);
    SubsetIsNoLarger(StaleCalls(x2, now - s.staleTimeout), StaleCalls(x, now - s.staleTimeout));
    var keys, x3 := StaleSweepByStage(s, x2, now, input);
    var silent, x4, stuck, x5 := LastSweepsByStages(s, x3, now, input);
    g := Stages(ids, x1, held, x2, keys, x3, silent, x4, stuck, x5);
  }

  lemma StagesClear(s: Settings, x: World, k: CallKey, now: Time, reports: map<CallKey, ProviderStatus>, g: Stages)
    requires LinkedBut(s, x, k) && Abandoned(s, x, k, now) && Staged(s, x, now, reports, g)
    ensures LinkedBut(s, g.x5, k) && Cleared(g.x5, k) && BorrowerSwept(x, g.x5, k, now)
    ensures k in g.x5.calls <==> k in x.calls
  {
    FirstStages(s, x, k, now, g.ids, g.x1, g.held, g.x2);
    LaterStages(s, g.x2, k, now - s.staleTimeout, g.keys, reports, g.x3, g.silent, g.x4, g.stuck, g.x5);
  }

  // ---------- what is left ----------

  /** No document is out of order on its own, and every open call has its agent and its borrower to itself. */
  ghost predicate Exclusive(s: Settings, x: World) {
    && (forall id :: id in x.agents ==> AgentOk(x, id))
    && (forall b :: b in x.borrowers ==> BorrowerOk(s, x.borrowers[b]))
    && (forall z :: Active(x, z) ==> Linked(x, z) && Alone(x, z.agent, z.borrower, z))
  }

  lemma LinkedIsExclusive(s: Settings, x: World)
    requires Inv(s, x)
    ensures Exclusive(s, x)
  {
    forall z | Active(x, z) ensures Linked(x, z) && Alone(x, z.agent, z.borrower, z) {
      ActiveIsAlone(s, x, z);
    }
  }

  lemma ClearedIsExclusive(s: Settings, x: World, k: CallKey)
    requires LinkedBut(s, x, k) && Cleared(x, k)
    ensures Exclusive(s, x)
  {
    var y :| Residue(s, x, y, k);
    forall id | id in x.agents ensures AgentOk(x, id) {
      if id != k.agent { assert AgentOk(y, id); }
    }
    forall b | b in x.borrowers ensures BorrowerOk(s, x.borrowers[b]) {
      if b != k.borrower { assert BorrowerOk(s, y.borrowers[b]); }
    }
    forall z | Active(x, z) ensures Linked(x, z) && Alone(x, z.agent, z.borrower, z) {
      OthersAreLinked(s, x, y, k, z);
    }
  }

  lemma OthersAreLinked(s: Settings, x: World, y: World, k: CallKey, z: CallKey)
    requires Residue(s, x, y, k) && Cleared(x, k) && Active(x, z)
    ensures Linked(x, z) && Alone(x, z.agent, z.borrower, z)
  {
    LinkedHere(s, x, y, k, z);
    ActiveIsAlone(s, y, z);
    assert forall q :: Active(x, q) ==> Active(y, q);
  }

  /** Without the call the store is linked; with it, its attempt is missing from the borrower's count. */
  lemma ClearedIsLinkedIff(s: Settings, x: World, k: CallKey)
    requires LinkedBut(s, x, k) && Cleared(x, k)
    ensures Inv(s, x) <==> k !in x.calls
  {
    var y :| Residue(s, x, y, k);
    if k in x.calls {
      assert !AttemptOk(x, k);
    } else {
      WithoutTheCall(s, x, y, k);
      UnitKeepsInv(s, y, x, k);
    }
  }

  lemma WithoutTheCall(s: Settings, x: World, y: World, k: CallKey)
    requires Residue(s, x, y, k) && Cleared(x, k) && k !in x.calls
    ensures Unit(s, y, x, k)
  {
    assert x.agents == y.agents[k.agent := x.agents[k.agent]];
    assert x.borrowers == y.borrowers[k.borrower := x.borrowers[k.borrower]];
    assert x.calls == y.calls;
    ReplacementIsUnit(s, y, x, k.agent, k.borrower, k);
  }

  // ---------- where a dial can stop ----------

  /** The agent still held for the dial: not put on its call, or on it when the call has failed. */
  predicate HeldStill(a: Agent, w: World, p: Pair, c: Option<Call>) {
    && p.agentId in w.agents && a.lease == p.agent.lease && a.campaign == p.campaign
    && (a.state == AgentState.Reserved || a.state == AgentState.Dialing)
    && (a.currentCall == w.agents[p.agentId].currentCall
        || (a.currentCall == Some(p.Key()) && c.Some? && c.value.terminal))
  }

  /** `x` is the store before the claim but for the held borrower, the agent `a` and the call `c`, if there is one. */
  predicate StoppedAs(w: World, x: World, p: Pair, a: Agent, c: Option<Call>) {
    && p.agentId in w.agents && x.agents == w.agents[p.agentId := a]
    && x.borrowers == w.borrowers[p.borrowerId := p.borrower] && x.index == w.index
    && x.calls == (if c.Some? then w.calls[p.Key() := c.value] else w.calls)
    && (c.Some? ==> CallConsistent(c.value) && c.value.providerCallId.None? && c.value.updatedAt <= x.now)
    && (Freed(a, w.agents[p.agentId]) || HeldStill(a, w, p, c))
  }

  lemma StoppedIsBeside(s: Settings, w: World, w1: World, x: World, p: Pair, a: Agent, c: Option<Call>)
    requires PairReady(s, w, p) && PairClaimed(s, w, w1, p) && StoppedAs(w, x, p, a, c)
    ensures Beside(x, w, p.Key())
  {
  }

  lemma StoppedIsLeftover(s: Settings, w: World, w1: World, x: World, p: Pair, a: Agent, c: Option<Call>)
    requires PairReady(s, w, p) && PairClaimed(s, w, w1, p) && StoppedAs(w, x, p, a, c) && AgentOk(w, p.agentId)
    ensures p.agentId in x.agents && p.borrowerId in x.borrowers && Leftover(s, x, p.Key())
  {
  }

  lemma StoppedIsLinkedBut(s: Settings, w: World, w1: World, x: World, p: Pair, a: Agent, c: Option<Call>)
    requires Inv(s, w) && PairClaimed(s, w, w1, p) && StoppedAs(w, x, p, a, c)
    ensures LinkedBut(s, x, p.Key())
  {
    ClaimedPairIsReady(s, w, w1, p);
    assert AgentOk(w, p.agentId);
    StoppedIsBeside(s, w, w1, x, p, a, c);
    StoppedIsLeftover(s, w, w1, x, p, a, c);
    assert Residue(s, x, w, p.Key());
  }

  /** Long enough after the dial stopped at `stop` for its leases to run out and its call to go stale. */
  predicate LateEnough(s: Settings, stop: Time, p: Pair, now: Time) {
    p.borrower.lease.Some? && p.borrower.lease.value.expiresAt < now && stop < now - s.staleTimeout
  }

  lemma StoppedIsAbandoned(s: Settings, w: World, w1: World, x: World, p: Pair, a: Agent, c: Option<Call>, now: Time)
    requires PairClaimed(s, w, w1, p) && p.Key() !in w.calls && StoppedAs(w, x, p, a, c) && LateEnough(s, x.now, p, now)
    ensures Abandoned(s, x, p.Key(), now)
  {
    ReleaseSources();
  }

  /** The cuts at which the store is linked as it stands. */
  predicate Consistent(cut: Cut) {
    cut.PairGivenBack? || cut.CallBound? || cut.IdAttached? || cut.PairFreed?
  }

  /** A call being placed for which nothing has been heard. */
  predicate Early(c: Call, now: Time) {
    CallConsistent(c) && c.providerCallId.None? && c.updatedAt <= now
  }

  lemma CreatedCall(w: World, p: Pair, provider: ProviderId) returns (c: Call)
    requires p.Key() !in w.calls
    ensures var x := CreatedStore(w, p, provider);
            CallSet(w, x, p.Key(), c) && Early(c, x.now) && c.state == CallState.Queued
  {
    c := CreateCall(w, p.Key(), provider, p.worker).1;
  }

  lemma MovedCall(w: World, key: CallKey, to: CallState) returns (c: Call)
    requires key in w.calls && !w.calls[key].terminal && w.calls[key].rank < Rank(to)
             && w.calls[key].providerCallId.None?
    ensures var x := TryTransitionCall(w, key, to).0;
            CallSet(w, x, key, c) && Early(c, x.now) && c.state == to
  {
    WonTransitionCall(w, key, to);
    c := TryTransitionCall(w, key, to).1.value;
  }

  lemma ReservedCall(w: World, p: Pair, provider: ProviderId) returns (c: Call)
    requires p.Key() !in w.calls
    ensures var x := ReservedStore(w, p, provider);
            CallSet(w, x, p.Key(), c) && Early(c, x.now) && c.state == CallState.Reserved
  {
    var c1 := CreatedCall(w, p, provider);
    var x1 := CreatedStore(w, p, provider);
    c := MovedCall(x1, p.Key(), CallState.Reserved);
    CallSetTwice(w, x1, ReservedStore(w, p, provider), p.Key(), c1, c);
  }

  lemma InitiatedCall(w: World, p: Pair, provider: ProviderId) returns (c: Call)
    requires p.Key() !in w.calls
    ensures var x := PlaceCall(w, p, provider).0;
            CallSet(w, x, p.Key(), c) && Early(c, x.now) && c.state == CallState.Initiated
  {
    var c1 := ReservedCall(w, p, provider);
    var x1 := ReservedStore(w, p, provider);
    c := MovedCall(x1, p.Key(), CallState.Initiated);
    assert PlaceCall(w, p, provider).0 == TryTransitionCall(x1, p.Key(), CallState.Initiated).0;
    CallSetTwice(w, x1, PlaceCall(w, p, provider).0, p.Key(), c1, c);
  }

  lemma StoppedBeforePlacing(s: Settings, w: World, w1: World, t: World, p: Pair) returns (a: Agent)
    requires Inv(s, w) && PairClaimed(s, w, w1, p) && ClockOnly(w1, t)
    ensures StoppedAs(w, t, p, p.agent, None) && StoppedAs(w, ReleasedAgent(t, p), p, a, None)
  {
    ReleaseSources();
    WonReleaseAgent(t, p.agentId, p.worker, AgentState.Available, Allocator);
    a := TryReleaseAgent(t, p.agentId, p.worker, AgentState.Available, Allocator).1.value;
    assert ReleasedAgent(t, p).agents == w.agents[p.agentId := a];
  }

  lemma StoppedPlacing(s: Settings, w: World, w1: World, t: World, x: World, p: Pair, c: Call)
    requires PairClaimed(s, w, w1, p) && ClockOnly(w1, t) && CallSet(t, x, p.Key(), c) && Early(c, x.now)
    ensures StoppedAs(w, x, p, p.agent, Some(c))
  {
  }

  lemma StoppedMoving(s: Settings, w: World, w1: World, t: World, p: Pair, provider: ProviderId)
    returns (a: Agent, c: Call)
    requires PairClaimed(s, w, w1, p) && p.Key() !in w.calls && ClockOnly(w1, t)
    ensures StoppedAs(w, MovedStore(t, p, provider), p, a, Some(c))
  {
    c := InitiatedCall(t, p, provider);
    var x := PlaceCall(t, p, provider).0;
    WonTransitionAgent(x, p.agentId, AgentState.Dialing, Allocator);
    a := TryTransitionAgent(x, p.agentId, AgentState.Reserved, AgentState.Dialing, Allocator, p.agent.version).1.agent;
    assert MovedStore(t, p, provider).agents == w.agents[p.agentId := a];
  }

  /** After the provider declined, or its id could not be kept: the call is failed, then the agent let go of. */
  lemma StoppedFailing(s: Settings, w: World, w1: World, w2: World, p: Pair, provider: ProviderId, a: Agent, c: Call)
    returns (freed: Agent, failed: Call)
    requires PairClaimed(s, w, w1, p) && Asking(w, w2, p, provider, a, c)
    ensures var w3 := TryTransitionCall(w2, p.Key(), CallState.Failed).0;
            StoppedAs(w, w3, p, a, Some(failed)) && StoppedAs(w, ReleasedAgent(w3, p), p, freed, Some(failed))
  {
    ReleaseSources();
    failed := MovedCall(w2, p.Key(), CallState.Failed);
    var w3 := TryTransitionCall(w2, p.Key(), CallState.Failed).0;
    assert w3.calls == w.calls[p.Key() := failed];
    WonReleaseAgent(w3, p.agentId, p.worker, AgentState.Available, Allocator);
    freed := TryReleaseAgent(w3, p.agentId, p.worker, AgentState.Available, Allocator).1.value;
    assert ReleasedAgent(w3, p).agents == w.agents[p.agentId := freed];
  }

  lemma CutStops(s: Settings, w: World, w1: World, t: World, p: Pair, provider: ProviderId, reply: Reply, cut: Cut)
    returns (a: Agent, c: Option<Call>)
    requires Inv(s, w) && PairClaimed(s, w, w1, p) && p.Key() !in w.calls && ClockOnly(w1, t)
    requires Passes(s, t, p, provider, reply, cut) && !Consistent(cut)
    ensures StoppedAs(w, StoreAt(s, t, p, provider, reply, cut), p, a, c) && (c.None? <==> BeforeTheCall(cut))
  {
    a, c := p.agent, None;
    match cut
    case Claimed =>
      var _ := StoppedBeforePlacing(s, w, w1, t, p);
    case AgentGivenBack =>
      a := StoppedBeforePlacing(s, w, w1, t, p);
    case CallCreated =>
      var d := CreatedCall(t, p, provider);
      StoppedPlacing(s, w, w1, t, CreatedStore(t, p, provider), p, d);
      c := Some(d);
    case CallReserved =>
      var d := ReservedCall(t, p, provider);
      StoppedPlacing(s, w, w1, t, ReservedStore(t, p, provider), p, d);
      c := Some(d);
    case CallInitiated =>
      var d := InitiatedCall(t, p, provider);
      StoppedPlacing(s, w, w1, t, PlaceCall(t, p, provider).0, p, d);
      c := Some(d);
    case AgentMoved =>
      var d;
      a, d := StoppedMoving(s, w, w1, t, p, provider);
      c := Some(d);
    case CallFailed =>
      var d;
      a, d := FailureStops(s, w, w1, t, p, provider, reply, false);
      c := Some(d);
    case AgentFreed =>
      var d;
      a, d := FailureStops(s, w, w1, t, p, provider, reply, true);
      c := Some(d);
  }

  lemma FailureStops(
    s: Settings, w: World, w1: World, t: World, p: Pair, provider: ProviderId, reply: Reply, agentFreed: bool
  ) returns (a: Agent, c: Call)
    requires PairClaimed(s, w, w1, p) && p.Key() !in w.calls && ClockOnly(w1, t)
    requires !PlaceAndAsk(s, t, p, provider, reply).1
    ensures var x := FailedStore(t, p, provider, reply);
            StoppedAs(w, if agentFreed then ReleasedAgent(x, p) else x, p, a, Some(c))
  {
    var dialing, placed := UnansweredIsAsking(s, w, w1, t, p, provider, reply);
    var freed, failed := StoppedFailing(s, w, w1, AnsweredStore(t, p, provider, reply), p, provider, dialing, placed);
    a, c := if agentFreed then freed else dialing, failed;
  }

  lemma AskingKeepsInv(s: Settings, w: World, w1: World, w2: World, p: Pair, provider: ProviderId, a: Agent, c: Call)
    requires Inv(s, w) && PairClaimed(s, w, w1, p) && Asking(w, w2, p, provider, a, c)
    ensures Inv(s, w2)
  {
    ClaimedPairIsReady(s, w, w1, p);
    AskingIsUnit(s, w, w1, w2, p, provider, a, c);
    UnitKeepsInv(s, w, w2, p.Key());
  }

  lemma AskingIsUnit(s: Settings, w: World, w1: World, w2: World, p: Pair, provider: ProviderId, a: Agent, c: Call)
    requires PairReady(s, w, p) && PairClaimed(s, w, w1, p) && Asking(w, w2, p, provider, a, c)
    ensures Unit(s, w, w2, p.Key())
  {
    ReplacementIsUnit(s, w, w2, p.agentId, p.borrowerId, p.Key());
  }

  /** While the provider is asked, and where the dial ends, the store is linked as it stands. */
  lemma ConsistentCutIsLinked(
    s: Settings, w: World, w1: World, t: World, p: Pair, provider: ProviderId, reply: Reply, cut: Cut
  )
    requires Inv(s, w) && PairClaimed(s, w, w1, p) && p.Key() !in w.calls && ClockOnly(w1, t)
    requires Passes(s, t, p, provider, reply, cut) && Consistent(cut)
    ensures Inv(s, StoreAt(s, t, p, provider, reply, cut))
  {
    match cut
    case PairGivenBack =>
      var a, b := SuppressedEffect(s, w, w1, t, p);
      GivingBackKeepsInv(s, w, w1, ReleasePair(s, t, p, Released), p, a, b);
    case CallBound =>
      var a, c := AskingEffect(s, w, w1, t, p, provider);
      AskingKeepsInv(s, w, w1, BoundStore(t, p, provider), p, provider, a, c);
    case IdAttached =>
      EndedDialKeepsInv(s, w, w1, t, p, provider, reply);
      LastCut(s, w, w1, t, p, provider, reply);
    case PairFreed =>
      EndedDialKeepsInv(s, w, w1, t, p, provider, reply);
      LastCut(s, w, w1, t, p, provider, reply);
  }

  lemma EndedDialKeepsInv(s: Settings, w: World, w1: World, t: World, p: Pair, provider: ProviderId, reply: Reply)
    requires Inv(s, w) && PairClaimed(s, w, w1, p) && p.Key() !in w.calls && ClockOnly(w1, t)
    ensures Inv(s, PlaceAndAsk(s, t, p, provider, reply).0)
  {
    ClaimedPairIsReady(s, w, w1, p);
    var a, b, c := PlaceAndAskEffect(s, w, w1, t, p, provider, reply);
    var (end, dialled) := PlaceAndAsk(s, t, p, provider, reply);
    if dialled {
      DialSucceededIsUnit(s, w, w1, end, p, a, c);
    } else {
      DialFailedIsUnit(s, w, w1, end, p, a, b, c);
    }
    UnitKeepsInv(s, w, end, p.Key());
  }

  // ---------- recovery after a crash ----------

  lemma LinkedStoreSwept(s: Settings, x: World, now: Time, input: SweepInput)
    requires Inv(s, x) && OrdersOk(x, input) && |ExpiredAgents(x, now)| <= s.sweepLimit
    ensures Inv(s, SweepsAt(s, x, now, input).0)
  {
    RoomForAgentsSuffices(s, x, now, input);
    SweepsKeepInvIff(s, x, now, input);
  }

  lemma StoppedStoreSwept(
    s: Settings, w: World, w1: World, x: World, p: Pair, a: Agent, c: Option<Call>, now: Time, input: SweepInput
  )
    requires Inv(s, w) && PairClaimed(s, w, w1, p) && p.Key() !in w.calls
    requires StoppedAs(w, x, p, a, c) && Abandoned(s, x, p.Key(), now)
    requires OrdersOk(x, input) && BacklogOf(s, x, now).Fits(s.sweepLimit)
    ensures var x' := SweepsAt(s, x, now, input).0;
            Exclusive(s, x') && (Inv(s, x') <==> c.None?)
  {
    var k := p.Key();
    StoppedIsLinkedBut(s, w, w1, x, p, a, c);
    ResidueIsConsistent(s, x, k);
    var g := RunByStages(s, x, now, input);
    StagesClear(s, x, k, now, input.reports, g);
    ClearedIsExclusive(s, g.x5, k);
    ClearedIsLinkedIff(s, g.x5, k);
  }

  /** Time passes. */
  predicate Later(x: World, x': World) {
    x' == x.(now := x'.now, delays := x'.delays) && x.now <= x'.now
  }

  /**
   * Wherever in a dial its worker stops for good, the pair claimed, one run of the sweeps, late enough and
   * with room for what it finds, leaves every document in order and every open call with an agent and a
   * borrower of its own. The attempt is accounted for exactly when the call had not been created, had been bound to its
   * agent and not yet failed, or had been failed and let go of; otherwise the finished call is missing
   * from its borrower's count.
   */
  lemma OneRunRestoresExclusivity(
    s: Settings, w: World, w1: World, t: World, p: Pair, provider: ProviderId, reply: Reply, cut: Cut, x: World,
    input: SweepInput
  )
    requires Inv(s, w) && PairClaimed(s, w, w1, p) && ClockOnly(w1, t) && Passes(s, t, p, provider, reply, cut)
    requires var stop := StoreAt(s, t, p, provider, reply, cut);
             Later(stop, x) && LateEnough(s, stop.now, p, x.now)
    requires OrdersOk(x, input) && BacklogOf(s, x, x.now).Fits(s.sweepLimit)
    ensures var x' := SweepsAt(s, x, x.now, input).0;
            Exclusive(s, x')
            && (Inv(s, x') <==> BeforeTheCall(cut) || cut.CallBound? || cut.IdAttached? || cut.PairFreed?)
  {
    KeyIsFresh(s, w, w1, p);
    var stop := StoreAt(s, t, p, provider, reply, cut);
    if Consistent(cut) {
      ConsistentCutIsLinked(s, w, w1, t, p, provider, reply, cut);
      ClockKeepsInv(s, stop, x);
      LinkedStoreSwept(s, x, x.now, input);
      LinkedIsExclusive(s, SweepsAt(s, x, x.now, input).0);
    } else {
      var a, c := CutStops(s, w, w1, t, p, provider, reply, cut);
      StoppedIsAbandoned(s, w, w1, stop, p, a, c, x.now);
      StoppedStoreSwept(s, w, w1, x, p, a, c, x.now, input);
    }
  }

  lemma ReleasingKeepsCalls(s: Settings, w: World, p: Pair)
    requires p.borrowerId in w.borrowers
    ensures var w' := ReleasePair(s, w, p, Released);
            && w'.calls == w.calls && p.borrowerId in w'.borrowers
            && w'.borrowers[p.borrowerId].attemptCount == w.borrowers[p.borrowerId].attemptCount
  {
    ReleaseAgentFrame(w, p.agentId, p.worker, AgentState.Available, Allocator);
  }

  /**
   * A finished call that is missing from its borrower's count keeps the key of the next attempt: whenever
   * the same agent and borrower are reserved again, no call is placed and no attempt is used up.
   */
  lemma UncountedCallBlocksItsPair(
    s: Settings, w: World, p: Pair, provider: ProviderId, healthy: bool, reply: Reply
  )
    requires p.Key() in w.calls && w.calls[p.Key()].state != CallState.Queued && p.borrowerId in w.borrowers
    ensures var (w', dialled) := Dial(s, w, p, provider, healthy, reply);
            && !dialled && w'.calls == w.calls && p.borrowerId in w'.borrowers
            && w'.borrowers[p.borrowerId].attemptCount == w.borrowers[p.borrowerId].attemptCount
  {
    var t := if p.borrower.attemptCount > 0 then Tick(w) else w;
    ReleasingKeepsCalls(s, t, p);
    ReleasingKeepsCalls(s, PlaceCall(t, p, provider).0, p);
  }
}
