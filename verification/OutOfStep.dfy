/**
 * A store that is linked but for one agent: it is claimed for a call that was never placed, or has not yet
 * followed its call. One run of recovery, late enough and with room, links it again.
 */
module OutOfStep {
  import opened Basics
  import opened AgentMachine
  import opened CallMachine
  import opened Documents
  import opened Store
  import opened Effects
  import opened Handlers
  import opened Linking
  import opened RecoveryKeepsLinks
  import opened SweepsKeepLinks
  import opened LimitedSweeps
  import opened RecoveryFixpoint
  import DialResidue

  /** `x` is `y` but for the agent of `k`, and for the state of call `k` if there is that call. */
  ghost predicate Skewed(x: World, y: World, k: CallKey) {
    && k.agent in x.agents && k.agent in y.agents
    && x.agents == y.agents[k.agent := x.agents[k.agent]]
    && x.agents[k.agent].campaign == y.agents[k.agent].campaign
    && x.borrowers == y.borrowers && x.index == y.index && x.events == y.events
    && x.calls.Keys == y.calls.Keys
    && (forall z :: z in y.calls && z != k ==> x.calls[z] == y.calls[z])
    && (forall z :: Active(y, z) && z != k ==> z.agent != k.agent)
  }

  /** The call has moved on without its agent, or an agent without a call is held on a lease. */
  ghost predicate OwnSkewed(x: World, y: World, k: CallKey)
    requires Skewed(x, y, k)
  {
    if Active(y, k) then
      && x.agents[k.agent] == y.agents[k.agent]
      && Active(x, k) && CallConsistent(x.calls[k]) && x.calls[k].rank >= 2
      && x.calls[k].worker == y.calls[k].worker && x.calls[k].provider == y.calls[k].provider
      && x.calls[k].providerCallId == y.calls[k].providerCallId
    else
      && x.calls == y.calls && x.agents[k.agent].currentCall == y.agents[k.agent].currentCall
  }

  ghost predicate Ahead(s: Settings, x: World, y: World, k: CallKey) {
    Inv(s, y) && Skewed(x, y, k) && OwnSkewed(x, y, k)
  }

  /** The store is linked but for the agent of `k`. */
  ghost predicate LinkedButAgent(s: Settings, x: World, k: CallKey) {
    exists y :: Ahead(s, x, y, k)
  }

  // ---------- the agent itself is recovered ----------

  lemma WaitingRecovered(s: Settings, x: World, y: World, k: CallKey, now: Time, x': World)
    requires Ahead(s, x, y, k) && !Active(y, k) && AgentLeaseExpired(x.agents[k.agent], now)
    requires x' == RecoverAgent(s, x, k.agent, x.agents[k.agent], now).0
    ensures Inv(s, x') && OthersSame(x, x', [k.agent])
  {
    assert AgentOk(y, k.agent);
    NoCallOpen(x, y, k);
    var a := RecoverAgentEffect(s, x, k.agent, now);
    WaitingReplaced(x, y, k, x', a);
    IdleAgentKeepsInv(s, y, x', k.agent);
  }

  lemma NoCallOpen(x: World, y: World, k: CallKey)
    requires Skewed(x, y, k) && OwnSkewed(x, y, k) && !Active(y, k) && AgentOk(y, k.agent)
    ensures !OnActiveCall(x, x.agents[k.agent])
  {
  }

  lemma WaitingReplaced(x: World, y: World, k: CallKey, x': World, a: Agent)
    requires Skewed(x, y, k) && OwnSkewed(x, y, k) && !Active(y, k) && Freed(a, x.agents[k.agent])
    requires x' == x.(agents := x.agents[k.agent := a], now := x'.now, delays := x'.delays)
    ensures IdleAgentReplaced(y, x', k.agent)
  {
    assert x'.agents == y.agents[k.agent := a];
  }

  lemma CancelledInStep(s: Settings, x: World, y: World, k: CallKey, now: Time, x': World)
    returns (a: Agent, b: Borrower, c: Call)
    requires Skewed(x, y, k) && OwnSkewed(x, y, k) && Active(y, k) && Linked(y, k)
    requires AgentLeaseExpired(x.agents[k.agent], now)
    requires x' == RecoverAgent(s, x, k.agent, x.agents[k.agent], now).0
    ensures CallEnded(s, x, x', k, a, b, c) && Freed(a, x.agents[k.agent])
  {
    var read := x.agents[k.agent];
    b, c := CancelEffect(s, x, read);
    a := TryReclaimAgent(CancelBoundCall(s, x, read), k.agent, read, now).1.value;
  }

  lemma EndedInStep(s: Settings, x: World, y: World, k: CallKey, x': World, a: Agent, b: Borrower, c: Call)
    requires Skewed(x, y, k) && OwnSkewed(x, y, k) && Active(y, k) && IndexOk(y) && CallOk(y, k)
    requires k.borrower in y.borrowers && BorrowerOk(s, y.borrowers[k.borrower])
    requires y.borrowers[k.borrower].status == BorrowerStatus.Reserved
    requires k.attempt == y.borrowers[k.borrower].attemptCount + 1 && Alone(y, k.agent, k.borrower, k)
    requires CallEnded(s, x, x', k, a, b, c) && Freed(a, x.agents[k.agent])
    ensures Unit(s, y, x', k)
  {
    assert x'.agents == y.agents[k.agent := a];
    assert x'.calls == y.calls[k := c];
    assert IndexOk(x');
    ReplacementIsUnit(s, y, x', k.agent, k.borrower, k);
  }

  lemma RecoveredInStep(s: Settings, x: World, y: World, k: CallKey, now: Time, x': World)
    requires Skewed(x, y, k) && OwnSkewed(x, y, k) && Active(y, k) && Linked(y, k) && CallOk(y, k) && IndexOk(y)
    requires BorrowerOk(s, y.borrowers[k.borrower]) && k.attempt == y.borrowers[k.borrower].attemptCount + 1
    requires Alone(y, k.agent, k.borrower, k) && AgentLeaseExpired(x.agents[k.agent], now)
    requires x' == RecoverAgent(s, x, k.agent, x.agents[k.agent], now).0
    ensures Unit(s, y, x', k) && OthersSame(x, x', [k.agent])
  {
    var a, b, c := CancelledInStep(s, x, y, k, now, x');
    EndedInStep(s, x, y, k, x', a, b, c);
  }

  lemma ServingRecovered(s: Settings, x: World, y: World, k: CallKey, now: Time, x': World)
    requires Ahead(s, x, y, k) && Active(y, k) && AgentLeaseExpired(x.agents[k.agent], now)
    requires x' == RecoverAgent(s, x, k.agent, x.agents[k.agent], now).0
    ensures Inv(s, x') && OthersSame(x, x', [k.agent])
  {
    ActiveIsAlone(s, y, k);
    assert BorrowerOk(s, y.borrowers[k.borrower]);
    RecoveredInStep(s, x, y, k, now, x');
    UnitKeepsInv(s, y, x', k);
  }

  // ---------- another agent is recovered ----------

  lemma OtherIsBound(s: Settings, x: World, y: World, k: CallKey, id: AgentId)
    requires Ahead(s, x, y, k) && id in x.agents && id != k.agent
    ensures BoundOk(x, id) && id in y.agents && y.agents[id] == x.agents[id]
    ensures OnActiveCall(x, x.agents[id]) <==> OnActiveCall(y, y.agents[id])
    ensures OnActiveCall(x, x.agents[id]) ==>
              x.agents[id].currentCall.value != k && Active(y, x.agents[id].currentCall.value)
  {
    assert AgentOk(y, id);
    InvGivesBoundOk(s, y, id);
  }

  lemma FollowEnded(s: Settings, x: World, y: World, k: CallKey, x': World, z: CallKey, a: Agent, b: Borrower, c: Call)
    returns (y': World)
    requires Skewed(x, y, k) && OwnSkewed(x, y, k) && z != k && z.agent != k.agent && Active(y, z)
    requires CallEnded(s, x, x', z, a, b, c)
    ensures CallEnded(s, y, y', z, a, b, c) && Skewed(x', y', k) && OwnSkewed(x', y', k)
  {
    y' := y.(agents := y.agents[z.agent := a], borrowers := y.borrowers[z.borrower := b], calls := y.calls[z := c]);
    assert x'.agents == y'.agents[k.agent := x'.agents[k.agent]];
  }

  lemma FollowSet(x: World, y: World, k: CallKey, x': World, id: AgentId, a: Agent) returns (y': World)
    requires Skewed(x, y, k) && OwnSkewed(x, y, k) && id != k.agent && id in x.agents
    requires x' == x.(agents := x.agents[id := a], now := x'.now, delays := x'.delays)
    ensures y' == y.(agents := y.agents[id := a]) && Skewed(x', y', k) && OwnSkewed(x', y', k)
  {
    y' := y.(agents := y.agents[id := a]);
    assert x'.agents == y'.agents[k.agent := x'.agents[k.agent]];
  }

  lemma OtherRecovered(s: Settings, x: World, k: CallKey, id: AgentId, now: Time, x': World)
    requires LinkedButAgent(s, x, k) && id in x.agents && id != k.agent && AgentLeaseExpired(x.agents[id], now)
    requires x' == RecoverAgent(s, x, id, x.agents[id], now).0
    ensures LinkedButAgent(s, x', k) && OthersSame(x, x', [id])
  {
    var y :| Ahead(s, x, y, k);
    OtherIsBound(s, x, y, k, id);
    var a := DialResidue.Recovered(s, x, id, now, x');
    var y' := FollowStandDown(s, x, y, k, x', id, a);
    assert Ahead(s, x', y', k);
  }

  lemma FollowStandDown(s: Settings, x: World, y: World, k: CallKey, x': World, id: AgentId, a: Agent)
    returns (y': World)
    requires Ahead(s, x, y, k) && id in x.agents && id != k.agent && AgentStoodDown(s, x, x', id, a)
    ensures Ahead(s, x', y', k)
  {
    OtherIsBound(s, x, y, k, id);
    if OnActiveCall(x, x.agents[id]) {
      var z := x.agents[id].currentCall.value;
      var b, c :| CallEnded(s, x, x', z, a, b, c);
      y' := FollowEnded(s, x, y, k, x', z, a, b, c);
      CallEndedKeepsInv(s, y, y', z, a, b, c);
    } else {
      y' := FollowSet(x, y, k, x', id, a);
      StandDownKeepsInv(s, y, y', id, a);
    }
  }

  lemma OneRecovered(s: Settings, x: World, k: CallKey, id: AgentId, now: Time, x': World)
    requires LinkedButAgent(s, x, k) && id in x.agents && AgentLeaseExpired(x.agents[id], now)
    requires x' == RecoverAgent(s, x, id, x.agents[id], now).0
    ensures if id == k.agent then Inv(s, x') else LinkedButAgent(s, x', k)
    ensures OthersSame(x, x', [id])
  {
    if id == k.agent {
      var y :| Ahead(s, x, y, k);
      if Active(y, k) {
        ServingRecovered(s, x, y, k, now, x');
      } else {
        WaitingRecovered(s, x, y, k, now, x');
      }
    } else {
      OtherRecovered(s, x, k, id, now, x');
    }
  }

  /** A sweep over expired agents that comes to the one out of step leaves everything linked. */
  lemma {:induction false} SweepRestoresLinks(
    s: Settings, x: World, k: CallKey, ids: seq<AgentId>, read: map<AgentId, Agent>, now: Time, done: nat
  )
    requires LinkedButAgent(s, x, k) && Distinct(ids) && AgentsFresh(x, ids, read) && k.agent in ids
    requires forall id :: id in ids ==> AgentLeaseExpired(read[id], now)
    ensures Inv(s, AgentSweep(s, x, ids, read, now, done).0)
    decreases |ids|
  {
    var (x1, ok) := RecoverAgent(s, x, ids[0], read[ids[0]], now);
    OneRecovered(s, x, k, ids[0], now, x1);
    FreshOnward(x, x1, ids, read);
    if ids[0] == k.agent {
      AgentSweepOutcome(s, x1, ids[1..], read, now, if ok then done + 1 else done);
    } else {
      SweepRestoresLinks(s, x1, k, ids[1..], read, now, if ok then done + 1 else done);
    }
  }

  // ---------- a whole run ----------

  lemma AheadIsConsistent(s: Settings, x: World, k: CallKey)
    requires LinkedButAgent(s, x, k)
    ensures CallsConsistent(x)
  {
    var y :| Ahead(s, x, y, k);
    forall z | z in x.calls ensures CallConsistent(x.calls[z]) {
      assert CallOk(y, z);
    }
  }

  lemma AllExpiredArePicked(s: Settings, x: World, now: Time, input: SweepInput)
    requires OrdersOk(x, input) && |ExpiredAgents(x, now)| <= s.sweepLimit
    ensures var ids := PickedAgents(s, x, now, input);
            Distinct(ids) && forall id :: id in ids <==> id in ExpiredAgents(x, now)
  {
    PickIsDistinct(ExpiredAgents(x, now), input.expired, s.sweepLimit);
    PickIsFull(ExpiredAgents(x, now), input.expired, s.sweepLimit);
  }

  /** Once no agent's lease is expired, the sweeps after the agents' keep every link. */
  lemma LaterSweepsKeepInv(s: Settings, x: World, now: Time, input: SweepInput)
    requires Inv(s, x) && ExpiredAgents(x, now) == {} && OrdersDistinct(input)
    ensures var x2 := SweepExpiredBorrowers(s, x, now, input).0;
            var x3 := SweepStaleCalls(s, x2, now, input).0;
            Inv(s, SweepStuckWrapUps(s, SweepSilentAgents(s, x3, now, input).0, now, input).0)
  {
    PickIsDistinct(ExpiredBorrowers(x, now), input.borrowers, s.sweepLimit);
    var held := Pick(ExpiredBorrowers(x, now), input.borrowers, s.sweepLimit);
    forall z | Active(x, z) ensures z.borrower !in held {
      BorrowersOutlastAgents(s, x, z, now);
    }
    BorrowerSweepKeepsInv(s, x, held, x.borrowers, now, 0);
    LastSweepsKeepInv(s, SweepExpiredBorrowers(s, x, now, input).0, now, input);
  }

  lemma OneRunLinksTheAgent(s: Settings, x: World, k: CallKey, now: Time, input: SweepInput)
    requires LinkedButAgent(s, x, k) && k.agent in x.agents && AgentLeaseExpired(x.agents[k.agent], now)
    requires OrdersOk(x, input) && |ExpiredAgents(x, now)| <= s.sweepLimit
    ensures Inv(s, SweepsAt(s, x, now, input).0)
  {
    AllExpiredArePicked(s, x, now, input);
    SweepRestoresLinks(s, x, k, PickedAgents(s, x, now, input), x.agents, now, 0);
    AheadIsConsistent(s, x, k);
    AgentSweepLeaves(s, x, now, input);
    LaterSweepsKeepInv(s, SweepExpiredAgents(s, x, now, input).0, now, input);
  }
}
