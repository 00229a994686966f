/** Reserving a pair and dialing it, followed step by step, is one unit of work. */
module DialKeepsLinks {
  import opened Basics
  import opened AgentMachine
  import opened CallMachine
  import opened Documents
  import opened Store
  import opened Effects
  import opened Handlers
  import opened Linking

  // ---------- the claim ----------

  /** `w'` is `w` with an available agent of the campaign reserved for the worker. */
  ghost predicate AgentClaimed(
    s: Settings, w: World, w': World, campaign: CampaignId, worker: WorkerId, id: AgentId, a: Agent
  ) {
    && id in w.agents && a.lease.Some?
    && w.now <= a.lease.value.reservedAt <= w'.now
    && ReserveAgent(w.agents[id], campaign, worker, s.ttl, a.lease.value.reservedAt) == Some(a)
    && w' == w.(agents := w.agents[id := a], now := w'.now, delays := w'.delays)
  }

  ghost predicate BorrowerClaimed(
    s: Settings, w: World, w': World, campaign: CampaignId, worker: WorkerId, id: BorrowerId, b: Borrower
  ) {
    && id in w.borrowers && b.lease.Some?
    && w.now <= b.lease.value.reservedAt <= w'.now
    && ReserveBorrower(w.borrowers[id], campaign, worker, s.ttl, b.lease.value.reservedAt) == Some(b)
    && w' == w.(borrowers := w.borrowers[id := b], now := w'.now, delays := w'.delays)
  }

  lemma {:induction false} ClaimAgentEffect(
    s: Settings, w: World, campaign: CampaignId, worker: WorkerId, candidates: seq<AgentId>
  )
    ensures var (w', r) := ClaimAgent(s, w, campaign, worker, candidates);
            if r.None? then ClockOnly(w, w') else AgentClaimed(s, w, w', campaign, worker, r.value.0, r.value.1)
    decreases |candidates|
  {
    if candidates == [] {
    } else {
      var (t, r) := TryReserveAgent(w, campaign, candidates[0], worker, s.ttl);
      if r.None? { ClaimAgentEffect(s, t, campaign, worker, candidates[1..]); }
    }
  }

  lemma {:induction false} ClaimBorrowerEffect(
    s: Settings, w: World, campaign: CampaignId, worker: WorkerId, candidates: seq<BorrowerId>
  )
    ensures var (w', r) := ClaimBorrower(s, w, campaign, worker, candidates);
            if r.None? then ClockOnly(w, w') else BorrowerClaimed(s, w, w', campaign, worker, r.value.0, r.value.1)
    decreases |candidates|
  {
    if candidates == [] {
    } else {
      var (t, r) := TryReserveBorrower(w, campaign, candidates[0], worker, s.ttl);
      if r.None? { ClaimBorrowerEffect(s, t, campaign, worker, candidates[1..]); }
    }
  }

  /** `w'` is `w` with the pair reserved, the agent first. */
  ghost predicate PairClaimed(s: Settings, w: World, w': World, p: Pair) {
    && p.agentId in w.agents && p.borrowerId in w.borrowers
    && p.agent.lease.Some? && p.borrower.lease.Some?
    && w.now <= p.agent.lease.value.reservedAt <= p.borrower.lease.value.reservedAt <= w'.now
    && ReserveAgent(w.agents[p.agentId], p.campaign, p.worker, s.ttl, p.agent.lease.value.reservedAt) == Some(p.agent)
    && ReserveBorrower(w.borrowers[p.borrowerId], p.campaign, p.worker, s.ttl, p.borrower.lease.value.reservedAt)
       == Some(p.borrower)
    && w' == w.(agents := w.agents[p.agentId := p.agent], borrowers := w.borrowers[p.borrowerId := p.borrower],
                now := w'.now, delays := w'.delays)
  }

  /** An agent given back after a claim: available again, holding nothing. */
  ghost predicate AgentReturned(w: World, w': World, id: AgentId) {
    && id in w.agents && w.agents[id].state == AgentState.Available
    && id in w'.agents
    && w'.agents[id].state == AgentState.Available && w'.agents[id].lease.None? && w'.agents[id].currentCall.None?
    && w'.agents[id].campaign == w.agents[id].campaign
    && w' == w.(agents := w.agents[id := w'.agents[id]], now := w'.now, delays := w'.delays)
    && w.now <= w'.now
  }

  lemma ReturnAgentEffect(
    s: Settings, w: World, w1: World, w2: World, campaign: CampaignId, worker: WorkerId, id: AgentId, a: Agent
  )
    requires AgentClaimed(s, w, w1, campaign, worker, id, a) && ClockOnly(w1, w2)
    ensures AgentReturned(w, TryReleaseAgent(w2, id, worker, AgentState.Available, Allocator).0, id)
  {
    ReleaseSources();
    assert w2.agents[id] == a && a.state == AgentState.Reserved;
    var w3 := TryReleaseAgent(w2, id, worker, AgentState.Available, Allocator).0;
    assert w3.agents == w.agents[id := w3.agents[id]];
  }

  lemma PairClaimedInOrder(
    s: Settings, w: World, w1: World, w2: World, w3: World, p: Pair
  )
    requires AgentClaimed(s, w, w1, p.campaign, p.worker, p.agentId, p.agent)
    requires ClockOnly(w1, w2)
    requires BorrowerClaimed(s, w2, w3, p.campaign, p.worker, p.borrowerId, p.borrower)
    ensures PairClaimed(s, w, w3, p)
  {
  }

  lemma ReservePairEffect(
    s: Settings, w: World, campaign: CampaignId, worker: WorkerId, ao: seq<AgentId>, bo: seq<BorrowerId>
  ) returns (returned: AgentId)
    ensures var (w', r) := ReservePair(s, w, campaign, worker, ao, bo);
            if r.Some? then PairClaimed(s, w, w', r.value) && r.value.campaign == campaign && r.value.worker == worker
            else ClockOnly(w, w') || AgentReturned(w, w', returned)
  {
    returned := 0;
    var candidates := Pick(AvailableAgents(w, campaign), ao, CLAIM_WINDOW);
    ClaimAgentEffect(s, w, campaign, worker, candidates);
    var (w1, a) := ClaimAgent(s, w, campaign, worker, candidates);
    if a.Some? {
      var w2 := Tick(w1);
      var borrowers := Pick(ClaimableBorrowers(w2, campaign), bo, CLAIM_WINDOW);
      ClaimBorrowerEffect(s, w2, campaign, worker, borrowers);
      var (w3, b) := ClaimBorrower(s, w2, campaign, worker, borrowers);
      if b.None? {
        returned := a.value.0;
        ReturnAgentEffect(s, w, w1, w3, campaign, worker, a.value.0, a.value.1);
      } else {
        PairClaimedInOrder(s, w, w1, w2, w3, Pair(campaign, worker, a.value.0, a.value.1, b.value.0, b.value.1));
      }
    }
  }

  // ---------- the dial ----------

  /** Calls of a pending borrower are all finished, so the next attempt's key is unused. */
  lemma KeyIsFresh(s: Settings, w: World, w1: World, p: Pair)
    requires Inv(s, w) && PairClaimed(s, w, w1, p)
    ensures BorrowerFree(w, p.Key())
    ensures p.Key() !in w.calls
    ensures forall x :: Active(w, x) ==> x.agent != p.agentId
  {
  }

  predicate Placed(c: Call, p: Pair, provider: ProviderId) {
    CallConsistent(c) && c.state == CallState.Initiated && c.worker == p.worker
    && c.provider == provider && c.providerCallId.None?
  }

  /** With an unused key both guarded writes are won. */
  lemma PlaceCallEffect(w: World, p: Pair, provider: ProviderId) returns (c: Call)
    requires p.Key() !in w.calls
    ensures Placed(c, p, provider)
    ensures PlaceCall(w, p, provider).1
    ensures CallSet(w, PlaceCall(w, p, provider).0, p.Key(), c)
  {
    var (w1, call) := CreateCall(w, p.Key(), provider, p.worker);
    assert CallSet(w, w1, p.Key(), call);
    WonTransitionCall(w1, p.Key(), CallState.Reserved);
    var (w2, reserved) := TryTransitionCall(w1, p.Key(), CallState.Reserved);
    CallSetTwice(w, w1, w2, p.Key(), call, reserved.value);
    WonTransitionCall(w2, p.Key(), CallState.Initiated);
    var (w3, initiated) := TryTransitionCall(w2, p.Key(), CallState.Initiated);
    CallSetTwice(w, w2, w3, p.Key(), reserved.value, initiated.value);
    c := initiated.value;
  }

  predicate OnTheCall(a: Agent, p: Pair) {
    a.state == AgentState.Dialing && a.lease == p.agent.lease && a.campaign == p.agent.campaign
    && a.currentCall == Some(p.Key())
  }

  lemma StartDialingEffect(w: World, p: Pair) returns (a: Agent)
    requires p.agentId in w.agents && w.agents[p.agentId] == p.agent
    requires p.agent.state == AgentState.Reserved && HeldBy(p.agent.lease, p.worker)
    ensures OnTheCall(a, p)
    ensures AgentSet(w, StartDialing(w, p), p.agentId, a)
  {
    WonTransitionAgent(w, p.agentId, AgentState.Dialing, Allocator);
    var (w1, r) := TryTransitionAgent(w, p.agentId, AgentState.Reserved, AgentState.Dialing, Allocator,
                                      p.agent.version);
    var (w2, bound) := TryBindCall(w1, p.agentId, p.worker, p.Key());
    AgentSetTwice(w, w1, w2, p.agentId, r.agent, bound.value);
    a := bound.value;
  }

  /** `w'` is `w` with agent and borrower replaced. */
  predicate PairSet(w: World, w': World, p: Pair, a: Agent, b: Borrower) {
    w' == w.(agents := w.agents[p.agentId := a], borrowers := w.borrowers[p.borrowerId := b],
             now := w'.now, delays := w'.delays)
    && w.now <= w'.now
  }

  lemma ReleasePairEffect(s: Settings, w: World, p: Pair, outcome: ReleaseOutcome) returns (a: Agent, b: Borrower)
    requires p.agentId in w.agents && p.borrowerId in w.borrowers
    requires w.agents[p.agentId].state == AgentState.Reserved || w.agents[p.agentId].state == AgentState.Dialing
    requires HeldBy(w.agents[p.agentId].lease, p.worker)
    requires w.borrowers[p.borrowerId].status == BorrowerStatus.Reserved
             && HeldBy(w.borrowers[p.borrowerId].lease, p.worker)
    ensures Freed(a, w.agents[p.agentId])
    ensures ReleaseBorrower(w.borrowers[p.borrowerId], p.worker, outcome, s.maxAttempts, s.backoffBase,
                            ReleasePair(s, w, p, outcome).now) == Some(b)
    ensures PairSet(w, ReleasePair(s, w, p, outcome), p, a, b)
  {
    ReleaseSources();
    WonReleaseAgent(w, p.agentId, p.worker, AgentState.Available, Allocator);
    var (w1, freed) := TryReleaseAgent(w, p.agentId, p.worker, AgentState.Available, Allocator);
    WonReleaseBorrower(s, w1, p.borrowerId, p.worker, outcome);
    var (w2, released) := TryReleaseBorrower(s, w1, p.borrowerId, p.worker, outcome);
    a, b := freed.value, released.value;
  }

  // ---------- the three outcomes, from before the claim ----------

  /** The retry gate was closed: both are given back and no call was created. */
  predicate Suppressed(s: Settings, w: World, w': World, p: Pair, a: Agent, b: Borrower) {
    && p.agentId in w.agents && Freed(a, w.agents[p.agentId])
    && ReleaseBorrower(p.borrower, p.worker, Released, s.maxAttempts, s.backoffBase, w'.now) == Some(b)
    && w' == w.(agents := w.agents[p.agentId := a], borrowers := w.borrowers[p.borrowerId := b],
                now := w'.now, delays := w'.delays)
  }

  /** The provider did not take the call: it is failed, the agent free, the attempt used up. */
  predicate DialFailed(s: Settings, w: World, w': World, p: Pair, a: Agent, b: Borrower, c: Call) {
    && p.agentId in w.agents && Freed(a, w.agents[p.agentId])
    && b == AfterRetry(p.borrower, s.maxAttempts, s.backoffBase, w'.now)
    && CallConsistent(c) && c.state == CallState.Failed && c.providerCallId.None?
    && w' == w.(agents := w.agents[p.agentId := a], borrowers := w.borrowers[p.borrowerId := b],
                calls := w.calls[p.Key() := c], now := w'.now, delays := w'.delays)
  }

  /** The provider took the call: the agent is dialing it, the borrower held, the provider's id on record. */
  predicate DialSucceeded(w: World, w': World, p: Pair, a: Agent, c: Call) {
    && OnTheCall(a, p)
    && CallConsistent(c) && c.state == CallState.Initiated && c.worker == p.worker && c.providerCallId.Some?
    && ProviderRef(c.provider, c.providerCallId.value) !in w.index
    && w' == w.(agents := w.agents[p.agentId := a], borrowers := w.borrowers[p.borrowerId := p.borrower],
                calls := w.calls[p.Key() := c],
                index := w.index[ProviderRef(c.provider, c.providerCallId.value) := p.Key()],
                now := w'.now, delays := w'.delays)
  }

  /** The state in which the provider is asked: reserved pair, initiated call, agent dialing. */
  predicate Asking(w: World, w': World, p: Pair, provider: ProviderId, a: Agent, c: Call) {
    && OnTheCall(a, p) && Placed(c, p, provider)
    && w' == w.(agents := w.agents[p.agentId := a], borrowers := w.borrowers[p.borrowerId := p.borrower],
                calls := w.calls[p.Key() := c], now := w'.now, delays := w'.delays)
  }

  lemma AskingEffect(s: Settings, w: World, w1: World, t: World, p: Pair, provider: ProviderId)
    returns (a: Agent, c: Call)
    requires PairClaimed(s, w, w1, p) && p.Key() !in w.calls && ClockOnly(w1, t)
    ensures PlaceCall(t, p, provider).1
    ensures Asking(w, StartDialing(PlaceCall(t, p, provider).0, p), p, provider, a, c)
  {
    c := PlaceCallEffect(t, p, provider);
    var w2 := PlaceCall(t, p, provider).0;
    a := StartDialingEffect(w2, p);
    var w3 := StartDialing(w2, p);
    assert w3.agents == w.agents[p.agentId := a];
  }

  lemma FailDialEffect(s: Settings, w: World, w1: World, w2: World, p: Pair, provider: ProviderId, a: Agent, c: Call)
    returns (freed: Agent, b: Borrower, failed: Call)
    requires PairClaimed(s, w, w1, p) && Asking(w, w2, p, provider, a, c)
    ensures DialFailed(s, w, FailDial(s, w2, p), p, freed, b, failed)
  {
    WonTransitionCall(w2, p.Key(), CallState.Failed);
    var (w3, moved) := TryTransitionCall(w2, p.Key(), CallState.Failed);
    failed := moved.value;
    assert w3.calls == w.calls[p.Key() := failed];
    freed, b := ReleasePairEffect(s, w3, p, Retry);
    var w4 := ReleasePair(s, w3, p, Retry);
    assert w4.agents == w.agents[p.agentId := freed];
    assert w4.borrowers == w.borrowers[p.borrowerId := b];
  }

  lemma AttachEffect(w: World, w2: World, p: Pair, provider: ProviderId, a: Agent, c: Call, id: ProviderCallId)
    returns (c': Call)
    requires Asking(w, w2, p, provider, a, c)
    ensures var (w3, attached) := TryAttach(w2, p.Key(), id);
            if attached.Some? then DialSucceeded(w, w3, p, a, c') else Asking(w, w3, p, provider, a, c)
  {
    var (w3, attached) := TryAttach(w2, p.Key(), id);
    c' := w3.calls[p.Key()];
    assert attached.Some? ==> w3.calls == w.calls[p.Key() := c'];
  }

  lemma SuppressedEffect(s: Settings, w: World, w1: World, t: World, p: Pair) returns (a: Agent, b: Borrower)
    requires PairClaimed(s, w, w1, p) && ClockOnly(w1, t)
    ensures Suppressed(s, w, ReleasePair(s, t, p, Released), p, a, b)
  {
    a, b := ReleasePairEffect(s, t, p, Released);
    var w' := ReleasePair(s, t, p, Released);
    assert w'.agents == w.agents[p.agentId := a];
    assert w'.borrowers == w.borrowers[p.borrowerId := b];
  }

  lemma FinishDialEffect(
    s: Settings, w: World, w1: World, w2: World, p: Pair, provider: ProviderId, reply: Reply, dialing: Agent,
    placed: Call
  ) returns (a: Agent, b: Borrower, c: Call)
    requires PairClaimed(s, w, w1, p) && Asking(w, w2, p, provider, dialing, placed)
    ensures var (w', dialled) := FinishDial(s, w2, p, reply);
            if dialled then DialSucceeded(w, w', p, a, c) else DialFailed(s, w, w', p, a, b, c)
  {
    a, b, c := dialing, p.borrower, placed;
    if !reply.Accepted? {
      a, b, c := FailDialEffect(s, w, w1, w2, p, provider, dialing, placed);
    } else {
      c := AttachEffect(w, w2, p, provider, dialing, placed, reply.id);
      var (w3, attached) := TryAttach(w2, p.Key(), reply.id);
      if attached.None? {
        a, b, c := FailDialEffect(s, w, w1, w3, p, provider, dialing, placed);
      }
    }
  }

  lemma PlaceAndAskEffect(s: Settings, w: World, w1: World, t: World, p: Pair, provider: ProviderId, reply: Reply)
    returns (a: Agent, b: Borrower, c: Call)
    requires PairClaimed(s, w, w1, p) && p.Key() !in w.calls && ClockOnly(w1, t)
    ensures var (w', dialled) := PlaceAndAsk(s, t, p, provider, reply);
            if dialled then DialSucceeded(w, w', p, a, c) else DialFailed(s, w, w', p, a, b, c)
  {
    var dialing, placed := AskingEffect(s, w, w1, t, p, provider);
    a, b, c := FinishDialEffect(s, w, w1, StartDialing(PlaceCall(t, p, provider).0, p), p, provider, reply, dialing,
                                placed);
  }

  /** One dial, whatever the gate and the provider answer, ends in one of exactly three ways. */
  lemma DialEffect(s: Settings, w: World, w1: World, p: Pair, provider: ProviderId, healthy: bool, reply: Reply)
    returns (a: Agent, b: Borrower, c: Call)
    requires PairClaimed(s, w, w1, p) && p.Key() !in w.calls
    ensures var (w', dialled) := Dial(s, w1, p, provider, healthy, reply);
            if dialled then DialSucceeded(w, w', p, a, c)
            else Suppressed(s, w, w', p, a, b) || DialFailed(s, w, w', p, a, b, c)
  {
    var t := if p.borrower.attemptCount > 0 then Tick(w1) else w1;
    assert ClockOnly(w1, t);
    if p.borrower.attemptCount > 0 && !ShouldRetry(s, p.borrower, t.now, healthy) {
      a, b := SuppressedEffect(s, w, w1, t, p);
      c := NewCall(provider, p.worker, 0);
    } else {
      a, b, c := PlaceAndAskEffect(s, w, w1, t, p, provider, reply);
    }
  }

  // ---------- each outcome is a unit of work ----------

  /** What the invariant says of a pair that can be claimed. */
  ghost predicate PairReady(s: Settings, w: World, p: Pair) {
    && p.Key() !in w.calls
    && Alone(w, p.agentId, p.borrowerId, p.Key())
    && p.borrowerId in w.borrowers && BorrowerOk(s, w.borrowers[p.borrowerId])
    && IndexOk(w)
  }

  lemma ClaimedPairIsReady(s: Settings, w: World, w1: World, p: Pair)
    requires Inv(s, w) && PairClaimed(s, w, w1, p)
    ensures PairReady(s, w, p)
  {
    KeyIsFresh(s, w, w1, p);
  }

  lemma SuppressedIsUnit(s: Settings, w: World, w1: World, w': World, p: Pair, a: Agent, b: Borrower)
    requires PairReady(s, w, p) && PairClaimed(s, w, w1, p) && Suppressed(s, w, w', p, a, b)
    ensures Unit(s, w, w', p.Key())
  {
    ReplacementIsUnit(s, w, w', p.agentId, p.borrowerId, p.Key());
  }

  lemma DialFailedIsUnit(s: Settings, w: World, w1: World, w': World, p: Pair, a: Agent, b: Borrower, c: Call)
    requires PairReady(s, w, p) && PairClaimed(s, w, w1, p) && DialFailed(s, w, w', p, a, b, c)
    ensures Unit(s, w, w', p.Key())
  {
    ReplacementIsUnit(s, w, w', p.agentId, p.borrowerId, p.Key());
  }

  lemma DialSucceededIsUnit(s: Settings, w: World, w1: World, w': World, p: Pair, a: Agent, c: Call)
    requires PairReady(s, w, p) && PairClaimed(s, w, w1, p) && DialSucceeded(w, w', p, a, c)
    ensures Unit(s, w, w', p.Key())
  {
    ReplacementIsUnit(s, w, w', p.agentId, p.borrowerId, p.Key());
  }

  /** Reserving and dialing keeps every link, whether it is contended, suppressed, failed or connected. */
  lemma AttemptKeepsInv(
    s: Settings, w: World, campaign: CampaignId, provider: ProviderId, worker: WorkerId, input: DialInput
  )
    requires Inv(s, w)
    ensures Inv(s, AttemptDial(s, w, campaign, provider, worker, input).0)
  {
    var (w1, pair) := ReservePair(s, w, campaign, worker, input.agentOrder, input.borrowerOrder);
    var returned := ReservePairEffect(s, w, campaign, worker, input.agentOrder, input.borrowerOrder);
    if pair.None? {
      if AgentReturned(w, w1, returned) {
        IdleHasNoCall(s, w, returned);
        IdleAgentKeepsInv(s, w, w1, returned);
      } else {
        ClockKeepsInv(s, w, w1);
      }
    } else {
      var p := pair.value;
      ClaimedPairIsReady(s, w, w1, p);
      var a, b, c := DialEffect(s, w, w1, p, provider, input.healthy, input.reply);
      var (w', dialled) := Dial(s, w1, p, provider, input.healthy, input.reply);
      if dialled {
        DialSucceededIsUnit(s, w, w1, w', p, a, c);
      } else if Suppressed(s, w, w', p, a, b) {
        SuppressedIsUnit(s, w, w1, w', p, a, b);
      } else {
        DialFailedIsUnit(s, w, w1, w', p, a, b, c);
      }
      UnitKeepsInv(s, w, w', p.Key());
    }
  }
}
