/** Which pair an attempt claims, and what becomes of its dial: exactly, on the store before it. */
module DialOutcomes {
  import opened Basics
  import opened AgentMachine
  import opened CallMachine
  import opened Documents
  import opened Store
  import opened Effects
  import opened Handlers
  import opened Linking
  import opened DialKeepsLinks
  import opened SweepOutcomes

  // ---------- the gate ----------

  /** The clock as the `n`th next reading finds it. */
  function ClockAt(now: Time, delays: seq<nat>, n: nat): Time
    decreases n
  {
    if n == 0 || delays == [] then now else ClockAt(now + delays[0], delays[1..], n - 1)
  }

  /** A borrower called before is not called again: out of attempts, not yet eligible, or its provider unhealthy. */
  predicate HeldBack(s: Settings, b: Borrower, at: Time, healthy: bool) {
    b.attemptCount > 0 && (b.attemptCount >= s.maxAttempts || at < b.nextEligibleAt || !healthy)
  }

  /** The provider accepts the call under an id that no other call has. */
  predicate Taken(w: World, provider: ProviderId, reply: Reply) {
    reply.Accepted? && ProviderRef(provider, reply.id) !in w.index
  }

  lemma FinishedAsReplied(
    s: Settings, w: World, w2: World, p: Pair, provider: ProviderId, reply: Reply, a: Agent, c: Call
  )
    requires Asking(w, w2, p, provider, a, c)
    ensures FinishDial(s, w2, p, reply).1 <==> Taken(w, provider, reply)
    ensures Taken(w, provider, reply) ==>
              var w' := FinishDial(s, w2, p, reply).0;
              p.Key() in w'.calls && w'.calls[p.Key()].provider == provider
              && w'.calls[p.Key()].providerCallId == Some(reply.id)
  {
  }

  lemma AskedAsReplied(s: Settings, w: World, w1: World, t: World, p: Pair, provider: ProviderId, reply: Reply)
    requires PairClaimed(s, w, w1, p) && p.Key() !in w.calls && ClockOnly(w1, t)
    ensures PlaceAndAsk(s, t, p, provider, reply).1 <==> Taken(w, provider, reply)
    ensures Taken(w, provider, reply) ==>
              var w' := PlaceAndAsk(s, t, p, provider, reply).0;
              p.Key() in w'.calls && w'.calls[p.Key()].provider == provider
              && w'.calls[p.Key()].providerCallId == Some(reply.id)
  {
    var a, c := AskingEffect(s, w, w1, t, p, provider);
    FinishedAsReplied(s, w, StartDialing(PlaceCall(t, p, provider).0, p), p, provider, reply, a, c);
  }

  /** Both are given back as they were, but for the agent's old lease and call, and no call is created. */
  predicate GivenBack(w: World, w': World, p: Pair) {
    && p.agentId in w'.agents && AtRest(w'.agents[p.agentId]) && p.borrowerId in w'.borrowers
    && w'.borrowers[p.borrowerId]
       == p.borrower.(status := BorrowerStatus.Pending, lease := None, version := p.borrower.version + 1)
    && w'.calls == w.calls && w'.index == w.index
  }

  /** The call exists and has failed; the agent is free, the attempt used up. */
  ghost predicate GivenUp(s: Settings, w: World, w': World, p: Pair) {
    && p.agentId in w'.agents && AtRest(w'.agents[p.agentId])
    && p.borrowerId in w'.borrowers && Retried(s, p.borrower, w'.borrowers[p.borrowerId])
    && p.Key() in w'.calls && w'.calls == w.calls[p.Key() := w'.calls[p.Key()]] && w'.index == w.index
    && w'.calls[p.Key()].state == CallState.Failed && w'.calls[p.Key()].terminal
    && w'.calls[p.Key()].providerCallId.None?
  }

  /** The call is with the provider under its id, the agent dialing it, the borrower held. */
  predicate UnderWay(w: World, w': World, p: Pair, provider: ProviderId, id: ProviderCallId) {
    && p.agentId in w'.agents && w'.agents[p.agentId].state == AgentState.Dialing
    && w'.agents[p.agentId].currentCall == Some(p.Key()) && w'.agents[p.agentId].lease == p.agent.lease
    && p.borrowerId in w'.borrowers && w'.borrowers[p.borrowerId] == p.borrower
    && p.Key() in w'.calls && w'.calls == w.calls[p.Key() := w'.calls[p.Key()]]
    && w'.index == w.index[ProviderRef(provider, id) := p.Key()]
    && var c := w'.calls[p.Key()];
       c.state == CallState.Initiated && !c.terminal && c.provider == provider && c.providerCallId == Some(id)
       && c.worker == p.worker
  }

  lemma SuppressedIsGivenBack(s: Settings, w: World, w': World, p: Pair, a: Agent, b: Borrower)
    requires Suppressed(s, w, w', p, a, b)
    ensures GivenBack(w, w', p)
  {
  }

  lemma FailedIsGivenUp(s: Settings, w: World, w': World, p: Pair, a: Agent, b: Borrower, c: Call)
    requires DialFailed(s, w, w', p, a, b, c)
    ensures GivenUp(s, w, w', p)
  {
    RetryIsExact(s, p.borrower, w'.now);
  }

  lemma SucceededIsUnderWay(
    w: World, w': World, p: Pair, provider: ProviderId, id: ProviderCallId, a: Agent, c: Call
  )
    requires DialSucceeded(w, w', p, a, c)
    requires p.Key() in w'.calls && w'.calls[p.Key()].provider == provider
    requires w'.calls[p.Key()].providerCallId == Some(id)
    ensures UnderWay(w, w', p, provider, id)
  {
  }

  /**
   * What becomes of a dial whose key is unused, as it is on a linked store (`KeyIsFresh`), decided by the gate's
   * reading of the clock, the provider's health and its reply: it creates no call exactly when the gate holds the
   * borrower back; otherwise the call is under way, or given up.
   */
  lemma DialOutcome(s: Settings, w: World, w1: World, p: Pair, provider: ProviderId, healthy: bool, reply: Reply)
    requires PairClaimed(s, w, w1, p) && p.Key() !in w.calls
    ensures var (w', dialled) := Dial(s, w1, p, provider, healthy, reply);
            var heldBack := HeldBack(s, p.borrower, ClockAt(w1.now, w1.delays, 1), healthy);
            && (heldBack <==> p.Key() !in w'.calls)
            && (heldBack ==> !dialled && GivenBack(w, w', p))
            && (!heldBack && Taken(w, provider, reply) ==> dialled && UnderWay(w, w', p, provider, reply.id))
            && (!heldBack && !Taken(w, provider, reply) ==> !dialled && GivenUp(s, w, w', p))
  {
    var t := if p.borrower.attemptCount > 0 then Tick(w1) else w1;
    ReadOnce(w1);
    if HeldBack(s, p.borrower, ClockAt(w1.now, w1.delays, 1), healthy) {
      var a, b := SuppressedEffect(s, w, w1, t, p);
      SuppressedIsGivenBack(s, w, ReleasePair(s, t, p, Released), p, a, b);
    } else {
      AskedOutcome(s, w, w1, t, p, provider, reply);
    }
  }

  lemma ReadOnce(w: World)
    ensures Tick(w).now == ClockAt(w.now, w.delays, 1)
  {
  }

  lemma AskedOutcome(s: Settings, w: World, w1: World, t: World, p: Pair, provider: ProviderId, reply: Reply)
    requires PairClaimed(s, w, w1, p) && p.Key() !in w.calls && ClockOnly(w1, t)
    ensures var (w', dialled) := PlaceAndAsk(s, t, p, provider, reply);
            if Taken(w, provider, reply) then dialled && UnderWay(w, w', p, provider, reply.id)
            else !dialled && GivenUp(s, w, w', p)
  {
    var (w', dialled) := PlaceAndAsk(s, t, p, provider, reply);
    var a, b, c := PlaceAndAskEffect(s, w, w1, t, p, provider, reply);
    AskedAsReplied(s, w, w1, t, p, provider, reply);
    if dialled {
      SucceededIsUnderWay(w, w', p, provider, reply.id, a, c);
    } else {
      FailedIsGivenUp(s, w, w', p, a, b, c);
    }
  }

  // ---------- the claim ----------

  /** `x` is the first in the order that is in the set. */
  predicate FirstOf<T(==)>(x: T, order: seq<T>, matching: set<T>) {
    exists i :: 0 <= i < |order| && order[i] == x && x in matching && forall j :: 0 <= j < i ==> order[j] !in matching
  }

  lemma {:induction false} PickIsFirst<T>(matching: set<T>, order: seq<T>, limit: nat)
    requires limit > 0
    ensures Pick(matching, order, limit) == [] <==> forall x :: x in order ==> x !in matching
    ensures Pick(matching, order, limit) != [] ==> FirstOf(Pick(matching, order, limit)[0], order, matching)
    decreases |order|
  {
    if order == [] {
    } else if order[0] in matching {
      assert order[0] in order;
      assert FirstOf(order[0], order, matching);
    } else {
      PickIsFirst(matching, order[1..], limit);
      if Pick(matching, order[1..], limit) != [] {
        var x := Pick(matching, order[1..], limit)[0];
        var i :| 0 <= i < |order| - 1 && order[1..][i] == x && forall j :: 0 <= j < i ==> order[1..][j] !in matching;
        assert order[i + 1] == x;
        forall j | 0 <= j < i + 1 ensures order[j] !in matching {
          if j > 0 { assert order[j] == order[1..][j - 1]; }
        }
        assert FirstOf(x, order, matching);
      }
    }
  }

  function FreeAgents(w: World, campaign: CampaignId): set<AgentId> {
    set id | id in w.agents && w.agents[id].campaign == campaign && w.agents[id].state == AgentState.Available
  }

  function EligibleBorrowers(w: World, campaign: CampaignId, at: Time): set<BorrowerId> {
    set b | b in w.borrowers && w.borrowers[b].campaign == campaign
            && w.borrowers[b].status == BorrowerStatus.Pending && w.borrowers[b].nextEligibleAt <= at
  }

  predicate SameClock(w: World, w': World) {
    w.now == w'.now && w.delays == w'.delays
  }

  lemma ReadingsAdd(w: World, n: nat)
    ensures ClockAt(Tick(w).now, Tick(w).delays, n) == ClockAt(w.now, w.delays, n + 1)
  {
  }

  lemma FirstAgentIsClaimed(
    s: Settings, w: World, campaign: CampaignId, worker: WorkerId, order: seq<AgentId>
  )
    ensures var (w', claim) :=
              ClaimAgent(s, w, campaign, worker, Pick(AvailableAgents(w, campaign), order, CLAIM_WINDOW));
            && (claim.None? ==> w' == w && forall id :: id in order ==> id !in FreeAgents(w, campaign))
            && (claim.Some? ==>
                  FirstOf(claim.value.0, order, FreeAgents(w, campaign)) && w'.borrowers == w.borrowers
                  && SameClock(w', Tick(w))
                  && claim.value.1.lease == Some(Lease(worker, w'.now, w'.now + s.ttl)))
  {
    assert AvailableAgents(w, campaign) == FreeAgents(w, campaign);
    PickIsFirst(FreeAgents(w, campaign), order, CLAIM_WINDOW);
    var candidates := Pick(FreeAgents(w, campaign), order, CLAIM_WINDOW);
    if candidates != [] {
      assert candidates[0] in candidates;
      assert TryReserveAgent(w, campaign, candidates[0], worker, s.ttl).1.Some?;
    }
  }

  lemma FirstBorrowerIsClaimed(
    s: Settings, w: World, campaign: CampaignId, worker: WorkerId, order: seq<BorrowerId>
  )
    ensures var (w', claim) :=
              ClaimBorrower(s, w, campaign, worker, Pick(ClaimableBorrowers(w, campaign), order, CLAIM_WINDOW));
            var eligible := EligibleBorrowers(w, campaign, w.now);
            && (claim.None? ==> forall b :: b in order ==> b !in eligible)
            && (claim.Some? ==> FirstOf(claim.value.0, order, eligible) && SameClock(w', Tick(w)))
  {
    var eligible := EligibleBorrowers(w, campaign, w.now);
    assert ClaimableBorrowers(w, campaign) == eligible;
    PickIsFirst(eligible, order, CLAIM_WINDOW);
    var candidates := Pick(eligible, order, CLAIM_WINDOW);
    if candidates != [] {
      assert candidates[0] in candidates;
      assert TryReserveBorrower(w, campaign, candidates[0], worker, s.ttl).1.Some?;
    }
  }

  /**
   * Without competition a pair is reserved exactly when the queries list a free agent of the campaign and a
   * borrower of it that is pending and eligible by the second reading of the clock, and then the first of each.
   */
  lemma PairIsTheFirst(
    s: Settings, w: World, campaign: CampaignId, worker: WorkerId, agents: seq<AgentId>, borrowers: seq<BorrowerId>
  )
    ensures var pair := ReservePair(s, w, campaign, worker, agents, borrowers).1;
            var free, eligible := FreeAgents(w, campaign), EligibleBorrowers(w, campaign, ClockAt(w.now, w.delays, 2));
            && (pair.Some? <==> (exists a :: a in agents && a in free) && exists b :: b in borrowers && b in eligible)
            && (pair.Some? ==> FirstOf(pair.value.agentId, agents, free)
                               && FirstOf(pair.value.borrowerId, borrowers, eligible))
    ensures var (w', pair) := ReservePair(s, w, campaign, worker, agents, borrowers);
            pair.Some? ==> ClockAt(w'.now, w'.delays, 1) == ClockAt(w.now, w.delays, 4)
  {
    FirstAgentIsClaimed(s, w, campaign, worker, agents);
    var (w1, a) := ClaimAgent(s, w, campaign, worker, Pick(AvailableAgents(w, campaign), agents, CLAIM_WINDOW));
    if a.Some? {
      var w2 := Tick(w1);
      FirstBorrowerIsClaimed(s, w2, campaign, worker, borrowers);
      SecondReading(w, w1, w2, campaign);
      FirstIsListed(a.value.0, agents, FreeAgents(w, campaign));
      var b :=
        ClaimBorrower(s, w2, campaign, worker, Pick(ClaimableBorrowers(w2, campaign), borrowers, CLAIM_WINDOW)).1;
      ReadingsAdd(w, 3);
      ReadingsAdd(w1, 2);
      ReadingsAdd(w2, 1);
      if b.Some? { FirstIsListed(b.value.0, borrowers, EligibleBorrowers(w2, campaign, w2.now)); }
    }
  }

  lemma FirstIsListed<T>(x: T, order: seq<T>, matching: set<T>)
    requires FirstOf(x, order, matching)
    ensures x in order && x in matching
  {
  }

  lemma SecondReading(w: World, w1: World, w2: World, campaign: CampaignId)
    requires w2 == Tick(w1) && w1.borrowers == w.borrowers && SameClock(w1, Tick(w))
    ensures EligibleBorrowers(w2, campaign, w2.now)
            == EligibleBorrowers(w, campaign, ClockAt(w.now, w.delays, 2))
  {
    ReadingsAdd(w, 1);
    ReadOnce(w1);
  }

  // ---------- a whole attempt ----------

  /** The pair is reserved by its worker, the agent at the clock's first reading, the borrower at the third. */
  predicate ClaimedAt(s: Settings, w: World, p: Pair) {
    && p.agentId in w.agents && p.borrowerId in w.borrowers
    && var at, later := ClockAt(w.now, w.delays, 1), ClockAt(w.now, w.delays, 3);
       && p.agent == w.agents[p.agentId].(state := AgentState.Reserved, version := w.agents[p.agentId].version + 1,
                                          stateChangedAt := at, lease := Some(Lease(p.worker, at, at + s.ttl)))
       && p.borrower == w.borrowers[p.borrowerId].(status := BorrowerStatus.Reserved,
                                                   version := w.borrowers[p.borrowerId].version + 1,
                                                   lease := Some(Lease(p.worker, later, later + s.ttl)))
  }

  lemma FirstTryIsMade(s: Settings, w: World, campaign: CampaignId, worker: WorkerId, candidates: seq<AgentId>)
    requires candidates != [] && candidates[0] in FreeAgents(w, campaign)
    ensures var claim := ClaimAgent(s, w, campaign, worker, candidates).1;
            var a, at := w.agents[candidates[0]], ClockAt(w.now, w.delays, 1);
            && claim.Some? && claim.value.0 == candidates[0]
            && claim.value.1 == a.(state := AgentState.Reserved, version := a.version + 1, stateChangedAt := at,
                                   lease := Some(Lease(worker, at, at + s.ttl)))
  {
    ReadOnce(w);
    assert TryReserveAgent(w, campaign, candidates[0], worker, s.ttl).1.Some?;
  }

  lemma FirstHoldIsMade(s: Settings, w: World, campaign: CampaignId, worker: WorkerId, candidates: seq<BorrowerId>)
    requires candidates != [] && candidates[0] in EligibleBorrowers(w, campaign, w.now)
    ensures var claim := ClaimBorrower(s, w, campaign, worker, candidates).1;
            var b, at := w.borrowers[candidates[0]], ClockAt(w.now, w.delays, 1);
            && claim.Some? && claim.value.0 == candidates[0]
            && claim.value.1 == b.(status := BorrowerStatus.Reserved, version := b.version + 1,
                                   lease := Some(Lease(worker, at, at + s.ttl)))
  {
    ReadOnce(w);
    assert TryReserveBorrower(w, campaign, candidates[0], worker, s.ttl).1.Some?;
  }

  lemma PairIsClaimedAt(
    s: Settings, w: World, campaign: CampaignId, worker: WorkerId, agents: seq<AgentId>, borrowers: seq<BorrowerId>
  )
    ensures var pair := ReservePair(s, w, campaign, worker, agents, borrowers).1;
            pair.Some? ==> ClaimedAt(s, w, pair.value)
  {
    assert AvailableAgents(w, campaign) == FreeAgents(w, campaign);
    var first := Pick(AvailableAgents(w, campaign), agents, CLAIM_WINDOW);
    FirstAgentIsClaimed(s, w, campaign, worker, agents);
    if first != [] {
      assert first[0] in first;
      FirstTryIsMade(s, w, campaign, worker, first);
      var (w1, a) := ClaimAgent(s, w, campaign, worker, first);
      var w2 := Tick(w1);
      assert ClaimableBorrowers(w2, campaign) == EligibleBorrowers(w2, campaign, w2.now);
      var second := Pick(ClaimableBorrowers(w2, campaign), borrowers, CLAIM_WINDOW);
      ReadingsAdd(w, 2);
      ReadingsAdd(w1, 1);
      if second != [] {
        assert second[0] in second;
        FirstHoldIsMade(s, w2, campaign, worker, second);
      }
    }
  }

  /**
   * What becomes of an attempt on a linked store. It is contended exactly when there is no free agent or no
   * eligible borrower to claim. Otherwise it deals with the first of each, as the dial's outcome says, and counts
   * as allocated exactly when the call is under way.
   */
  lemma AttemptOutcome(
    s: Settings, w: World, campaign: CampaignId, provider: ProviderId, worker: WorkerId, input: DialInput
  ) returns (p: Pair)
    requires Inv(s, w)
    ensures var (w', a) := AttemptDial(s, w, campaign, provider, worker, input);
            var free, eligible := FreeAgents(w, campaign), EligibleBorrowers(w, campaign, ClockAt(w.now, w.delays, 2));
            var heldBack := HeldBack(s, p.borrower, ClockAt(w.now, w.delays, 4), input.healthy);
            var taken := Taken(w, provider, input.reply);
            && (a == ContendedAttempt <==>
                  !((exists id :: id in input.agentOrder && id in free)
                    && exists b :: b in input.borrowerOrder && b in eligible))
            && (a == AllocatedAttempt ==> !heldBack && taken)
            && (a == FailedAttempt ==> heldBack || !taken)
            && (a != ContendedAttempt ==>
                  && FirstOf(p.agentId, input.agentOrder, free) && FirstOf(p.borrowerId, input.borrowerOrder, eligible)
                  && p.campaign == campaign && p.worker == worker && ClaimedAt(s, w, p)
                  && (heldBack ==> GivenBack(w, w', p))
                  && (!heldBack && taken ==> UnderWay(w, w', p, provider, input.reply.id))
                  && (!heldBack && !taken ==> GivenUp(s, w, w', p)))
  {
    var (w1, pair) := ReservePair(s, w, campaign, worker, input.agentOrder, input.borrowerOrder);
    PairIsTheFirst(s, w, campaign, worker, input.agentOrder, input.borrowerOrder);
    PairIsClaimedAt(s, w, campaign, worker, input.agentOrder, input.borrowerOrder);
    var _ := ReservePairEffect(s, w, campaign, worker, input.agentOrder, input.borrowerOrder);
    if pair.Some? {
      p := pair.value;
      KeyIsFresh(s, w, w1, p);
      DialOutcome(s, w, w1, p, provider, input.healthy, input.reply);
    } else {
      p :| true;
    }
  }

  // ---------- a claim with competition ----------

  function CountIn<T(==)>(order: seq<T>, matching: set<T>): nat {
    if order == [] then 0 else (if order[0] in matching then 1 else 0) + CountIn(order[1..], matching)
  }

  /** `x` is in the set, and fewer than `n` of the set come before it in the order. */
  predicate AmongFirst<T(==)>(n: nat, x: T, order: seq<T>, matching: set<T>) {
    exists i :: 0 <= i < |order| && order[i] == x && x in matching && CountIn(order[..i], matching) < n
  }

  lemma {:induction false} PickIsTheFirstFew<T>(matching: set<T>, order: seq<T>, limit: nat, x: T)
    ensures x in Pick(matching, order, limit) <==> AmongFirst(limit, x, order, matching)
    decreases |order|
  {
    if order == [] || limit == 0 {
    } else {
      var left := if order[0] in matching then limit - 1 else limit;
      PickIsTheFirstFew(matching, order[1..], left, x);
      if AmongFirst(left, x, order[1..], matching) {
        var i :| 0 <= i < |order| - 1 && order[1..][i] == x && CountIn(order[1..][..i], matching) < left;
        assert order[..i + 1][1..] == order[1..][..i] && order[i + 1] == x;
        assert CountIn(order[..i + 1], matching) < limit;
      }
      if AmongFirst(limit, x, order, matching) {
        var i :| 0 <= i < |order| && order[i] == x && CountIn(order[..i], matching) < limit;
        if i > 0 {
          assert order[..i][1..] == order[1..][..i - 1] && order[1..][i - 1] == x;
          assert CountIn(order[1..][..i - 1], matching) < left;
        } else {
          assert CountIn(order[..0], matching) == 0;
        }
      }
    }
  }

  lemma {:induction false} ClaimFailsIffNoneIsFree(
    s: Settings, w: World, campaign: CampaignId, worker: WorkerId, candidates: seq<AgentId>
  )
    ensures ClaimAgent(s, w, campaign, worker, candidates).1.None?
            <==> forall id :: id in candidates ==> id !in FreeAgents(w, campaign)
    decreases |candidates|
  {
    if candidates == [] {
    } else {
      var (t, r) := TryReserveAgent(w, campaign, candidates[0], worker, s.ttl);
      if r.None? {
        ClaimFailsIffNoneIsFree(s, t, campaign, worker, candidates[1..]);
        assert FreeAgents(t, campaign) == FreeAgents(w, campaign);
      } else {
        assert candidates[0] in candidates;
      }
    }
  }

  /** With competition a claim fails exactly when the first three agents its query listed have all been taken. */
  lemma ThreeMustBeLost(
    s: Settings, read: World, w: World, campaign: CampaignId, worker: WorkerId, order: seq<AgentId>
  )
    ensures ClaimAgent(s, w, campaign, worker, Pick(AvailableAgents(read, campaign), order, CLAIM_WINDOW)).1.None?
            <==> forall id :: AmongFirst(3, id, order, FreeAgents(read, campaign)) ==> id !in FreeAgents(w, campaign)
  {
    assert AvailableAgents(read, campaign) == FreeAgents(read, campaign);
    var candidates := Pick(FreeAgents(read, campaign), order, CLAIM_WINDOW);
    ClaimFailsIffNoneIsFree(s, w, campaign, worker, candidates);
    forall id ensures id in candidates <==> AmongFirst(3, id, order, FreeAgents(read, campaign)) {
      PickIsTheFirstFew(FreeAgents(read, campaign), order, CLAIM_WINDOW, id);
    }
  }
}
