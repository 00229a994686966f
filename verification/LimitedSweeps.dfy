/**
 * Recovery whose limit or queries may leave expired agents behind: exactly when a run of the five sweeps
 * keeps every link, as a condition on the store before it.
 */
module LimitedSweeps {
  import opened Basics
  import opened AgentMachine
  import opened CallMachine
  import opened Documents
  import opened Store
  import opened Effects
  import opened Handlers
  import opened Linking
  import opened RecoveryKeepsLinks
  import opened SweepsKeepLinks

  /** No query lists a document twice; it may leave some out, or fail and list none. */
  predicate OrdersDistinct(input: SweepInput) {
    && Distinct(input.expired) && Distinct(input.borrowers) && Distinct(input.calls)
    && Distinct(input.silent) && Distinct(input.wrapUps)
  }

  function PickedAgents(s: Settings, w: World, now: Time, input: SweepInput): seq<AgentId> {
    Pick(ExpiredAgents(w, now), input.expired, s.sweepLimit)
  }

  /** The borrowers of the active calls these agents are on. */
  function BorrowersOf(w: World, ids: seq<AgentId>): set<BorrowerId> {
    set k | k in w.calls && !w.calls[k].terminal && k.agent in ids :: k.borrower
  }

  function PickedBorrowers(s: Settings, w: World, now: Time, input: SweepInput): seq<BorrowerId> {
    Pick(ExpiredBorrowers(w, now) - BorrowersOf(w, PickedAgents(s, w, now, input)), input.borrowers, s.sweepLimit)
  }

  /** No call whose agent the sweep leaves alone has its borrower among those it takes. */
  ghost predicate CallsKeepBorrowers(s: Settings, w: World, now: Time, input: SweepInput) {
    forall k :: Active(w, k) && k.agent !in PickedAgents(s, w, now, input) ==>
      k.borrower !in PickedBorrowers(s, w, now, input)
  }

  // ---------- what the agent sweep leaves ----------

  /** The active calls of these agents are over and their borrowers let go of; no other call or borrower is touched. */
  ghost predicate CallsOver(w: World, w': World, ids: seq<AgentId>) {
    && w'.borrowers.Keys == w.borrowers.Keys
    && (forall k :: Active(w', k) <==> Active(w, k) && k.agent !in ids)
    && (forall b :: b in w.borrowers ==>
          if b in BorrowersOf(w, ids) then !Releasable(w'.borrowers[b].status) else w'.borrowers[b] == w.borrowers[b])
  }

  lemma OneAgentSwept(s: Settings, w: World, id: AgentId, now: Time)
    requires Inv(s, w) && id in w.agents && AgentLeaseExpired(w.agents[id], now)
    ensures var w' := RecoverAgent(s, w, id, w.agents[id], now).0;
            Inv(s, w') && OthersSame(w, w', [id]) && CallsOver(w, w', [id])
  {
    InvGivesBoundOk(s, w, id);
    var a := RecoverAgentEffect(s, w, id, now);
    var w' := RecoverAgent(s, w, id, w.agents[id], now).0;
    StandDownOutcome(s, w, w', id, a);
  }

  lemma StandDownOutcome(s: Settings, w: World, w': World, id: AgentId, a: Agent)
    requires Inv(s, w) && AgentStoodDown(s, w, w', id, a) && w'.agents == w.agents[id := a]
    ensures Inv(s, w') && OthersSame(w, w', [id]) && CallsOver(w, w', [id])
  {
    StandDownKeepsInv(s, w, w', id, a);
    StandDownEndsCalls(s, w, w', id, a);
  }

  lemma StandDownEndsCalls(s: Settings, w: World, w': World, id: AgentId, a: Agent)
    requires Inv(s, w) && AgentStoodDown(s, w, w', id, a)
    ensures CallsOver(w, w', [id])
  {
    if OnActiveCall(w, w.agents[id]) {
      var key := w.agents[id].currentCall.value;
      ActiveIsAlone(s, w, key);
      var b, c :| CallEnded(s, w, w', key, a, b, c);
      OneCallOver(s, w, w', key, a, b, c);
    } else {
      NoCallOver(s, w, w', id, a);
    }
  }

  lemma OneCallOver(s: Settings, w: World, w': World, key: CallKey, a: Agent, b: Borrower, c: Call)
    requires Active(w, key) && Alone(w, key.agent, key.borrower, key) && CallEnded(s, w, w', key, a, b, c)
    ensures CallsOver(w, w', [key.agent])
  {
    assert BorrowersOf(w, [key.agent]) == {key.borrower};
  }

  lemma NoCallOver(s: Settings, w: World, w': World, id: AgentId, a: Agent)
    requires Inv(s, w) && id in w.agents && !OnActiveCall(w, w.agents[id])
    requires w' == w.(agents := w.agents[id := a], now := w'.now, delays := w'.delays)
    ensures CallsOver(w, w', [id])
  {
    forall k | Active(w, k) ensures k.agent != id {
      assert Linked(w, k);
    }
  }

  lemma CallsOverTogether(w: World, w1: World, w2: World, id: AgentId, rest: seq<AgentId>)
    requires CallsOver(w, w1, [id]) && CallsOver(w1, w2, rest)
    requires forall b :: b in BorrowersOf(w, [id]) ==> b !in BorrowersOf(w1, rest)
    ensures CallsOver(w, w2, [id] + rest)
  {
    forall b | b in w.borrowers
      ensures if b in BorrowersOf(w, [id] + rest) then !Releasable(w2.borrowers[b].status)
              else w2.borrowers[b] == w.borrowers[b]
    {
      TogetherOrNeither(w, w1, id, rest, b);
    }
  }

  lemma TogetherOrNeither(w: World, w1: World, id: AgentId, rest: seq<AgentId>, b: BorrowerId)
    requires CallsOver(w, w1, [id])
    ensures b in BorrowersOf(w, [id] + rest) <==> b in BorrowersOf(w, [id]) || b in BorrowersOf(w1, rest)
  {
    if b in BorrowersOf(w, [id] + rest) {
      var k :| k in w.calls && !w.calls[k].terminal && k.agent in [id] + rest && k.borrower == b;
      assert k.agent == id || Active(w1, k);
    }
    if b in BorrowersOf(w1, rest) {
      var k :| k in w1.calls && !w1.calls[k].terminal && k.agent in rest && k.borrower == b;
      assert Active(w1, k);
    }
  }

  /** An active call's borrower is in no other active call. */
  lemma BorrowersApart(s: Settings, w: World, w1: World, id: AgentId, rest: seq<AgentId>)
    requires Inv(s, w) && CallsOver(w, w1, [id])
    ensures forall b :: b in BorrowersOf(w, [id]) ==> b !in BorrowersOf(w1, rest)
  {
    forall b | b in BorrowersOf(w, [id]) ensures b !in BorrowersOf(w1, rest) {
      var k :| k in w.calls && !w.calls[k].terminal && k.agent in [id] && k.borrower == b;
      ActiveIsAlone(s, w, k);
      forall x | Active(w1, x) ensures x.borrower != b {
        assert Active(w, x);
      }
    }
  }

  lemma SweptTogether(s: Settings, w: World, w1: World, w2: World, ids: seq<AgentId>)
    requires Inv(s, w) && ids != [] && CallsOver(w, w1, [ids[0]]) && CallsOver(w1, w2, ids[1..])
    ensures CallsOver(w, w2, ids)
  {
    BorrowersApart(s, w, w1, ids[0], ids[1..]);
    CallsOverTogether(w, w1, w2, ids[0], ids[1..]);
    assert [ids[0]] + ids[1..] == ids;
  }

  lemma {:induction false} AgentSweepOutcome(
    s: Settings, w: World, ids: seq<AgentId>, read: map<AgentId, Agent>, now: Time, done: nat
  )
    requires Inv(s, w) && Distinct(ids) && AgentsFresh(w, ids, read)
    requires forall x :: x in ids ==> AgentLeaseExpired(read[x], now)
    ensures Inv(s, AgentSweep(s, w, ids, read, now, done).0)
    ensures CallsOver(w, AgentSweep(s, w, ids, read, now, done).0, ids)
    decreases |ids|
  {
    if ids == [] {
    } else {
      var (w1, ok) := RecoverAgent(s, w, ids[0], read[ids[0]], now);
      OneAgentSwept(s, w, ids[0], now);
      FreshOnward(w, w1, ids, read);
      var done' := if ok then done + 1 else done;
      AgentSweepOutcome(s, w1, ids[1..], read, now, done');
      SweptTogether(s, w, w1, AgentSweep(s, w1, ids[1..], read, now, done').0, ids);
    }
  }

  // ---------- a call that has lost its borrower ----------

  /** Its borrower is free, and the attempt is not counted. */
  predicate Lost(w: World, k: CallKey) {
    && k in w.calls && k.borrower in w.borrowers
    && w.borrowers[k.borrower].lease.None? && w.borrowers[k.borrower].attemptCount < k.attempt
  }

  lemma LostIsUnlinked(s: Settings, w: World, k: CallKey)
    requires Lost(w, k)
    ensures !Inv(s, w)
  {
    if Active(w, k) { assert !Linked(w, k); } else { assert !AttemptOk(w, k); }
  }

  /** Whoever asks, a borrower that is not held is not released, so its attempt is never counted later. */
  lemma LostThroughRelease(s: Settings, w: World, k: CallKey, id: BorrowerId, worker: WorkerId, outcome: ReleaseOutcome)
    requires Lost(w, k)
    ensures Lost(TryReleaseBorrower(s, w, id, worker, outcome).0, k)
  {
  }

  lemma LostThroughMove(w: World, k: CallKey, key: CallKey, to: CallState)
    requires Lost(w, k)
    ensures Lost(TryTransitionCall(w, key, to).0, k)
  {
  }

  lemma LostThroughCancel(s: Settings, w: World, k: CallKey, read: Agent)
    requires Lost(w, k)
    ensures Lost(CancelBoundCall(s, w, read), k)
  {
    if read.currentCall.Some? {
      var key := read.currentCall.value;
      LostThroughMove(w, k, key, CallState.Cancelled);
      var (w1, cancelled) := TryTransitionCall(w, key, CallState.Cancelled);
      if cancelled.Some? { LostThroughRelease(s, w1, k, key.borrower, cancelled.value.worker, Retry); }
    }
  }

  lemma {:induction false} LostThroughBorrowers(
    w: World, ids: seq<BorrowerId>, read: map<BorrowerId, Borrower>, now: Time, done: nat, k: CallKey
  )
    requires forall x :: x in ids ==> x in read
    requires Lost(w, k)
    ensures Lost(BorrowerSweep(w, ids, read, now, done).0, k)
    decreases |ids|
  {
    if ids == [] {
    } else {
      var (w1, r) := TryReclaimBorrower(w, ids[0], read[ids[0]], now);
      LostThroughBorrowers(w1, ids[1..], read, now, if r.Some? then done + 1 else done, k);
    }
  }

  /** A borrower sweep that takes the borrower of a call whose attempt is not counted loses the call. */
  lemma {:induction false} BorrowerSweepLoses(
    w: World, ids: seq<BorrowerId>, read: map<BorrowerId, Borrower>, now: Time, done: nat, k: CallKey
  )
    requires Distinct(ids) && k in w.calls && k.borrower in ids
    requires forall x :: x in ids ==> x in read && x in w.borrowers && w.borrowers[x] == read[x]
    requires forall x :: x in ids ==> BorrowerLeaseExpired(read[x], now)
    requires w.borrowers[k.borrower].attemptCount < k.attempt
    ensures Lost(BorrowerSweep(w, ids, read, now, done).0, k)
    decreases |ids|
  {
    var (w1, r) := TryReclaimBorrower(w, ids[0], read[ids[0]], now);
    var done' := if r.Some? then done + 1 else done;
    if ids[0] == k.borrower {
      LostThroughBorrowers(w1, ids[1..], read, now, done', k);
    } else {
      BorrowerSweepLoses(w1, ids[1..], read, now, done', k);
    }
  }

  lemma LostThroughRecovery(
    s: Settings, w: World, key: CallKey, read: Call, reports: map<CallKey, ProviderStatus>, k: CallKey
  )
    requires Lost(w, k)
    ensures Lost(RecoverCall(s, w, key, read, reports).0, k)
  {
    var (w1, finished) := TryTransitionCall(w, key, Reconcile(read, key, reports));
    LostThroughMove(w, k, key, Reconcile(read, key, reports));
    if finished.Some? {
      var worker := finished.value.worker;
      ReleaseAgentFrame(w1, key.agent, worker, AgentState.Available, Recovery);
      var w2 := TryReleaseAgent(w1, key.agent, worker, AgentState.Available, Recovery).0;
      LostThroughRelease(s, w2, k, key.borrower, worker, Retry);
    }
  }

  lemma {:induction false} LostThroughCalls(
    s: Settings, w: World, keys: seq<CallKey>, read: map<CallKey, Call>, reports: map<CallKey, ProviderStatus>,
    done: nat, k: CallKey
  )
    requires forall x :: x in keys ==> x in read
    requires Lost(w, k)
    ensures Lost(CallSweep(s, w, keys, read, reports, done).0, k)
    decreases |keys|
  {
    if keys == [] {
    } else {
      LostThroughRecovery(s, w, keys[0], read[keys[0]], reports, k);
      var (w1, ok) := RecoverCall(s, w, keys[0], read[keys[0]], reports);
      LostThroughCalls(s, w1, keys[1..], read, reports, if ok then done + 1 else done, k);
    }
  }

  lemma {:induction false} LostThroughHeartbeats(
    s: Settings, w: World, ids: seq<AgentId>, read: map<AgentId, Agent>, done: nat, k: CallKey
  )
    requires forall x :: x in ids ==> x in read
    requires Lost(w, k)
    ensures Lost(HeartbeatSweep(s, w, ids, read, done).0, k)
    decreases |ids|
  {
    if ids == [] {
    } else {
      var a := read[ids[0]];
      LostThroughCancel(s, w, k, a);
      var w0 := CancelBoundCall(s, w, a);
      TransitionAgentFrame(w0, ids[0], a.state, AgentState.Offline, Recovery, a.version);
      var (w1, ok) := LogOutSilent(s, w, ids[0], a);
      LostThroughHeartbeats(s, w1, ids[1..], read, if ok then done + 1 else done, k);
    }
  }

  lemma {:induction false} LostThroughWrapUps(
    w: World, ids: seq<AgentId>, read: map<AgentId, Agent>, actor: Actor, done: nat, k: CallKey
  )
    requires forall x :: x in ids ==> x in read
    requires Lost(w, k)
    ensures Lost(WrapUpSweep(w, ids, read, actor, done).0, k)
    decreases |ids|
  {
    if ids == [] {
    } else {
      TransitionAgentFrame(w, ids[0], AgentState.WrapUp, AgentState.Available, actor, read[ids[0]].version);
      var (w1, ok) := FinishWrapUp(w, ids[0], read[ids[0]], actor);
      LostThroughWrapUps(w1, ids[1..], read, actor, if ok then done + 1 else done, k);
    }
  }

  lemma LostInStaleSweep(s: Settings, w: World, now: Time, input: SweepInput, k: CallKey)
    requires Lost(w, k)
    ensures Lost(SweepStaleCalls(s, w, now, input).0, k)
  {
    var keys := Pick(StaleCalls(w, now - s.staleTimeout), input.calls, s.sweepLimit);
    LostThroughCalls(s, w, keys, w.calls, input.reports, 0, k);
  }

  lemma LostInSilentSweep(s: Settings, w: World, now: Time, input: SweepInput, k: CallKey)
    requires Lost(w, k)
    ensures Lost(SweepSilentAgents(s, w, now, input).0, k)
  {
    var ids := Pick(SilentAgents(w, now - s.heartbeatTimeout), input.silent, s.sweepLimit);
    LostThroughHeartbeats(s, w, ids, w.agents, 0, k);
  }

  lemma LostInStuckSweep(s: Settings, w: World, now: Time, input: SweepInput, k: CallKey)
    requires Lost(w, k)
    ensures Lost(SweepStuckWrapUps(s, w, now, input).0, k)
  {
    var ids := Pick(FinishedWrapUps(w, now - StuckWrapUpAge(s)), input.wrapUps, s.sweepLimit);
    LostThroughWrapUps(w, ids, w.agents, Recovery, 0, k);
  }

  // ---------- the exact condition ----------

  lemma AgentStep(s: Settings, w: World, now: Time, input: SweepInput)
    requires Inv(s, w) && Distinct(input.expired)
    ensures var w1 := SweepExpiredAgents(s, w, now, input).0;
            Inv(s, w1) && CallsOver(w, w1, PickedAgents(s, w, now, input))
  {
    var ids := PickedAgents(s, w, now, input);
    PickIsDistinct(ExpiredAgents(w, now), input.expired, s.sweepLimit);
    AgentSweepOutcome(s, w, ids, w.agents, now, 0);
  }

  lemma StillExpired(w: World, w1: World, ids: seq<AgentId>, now: Time)
    requires CallsOver(w, w1, ids)
    ensures ExpiredBorrowers(w1, now) == ExpiredBorrowers(w, now) - BorrowersOf(w, ids)
  {
  }

  /** The borrower sweep takes, from the store the agent sweep left, what was told before it. */
  lemma PickedAre(s: Settings, w: World, now: Time, input: SweepInput, w1: World)
    requires CallsOver(w, w1, PickedAgents(s, w, now, input)) && Distinct(input.borrowers)
    ensures var ids := PickedBorrowers(s, w, now, input);
            && ids == Pick(ExpiredBorrowers(w1, now), input.borrowers, s.sweepLimit) && Distinct(ids)
            && forall x :: x in ids ==> x in w1.borrowers && BorrowerLeaseExpired(w1.borrowers[x], now)
  {
    StillExpired(w, w1, PickedAgents(s, w, now, input), now);
    PickIsDistinct(ExpiredBorrowers(w1, now), input.borrowers, s.sweepLimit);
  }

  lemma BorrowerStepKeepsLinks(s: Settings, w: World, now: Time, input: SweepInput, w1: World)
    requires Inv(s, w) && OrdersDistinct(input) && w1 == SweepExpiredAgents(s, w, now, input).0
    requires CallsKeepBorrowers(s, w, now, input)
    ensures Inv(s, SweepExpiredBorrowers(s, w1, now, input).0)
  {
    AgentStep(s, w, now, input);
    PickedAre(s, w, now, input, w1);
    BorrowerSweepKeepsInv(s, w1, PickedBorrowers(s, w, now, input), w1.borrowers, now, 0);
  }

  lemma BorrowerStepLoses(s: Settings, w: World, now: Time, input: SweepInput, w1: World, k: CallKey)
    requires Inv(s, w) && OrdersDistinct(input) && w1 == SweepExpiredAgents(s, w, now, input).0
    requires Active(w, k) && k.agent !in PickedAgents(s, w, now, input)
             && k.borrower in PickedBorrowers(s, w, now, input)
    ensures Lost(SweepExpiredBorrowers(s, w1, now, input).0, k)
  {
    AgentStep(s, w, now, input);
    PickedAre(s, w, now, input, w1);
    assert Active(w1, k);
    ActiveIsAlone(s, w1, k);
    BorrowerSweepLoses(w1, PickedBorrowers(s, w, now, input), w1.borrowers, now, 0, k);
  }

  lemma LastSweepsKeepInv(s: Settings, w: World, now: Time, input: SweepInput)
    requires Inv(s, w) && OrdersDistinct(input)
    ensures var w3 := SweepStaleCalls(s, w, now, input).0;
            var w4 := SweepSilentAgents(s, w3, now, input).0;
            Inv(s, SweepStuckWrapUps(s, w4, now, input).0)
  {
    StaleSweepKeepsInv(s, w, now, input);
    var w3 := SweepStaleCalls(s, w, now, input).0;
    SilentSweepKeepsInv(s, w3, now, input);
    StuckSweepKeepsInv(s, SweepSilentAgents(s, w3, now, input).0, now, input);
  }

  /**
   * Whatever the limit and whatever the queries list, a run of the five sweeps keeps every link exactly
   * when no call whose agent it leaves alone has its borrower among those it takes.
   */
  lemma SweepsKeepInvIff(s: Settings, w: World, now: Time, input: SweepInput)
    requires Inv(s, w) && OrdersDistinct(input)
    ensures Inv(s, SweepsAt(s, w, now, input).0) <==> CallsKeepBorrowers(s, w, now, input)
  {
    var w1 := SweepExpiredAgents(s, w, now, input).0;
    var w2 := SweepExpiredBorrowers(s, w1, now, input).0;
    if CallsKeepBorrowers(s, w, now, input) {
      BorrowerStepKeepsLinks(s, w, now, input, w1);
      LastSweepsKeepInv(s, w2, now, input);
    } else {
      var k :| Active(w, k) && k.agent !in PickedAgents(s, w, now, input)
               && k.borrower in PickedBorrowers(s, w, now, input);
      BorrowerStepLoses(s, w, now, input, w1, k);
      LostInStaleSweep(s, w2, now, input, k);
      var w3 := SweepStaleCalls(s, w2, now, input).0;
      LostInSilentSweep(s, w3, now, input, k);
      LostInStuckSweep(s, SweepSilentAgents(s, w3, now, input).0, now, input, k);
      LostIsUnlinked(s, SweepsAt(s, w, now, input).0, k);
    }
  }

  /** In particular when every agent with an expired lease is listed and the limit has room for them all. */
  lemma RoomForAgentsSuffices(s: Settings, w: World, now: Time, input: SweepInput)
    requires Inv(s, w) && Lists(input.expired, w.agents.Keys) && |ExpiredAgents(w, now)| <= s.sweepLimit
    ensures CallsKeepBorrowers(s, w, now, input)
  {
    PickIsFull(ExpiredAgents(w, now), input.expired, s.sweepLimit);
    forall k | Active(w, k) && k.agent !in PickedAgents(s, w, now, input)
      ensures k.borrower !in ExpiredBorrowers(w, now)
    {
      BorrowersOutlastAgents(s, w, k, now);
    }
  }

  // ---------- a store it breaks ----------

  function PlacedCall(i: nat): CallKey {
    CallKey(0, i, i, 1)
  }

  const DIALING := Agent(0, AgentState.Dialing, 3, Some(Lease(7, 0, 1)), None, None, 0, 0, 0, 0, 0, 0)
  const WAITING := Borrower(0, BorrowerStatus.Reserved, 1, Some(Lease(7, 0, 1)), 0, None, 0)
  const RINGING := Call(0, CallState.Initiated, Rank(CallState.Initiated), false, None, 7, 0, None, None, None, None,
                        None, 0)

  /** Two calls just placed by one worker, all their leases running out at 1. */
  const TWO_CALLS := World(
    map[0 := DIALING.(currentCall := Some(PlacedCall(0))), 1 := DIALING.(currentCall := Some(PlacedCall(1)))],
    map[0 := WAITING, 1 := WAITING],
    map[PlacedCall(0) := RINGING, PlacedCall(1) := RINGING],
    map[], {}, 2, [])

  lemma TwoCallsAreLinked(s: Settings)
    requires s.maxAttempts >= 1
    ensures Inv(s, TWO_CALLS)
  {
    assert Linked(TWO_CALLS, PlacedCall(0)) && Linked(TWO_CALLS, PlacedCall(1));
  }

  /** With room for one document a sweep, the agent of one call and the borrower of the other are taken. */
  lemma SmallLimitBreaksLinks(s: Settings, input: SweepInput)
    requires s.maxAttempts >= 1 && s.sweepLimit == 1 && OrdersDistinct(input)
    requires input.expired == [0, 1] && input.borrowers == [1, 0]
    ensures Inv(s, TWO_CALLS) && !Inv(s, SweepsAt(s, TWO_CALLS, 2, input).0)
  {
    TwoCallsAreLinked(s);
    ReleaseSources();
    assert PickedAgents(s, TWO_CALLS, 2, input) == [0];
    assert BorrowersOf(TWO_CALLS, [0]) == {0};
    assert ExpiredBorrowers(TWO_CALLS, 2) - {0} == {1};
    assert PickedBorrowers(s, TWO_CALLS, 2, input) == [1];
    assert Active(TWO_CALLS, PlacedCall(1));
    SweepsKeepInvIff(s, TWO_CALLS, 2, input);
  }

  /** So are both borrowers when the query for agents fails and the one for borrowers does not, whatever the limit. */
  lemma FailedQueryBreaksLinks(s: Settings, input: SweepInput)
    requires s.maxAttempts >= 1 && s.sweepLimit >= 1 && OrdersDistinct(input)
    requires input.expired == [] && input.borrowers == [0, 1]
    ensures Inv(s, TWO_CALLS) && !Inv(s, SweepsAt(s, TWO_CALLS, 2, input).0)
  {
    TwoCallsAreLinked(s);
    assert PickedAgents(s, TWO_CALLS, 2, input) == [];
    assert BorrowersOf(TWO_CALLS, []) == {};
    assert 0 in PickedBorrowers(s, TWO_CALLS, 2, input);
    assert Active(TWO_CALLS, PlacedCall(0));
    SweepsKeepInvIff(s, TWO_CALLS, 2, input);
  }
}
