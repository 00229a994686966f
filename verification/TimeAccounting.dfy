/**
 * Time accounting: on any run of handlers no millisecond of an agent's life is counted twice, so the
 * utilization figures computed from the counters stay ratios between zero and one.
 */
module TimeAccounting {
  import opened Basics
  import opened AgentMachine
  import opened CallMachine
  import opened Documents
  import opened Store
  import opened Handlers
  import opened HandlerRuns

  /** The counters cover at most the time up to the last state change, talk and wrap-up at most the busy part. */
  predicate AgentTimed(a: Agent) {
    && a.busyMs + a.availableMs <= a.stateChangedAt - a.createdAt
    && a.connectedMs + a.wrapUpMs <= a.busyMs
  }

  ghost predicate Timely(w: World) {
    forall id :: id in w.agents ==> AgentTimed(w.agents[id]) && w.agents[id].stateChangedAt <= w.now
  }

  /** Only agents and the clock matter, and the clock never goes back. */
  ghost predicate Onward(w: World, w': World) {
    w'.agents == w.agents && w.now <= w'.now
  }

  // ---------- each write to an agent ----------

  lemma ReservingIsTimely(s: Settings, w: World, campaign: CampaignId, id: AgentId, worker: WorkerId)
    requires Timely(w)
    ensures Timely(TryReserveAgent(w, campaign, id, worker, s.ttl).0)
  {
  }

  lemma ClosingIsTimed(a: Agent, to: AgentState, now: Time)
    requires AgentTimed(a) && a.stateChangedAt <= now
    ensures AgentTimed(MoveAgent(CloseInterval(a, now), to, now))
  {
  }

  lemma ReleasingIsTimely(w: World, id: AgentId, worker: WorkerId, to: AgentState, actor: Actor)
    requires Timely(w)
    ensures Timely(TryReleaseAgent(w, id, worker, to, actor).0)
  {
    if id in w.agents {
      var t := Tick(w);
      ClosingIsTimed(w.agents[id], to, t.now);
      assert forall r :: ReleaseAgent(w.agents[id], worker, to, actor, t.now) == Some(r) ==>
               AgentTimed(r) && r.stateChangedAt == t.now;
    }
  }

  lemma MovingIsTimely(w: World, id: AgentId, from: AgentState, to: AgentState, actor: Actor, version: nat)
    requires Timely(w)
    ensures Timely(TryTransitionAgent(w, id, from, to, actor, version).0)
  {
    if id in w.agents { ClosingIsTimed(w.agents[id], to, Tick(w).now); }
  }

  // ---------- handlers ----------

  lemma BeatingIsTimely(w: World, id: AgentId)
    requires Timely(w)
    ensures Timely(Heartbeat(w, id))
  {
  }

  lemma {:induction false} ClaimingIsTimely(
    s: Settings, w: World, campaign: CampaignId, worker: WorkerId, candidates: seq<AgentId>
  )
    requires Timely(w)
    ensures Timely(ClaimAgent(s, w, campaign, worker, candidates).0)
    decreases |candidates|
  {
    if candidates == [] {
    } else {
      ReservingIsTimely(s, w, campaign, candidates[0], worker);
      var (t, r) := TryReserveAgent(w, campaign, candidates[0], worker, s.ttl);
      if r.None? { ClaimingIsTimely(s, t, campaign, worker, candidates[1..]); }
    }
  }

  lemma {:induction false} BorrowersAside(
    s: Settings, w: World, campaign: CampaignId, worker: WorkerId, candidates: seq<BorrowerId>
  )
    ensures Onward(w, ClaimBorrower(s, w, campaign, worker, candidates).0)
    decreases |candidates|
  {
    if candidates == [] {
    } else {
      var (t, r) := TryReserveBorrower(w, campaign, candidates[0], worker, s.ttl);
      if r.None? { BorrowersAside(s, t, campaign, worker, candidates[1..]); }
    }
  }

  lemma BorrowerAside(s: Settings, w: World, id: BorrowerId, worker: WorkerId, outcome: ReleaseOutcome)
    ensures Onward(w, TryReleaseBorrower(s, w, id, worker, outcome).0)
  {
  }

  lemma PairingIsTimely(
    s: Settings, w: World, campaign: CampaignId, worker: WorkerId, ao: seq<AgentId>, bo: seq<BorrowerId>
  )
    requires Timely(w)
    ensures Timely(ReservePair(s, w, campaign, worker, ao, bo).0)
  {
    var candidates := Pick(AvailableAgents(w, campaign), ao, CLAIM_WINDOW);
    ClaimingIsTimely(s, w, campaign, worker, candidates);
    var (w1, a) := ClaimAgent(s, w, campaign, worker, candidates);
    if a.Some? {
      var w2 := Tick(w1);
      var borrowers := Pick(ClaimableBorrowers(w2, campaign), bo, CLAIM_WINDOW);
      BorrowersAside(s, w2, campaign, worker, borrowers);
      var w3 := ClaimBorrower(s, w2, campaign, worker, borrowers).0;
      assert Timely(w3);
      ReleasingIsTimely(w3, a.value.0, worker, AgentState.Available, Allocator);
    }
  }

  lemma UnpairingIsTimely(s: Settings, w: World, p: Pair, outcome: ReleaseOutcome)
    requires Timely(w)
    ensures Timely(ReleasePair(s, w, p, outcome))
  {
    ReleasingIsTimely(w, p.agentId, p.worker, AgentState.Available, Allocator);
  }

  lemma CallsAside(w: World, key: CallKey, to: CallState)
    ensures Onward(w, TryTransitionCall(w, key, to).0)
  {
  }

  lemma PlacingIsTimely(w: World, p: Pair, provider: ProviderId)
    requires Timely(w)
    ensures Timely(PlaceCall(w, p, provider).0)
  {
    var (w1, call) := CreateCall(w, p.Key(), provider, p.worker);
    assert Onward(w, w1);
    CallsAside(w1, p.Key(), CallState.Reserved);
    var w2 := TryTransitionCall(w1, p.Key(), CallState.Reserved).0;
    CallsAside(w2, p.Key(), CallState.Initiated);
    assert Onward(w, PlaceCall(w, p, provider).0);
  }

  lemma StartingIsTimely(w: World, p: Pair)
    requires Timely(w)
    ensures Timely(StartDialing(w, p))
  {
    MovingIsTimely(w, p.agentId, AgentState.Reserved, AgentState.Dialing, Allocator, p.agent.version);
  }

  lemma FailingIsTimely(s: Settings, w: World, p: Pair)
    requires Timely(w)
    ensures Timely(FailDial(s, w, p))
  {
    CallsAside(w, p.Key(), CallState.Failed);
    UnpairingIsTimely(s, TryTransitionCall(w, p.Key(), CallState.Failed).0, p, Retry);
  }

  lemma FinishingIsTimely(s: Settings, w: World, p: Pair, reply: Reply)
    requires Timely(w)
    ensures Timely(FinishDial(s, w, p, reply).0)
  {
    FailingIsTimely(s, w, p);
    if reply.Accepted? {
      var w1 := TryAttach(w, p.Key(), reply.id).0;
      assert Onward(w, w1);
      FailingIsTimely(s, w1, p);
    }
  }

  lemma DialingIsTimely(s: Settings, w: World, p: Pair, provider: ProviderId, healthy: bool, reply: Reply)
    requires Timely(w)
    ensures Timely(Dial(s, w, p, provider, healthy, reply).0)
  {
    var t := if p.borrower.attemptCount > 0 then Tick(w) else w;
    UnpairingIsTimely(s, t, p, Released);
    AskingIsTimely(s, t, p, provider, reply);
  }

  lemma AskingIsTimely(s: Settings, w: World, p: Pair, provider: ProviderId, reply: Reply)
    requires Timely(w)
    ensures Timely(PlaceAndAsk(s, w, p, provider, reply).0)
  {
    PlacingIsTimely(w, p, provider);
    var w1 := PlaceCall(w, p, provider).0;
    UnpairingIsTimely(s, w1, p, Released);
    StartingIsTimely(w1, p);
    FinishingIsTimely(s, StartDialing(w1, p), p, reply);
  }

  lemma AttemptIsTimely(
    s: Settings, w: World, campaign: CampaignId, provider: ProviderId, worker: WorkerId, input: DialInput
  )
    requires Timely(w)
    ensures Timely(AttemptDial(s, w, campaign, provider, worker, input).0)
  {
    PairingIsTimely(s, w, campaign, worker, input.agentOrder, input.borrowerOrder);
    var (w1, pair) := ReservePair(s, w, campaign, worker, input.agentOrder, input.borrowerOrder);
    if pair.Some? { DialingIsTimely(s, w1, pair.value, provider, input.healthy, input.reply); }
  }

  lemma FollowingIsTimely(w: World, key: CallKey, call: Call, target: CallState)
    requires Timely(w) && Rank(target) >= 2
    ensures Timely(ApplyAgentTransition(w, key, call, target))
  {
    var to := AgentStateFor(target);
    if key.agent in w.agents {
      var read := w.agents[key.agent];
      ReleasingIsTimely(w, key.agent, call.worker, to, EventProcessor);
      MovingIsTimely(w, key.agent, read.state, to, EventProcessor, read.version);
    }
  }

  lemma EventIsTimely(s: Settings, w: World, e: Event)
    requires Timely(w)
    ensures Timely(ProcessEvent(s, w, e).0)
  {
    var w0 := RecordEvent(w, e.id).0;
    if e.Ref() in w.index && EventTarget(e.kind).Some? {
      var key, target := w.index[e.Ref()], EventTarget(e.kind).value;
      CallsAside(w0, key, target);
      var (w1, updated) := TryTransitionCall(w0, key, target);
      if updated.Some? { FollowingIsTimely(w1, key, updated.value, target); }
    }
  }

  lemma CancellingIsOnward(s: Settings, w: World, read: Agent)
    ensures Onward(w, CancelBoundCall(s, w, read))
  {
  }

  /** Every agent's last change is no later than the time the sweep was dated. */
  ghost predicate AllBy(w: World, now: Time) {
    forall id :: id in w.agents ==> w.agents[id].stateChangedAt <= now
  }

  lemma {:induction false} AgentSweepIsTimely(
    s: Settings, w: World, ids: seq<AgentId>, read: map<AgentId, Agent>, now: Time, done: nat
  )
    requires Timely(w) && AllBy(w, now) && now <= w.now
    requires forall x :: x in ids ==> x in read
    ensures Timely(AgentSweep(s, w, ids, read, now, done).0)
    decreases |ids|
  {
    if ids == [] {
    } else {
      CancellingIsOnward(s, w, read[ids[0]]);
      var (w1, ok) := RecoverAgent(s, w, ids[0], read[ids[0]], now);
      assert Timely(w1) && AllBy(w1, now);
      AgentSweepIsTimely(s, w1, ids[1..], read, now, if ok then done + 1 else done);
    }
  }

  lemma {:induction false} BorrowerSweepIsOnward(
    w: World, ids: seq<BorrowerId>, read: map<BorrowerId, Borrower>, now: Time, done: nat
  )
    requires forall x :: x in ids ==> x in read
    ensures Onward(w, BorrowerSweep(w, ids, read, now, done).0)
    decreases |ids|
  {
    if ids == [] {
    } else {
      var (w1, r) := TryReclaimBorrower(w, ids[0], read[ids[0]], now);
      BorrowerSweepIsOnward(w1, ids[1..], read, now, if r.Some? then done + 1 else done);
    }
  }

  lemma RecoveringIsTimely(s: Settings, w: World, key: CallKey, read: Call, reports: map<CallKey, ProviderStatus>)
    requires Timely(w)
    ensures Timely(RecoverCall(s, w, key, read, reports).0)
  {
    var to := Reconcile(read, key, reports);
    CallsAside(w, key, to);
    var (w1, finished) := TryTransitionCall(w, key, to);
    if finished.Some? {
      var worker := finished.value.worker;
      ReleasingIsTimely(w1, key.agent, worker, AgentState.Available, Recovery);
      var w2 := TryReleaseAgent(w1, key.agent, worker, AgentState.Available, Recovery).0;
      BorrowerAside(s, w2, key.borrower, worker, Retry);
    }
  }

  lemma {:induction false} CallSweepIsTimely(
    s: Settings, w: World, keys: seq<CallKey>, read: map<CallKey, Call>, reports: map<CallKey, ProviderStatus>,
    done: nat
  )
    requires Timely(w) && forall x :: x in keys ==> x in read
    ensures Timely(CallSweep(s, w, keys, read, reports, done).0)
    decreases |keys|
  {
    if keys == [] {
    } else {
      RecoveringIsTimely(s, w, keys[0], read[keys[0]], reports);
      var (w1, ok) := RecoverCall(s, w, keys[0], read[keys[0]], reports);
      CallSweepIsTimely(s, w1, keys[1..], read, reports, if ok then done + 1 else done);
    }
  }

  lemma LoggingOutIsTimely(s: Settings, w: World, id: AgentId, read: Agent)
    requires Timely(w)
    ensures Timely(LogOutSilent(s, w, id, read).0)
  {
    CancellingIsOnward(s, w, read);
    MovingIsTimely(CancelBoundCall(s, w, read), id, read.state, AgentState.Offline, Recovery, read.version);
  }

  lemma {:induction false} HeartbeatSweepIsTimely(
    s: Settings, w: World, ids: seq<AgentId>, read: map<AgentId, Agent>, done: nat
  )
    requires Timely(w) && forall x :: x in ids ==> x in read
    ensures Timely(HeartbeatSweep(s, w, ids, read, done).0)
    decreases |ids|
  {
    if ids == [] {
    } else {
      LoggingOutIsTimely(s, w, ids[0], read[ids[0]]);
      var (w1, ok) := LogOutSilent(s, w, ids[0], read[ids[0]]);
      HeartbeatSweepIsTimely(s, w1, ids[1..], read, if ok then done + 1 else done);
    }
  }

  lemma {:induction false} WrapUpSweepIsTimely(
    w: World, ids: seq<AgentId>, read: map<AgentId, Agent>, actor: Actor, done: nat
  )
    requires Timely(w) && forall x :: x in ids ==> x in read
    ensures Timely(WrapUpSweep(w, ids, read, actor, done).0)
    decreases |ids|
  {
    if ids == [] {
    } else {
      MovingIsTimely(w, ids[0], AgentState.WrapUp, AgentState.Available, actor, read[ids[0]].version);
      var (w1, ok) := FinishWrapUp(w, ids[0], read[ids[0]], actor);
      WrapUpSweepIsTimely(w1, ids[1..], read, actor, if ok then done + 1 else done);
    }
  }

  lemma SweepsAreTimely(s: Settings, w: World, input: SweepInput)
    requires Timely(w)
    ensures Timely(SweepsAt(s, w, w.now, input).0)
  {
    var now := w.now;
    AgentSweepIsTimely(s, w, Pick(ExpiredAgents(w, now), input.expired, s.sweepLimit), w.agents, now, 0);
    var w1 := SweepExpiredAgents(s, w, now, input).0;
    BorrowerSweepIsOnward(w1, Pick(ExpiredBorrowers(w1, now), input.borrowers, s.sweepLimit), w1.borrowers, now, 0);
    var w2 := SweepExpiredBorrowers(s, w1, now, input).0;
    CallSweepIsTimely(s, w2, Pick(StaleCalls(w2, now - s.staleTimeout), input.calls, s.sweepLimit), w2.calls,
                      input.reports, 0);
    var w3 := SweepStaleCalls(s, w2, now, input).0;
    HeartbeatSweepIsTimely(s, w3, Pick(SilentAgents(w3, now - s.heartbeatTimeout), input.silent, s.sweepLimit),
                           w3.agents, 0);
    var w4 := SweepSilentAgents(s, w3, now, input).0;
    WrapUpSweepIsTimely(w4, Pick(FinishedWrapUps(w4, now - StuckWrapUpAge(s)), input.wrapUps, s.sweepLimit), w4.agents,
                        Recovery, 0);
  }

  lemma ActingIsTimely(w: World, id: AgentId, action: AgentAction)
    requires Timely(w)
    ensures Timely(Act(w, id, action).0)
  {
    if id in w.agents {
      MovingIsTimely(w, id, w.agents[id].state, ActionTarget(action), Self, w.agents[id].version);
    }
  }

  lemma ExecIsTimely(s: Settings, w: World, t: Timed)
    requires Timely(w)
    ensures Timely(Exec(s, w, t))
  {
    var w0 := w.(delays := t.delays);
    match t.command
    case Attempt(campaign, provider, worker, input) => AttemptIsTimely(s, w0, campaign, provider, worker, input);
    case Deliver(e) => EventIsTimely(s, w0, e);
    case Sweep(input) => SweepsAreTimely(s, Tick(w0), input);
    case EndWrapUps(campaign, order) => EndingWrapUpsIsTimely(s, w0, campaign, order);
    case AgentActs(id, action) => ActingIsTimely(w0, id, action);
    case Beat(id) => BeatingIsTimely(w0, id);
  }

  lemma EndingWrapUpsIsTimely(s: Settings, w: World, campaign: CampaignId, order: seq<AgentId>)
    requires Timely(w)
    ensures Timely(ReleaseFinishedWrapUps(s, w, campaign, order))
  {
    var t := Tick(w);
    var finished := set id | id in FinishedWrapUps(t, t.now - s.wrapUp) && t.agents[id].campaign == campaign;
    WrapUpSweepIsTimely(t, Pick(finished, order, WRAP_UP_SWEEP_LIMIT), t.agents, WorkerTimer, 0);
  }

  /** Any run of handlers at all, with any inputs and delays, keeps the accounts. */
  lemma {:induction false} RunIsTimely(s: Settings, w: World, run: seq<Timed>)
    requires Timely(w)
    ensures Timely(Run(s, w, run))
    decreases |run|
  {
    if run == [] {
    } else {
      ExecIsTimely(s, w, run[0]);
      RunIsTimely(s, Exec(s, w, run[0]), run[1..]);
    }
  }

  // ---------- the figures computed from the counters ----------

  predicate CountsAsTime(state: AgentState) {
    state != AgentState.Offline && state != AgentState.Paused
  }

  function ElapsedInState(a: Agent, now: Time): nat {
    if CountsAsTime(a.state) then Max(0, now - a.stateChangedAt) else 0
  }

  datatype Totals = Totals(connected: nat, productive: nat, counted: nat)

  function LiveTotals(a: Agent, now: Time): Totals {
    var elapsed := ElapsedInState(a, now);
    var connected := if a.state == AgentState.Connected then a.connectedMs + elapsed else a.connectedMs;
    var wrapUp := if a.state == AgentState.WrapUp then a.wrapUpMs + elapsed else a.wrapUpMs;
    Totals(connected, connected + wrapUp, a.busyMs + a.availableMs + elapsed)
  }

  /** A move or a release loses and invents nothing: the live totals right after it are those right before. */
  lemma MovesKeepLiveTotals(a: Agent, to: AgentState, now: Time)
    ensures LiveTotals(MoveAgent(CloseInterval(a, now), to, now), now) == LiveTotals(a, now)
  {
  }

  // ---------- the live totals as time spent ----------

  datatype Change = Change(to: AgentState, at: Time)

  /** The agent after a history of accounted changes of state. */
  function Through(a: Agent, changes: seq<Change>): Agent
    decreases |changes|
  {
    if changes == [] then a
    else Through(MoveAgent(CloseInterval(a, changes[0].at), changes[0].to, changes[0].at), changes[1..])
  }

  /** The changes come in order, none before `since` and none after `now`. */
  predicate InOrderBetween(since: Time, changes: seq<Change>, now: Time)
    decreases |changes|
  {
    if changes == [] then since <= now
    else since <= changes[0].at && InOrderBetween(changes[0].at, changes[1..], now)
  }

  /** The time spent in these states by `now`, in `state` since `since` and then through the changes. */
  function TimeIn(states: set<AgentState>, state: AgentState, since: Time, changes: seq<Change>, now: Time): int
    decreases |changes|
  {
    var until := if changes == [] then now else changes[0].at;
    (if state in states then until - since else 0)
    + if changes == [] then 0 else TimeIn(states, changes[0].to, until, changes[1..], now)
  }

  /**
   * The live totals are times spent: talk in CONNECTED, productive time in CONNECTED or WRAP_UP, counted time in
   * every state but OFFLINE and PAUSED.
   */
  lemma {:induction false} TotalsAreTimeSpent(a: Agent, changes: seq<Change>, now: Time)
    requires InOrderBetween(a.stateChangedAt, changes, now)
    ensures var t := LiveTotals(Through(a, changes), now);
            && t.connected
               == a.connectedMs + TimeIn({AgentState.Connected}, a.state, a.stateChangedAt, changes, now)
            && t.productive
               == a.connectedMs + a.wrapUpMs
                + TimeIn({AgentState.Connected, AgentState.WrapUp}, a.state, a.stateChangedAt, changes, now)
            && t.counted
               == a.busyMs + a.availableMs
                + TimeIn({AgentState.Available, AgentState.Reserved, AgentState.Dialing, AgentState.Connected,
                          AgentState.WrapUp}, a.state, a.stateChangedAt, changes, now)
    decreases |changes|
  {
    if changes == [] {
    } else {
      TotalsAreTimeSpent(MoveAgent(CloseInterval(a, changes[0].at), changes[0].to, changes[0].at), changes[1..], now);
    }
  }

  /** Reserving and reclaiming do lose time: exactly the interval in the state they end. */
  lemma ReservingForgetsTheWait(a: Agent, campaign: CampaignId, worker: WorkerId, ttl: Time, now: Time)
    requires ReserveAgent(a, campaign, worker, ttl, now).Some?
    ensures var r := ReserveAgent(a, campaign, worker, ttl, now).value;
            LiveTotals(r, now) == LiveTotals(a, now).(counted := LiveTotals(a, now).counted - ElapsedInState(a, now))
  {
  }

  lemma ReclaimingForgetsTheWork(a: Agent, read: Agent, now: Time)
    requires ReclaimAgent(a, read, now).Some?
    ensures var r := ReclaimAgent(a, read, now).value;
            LiveTotals(r, now).counted == LiveTotals(a, now).counted - ElapsedInState(a, now)
  {
  }

  function Ratio(numerator: nat, denominator: nat): Option<real> {
    if denominator == 0 then None else Some(numerator as real / denominator as real)
  }

  function CampaignTotals(agents: seq<Agent>, now: Time): Totals {
    if agents == [] then Totals(0, 0, 0)
    else
      var t, rest := LiveTotals(agents[0], now), CampaignTotals(agents[1..], now);
      Totals(t.connected + rest.connected, t.productive + rest.productive, t.counted + rest.counted)
  }

  /** A campaign's totals are its agents' totals added up. */
  lemma {:induction false} TotalsAddUp(first: seq<Agent>, rest: seq<Agent>, now: Time)
    ensures var t, u, v := CampaignTotals(first + rest, now), CampaignTotals(first, now), CampaignTotals(rest, now);
            t == Totals(u.connected + v.connected, u.productive + v.productive, u.counted + v.counted)
    ensures forall a: Agent :: CampaignTotals([a], now) == LiveTotals(a, now)
    decreases |first|
  {
    if first == [] {
      assert first + rest == rest;
    } else {
      TotalsAddUp(first[1..], rest, now);
      assert (first + rest)[1..] == first[1..] + rest;
    }
  }

  /** A ratio is defined when there is a denominator, and is then the one that multiplies back. */
  lemma RatioMultipliesBack(numerator: nat, denominator: nat)
    ensures var r := Ratio(numerator, denominator);
            (r.Some? <==> denominator > 0) && (r.Some? ==> r.value * denominator as real == numerator as real)
  {
  }

  /** Talk is part of productive time, productive time of counted time, and that of the agent's whole life. */
  lemma LiveTotalsNest(a: Agent, now: Time)
    requires AgentTimed(a) && a.stateChangedAt <= now
    ensures var t := LiveTotals(a, now);
            t.connected <= t.productive <= t.counted <= now - a.createdAt
  {
  }

  lemma {:induction false} CampaignTotalsNest(agents: seq<Agent>, now: Time)
    requires forall a :: a in agents ==> AgentTimed(a) && a.stateChangedAt <= now
    ensures var t := CampaignTotals(agents, now);
            t.connected <= t.productive <= t.counted
    decreases |agents|
  {
    if agents == [] {
    } else {
      LiveTotalsNest(agents[0], now);
      CampaignTotalsNest(agents[1..], now);
    }
  }

  lemma RatiosNest(t: Totals)
    requires t.connected <= t.productive <= t.counted
    ensures Ratio(t.connected, t.counted).None? <==> Ratio(t.productive, t.counted).None?
    ensures Ratio(t.connected, t.counted).Some? ==>
              0.0 <= Ratio(t.connected, t.counted).value <= Ratio(t.productive, t.counted).value <= 1.0
  {
    if t.counted > 0 {
      var d := t.counted as real;
      DivisionKeepsOrder(0.0, t.connected as real, d);
      DivisionKeepsOrder(t.connected as real, t.productive as real, d);
      DivisionKeepsOrder(t.productive as real, d, d);
    }
  }

  lemma DivisionKeepsOrder(x: real, y: real, d: real)
    requires x <= y && d > 0.0
    ensures x / d <= y / d && d / d == 1.0 && 0.0 / d == 0.0
  {
  }

  /** After any run from an orderly start, talk utilization is at most productive utilization, and that at most one. */
  lemma UtilizationIsARatio(s: Settings, w: World, run: seq<Timed>, agents: seq<Agent>, now: Time)
    requires Timely(w)
    requires var w' := Run(s, w, run);
             now >= w'.now && forall a :: a in agents ==> exists id :: id in w'.agents && w'.agents[id] == a
    ensures var t := CampaignTotals(agents, now);
            var talk, productive := Ratio(t.connected, t.counted), Ratio(t.productive, t.counted);
            (talk.None? <==> productive.None?)
            && (talk.Some? ==> 0.0 <= talk.value <= productive.value <= 1.0)
  {
    RunIsTimely(s, w, run);
    CampaignTotalsNest(agents, now);
    RatiosNest(CampaignTotals(agents, now));
  }
}
