/**
 * Over a whole run with one dialer, a campaign that starts within its concurrency cap stays within it,
 * however events, recovery, agents and other campaigns interleave with the dialer's ticks.
 */
module ConcurrencyCap {
  import opened Basics
  import opened AgentMachine
  import opened CallMachine
  import opened Documents
  import opened Store
  import opened Effects
  import opened Handlers
  import opened Linking
  import opened DialKeepsLinks
  import opened SweepsKeepLinks
  import opened HandlerRuns
  import opened Exclusivity
  import opened Conservation
  import opened ProviderHealth
  import opened Safety

  // ---------- commands that place no call only close calls ----------

  ghost predicate OnlyCloses(w: World, w': World) {
    w'.calls.Keys == w.calls.Keys && forall k :: k in w.calls && w.calls[k].terminal ==> w'.calls[k].terminal
  }

  lemma MovingACallOnlyCloses(w: World, key: CallKey, to: CallState)
    ensures OnlyCloses(w, TryTransitionCall(w, key, to).0)
  {
  }

  lemma AgentPartOnlyCloses(w: World, key: CallKey, call: Call, target: CallState)
    requires Rank(target) >= 2
    ensures ApplyAgentTransition(w, key, call, target).calls == w.calls
  {
    var to := AgentStateFor(target);
    ReleaseAgentFrame(w, key.agent, call.worker, to, EventProcessor);
    if key.agent in w.agents {
      TransitionAgentFrame(w, key.agent, w.agents[key.agent].state, to, EventProcessor, w.agents[key.agent].version);
    }
  }

  lemma EventOnlyCloses(s: Settings, w: World, e: Event)
    ensures OnlyCloses(w, ProcessEvent(s, w, e).0)
  {
    var w0 := RecordEvent(w, e.id).0;
    if e.Ref() in w.index && EventTarget(e.kind).Some? {
      var key, target := w.index[e.Ref()], EventTarget(e.kind).value;
      MovingACallOnlyCloses(w0, key, target);
      var (w1, updated) := TryTransitionCall(w0, key, target);
      if updated.Some? { AgentPartOnlyCloses(w1, key, updated.value, target); }
    }
  }

  lemma CancellingOnlyCloses(s: Settings, w: World, read: Agent)
    ensures OnlyCloses(w, CancelBoundCall(s, w, read))
  {
    if read.currentCall.Some? { MovingACallOnlyCloses(w, read.currentCall.value, CallState.Cancelled); }
  }

  lemma {:induction false} AgentSweepOnlyCloses(
    s: Settings, w: World, ids: seq<AgentId>, read: map<AgentId, Agent>, now: Time, done: nat
  )
    requires forall x :: x in ids ==> x in read
    ensures OnlyCloses(w, AgentSweep(s, w, ids, read, now, done).0)
    decreases |ids|
  {
    if ids == [] {
    } else {
      CancellingOnlyCloses(s, w, read[ids[0]]);
      var (w1, ok) := RecoverAgent(s, w, ids[0], read[ids[0]], now);
      AgentSweepOnlyCloses(s, w1, ids[1..], read, now, if ok then done + 1 else done);
    }
  }

  lemma LettingGoKeepsCalls(s: Settings, w: World, key: CallKey, call: Call)
    ensures ReleaseParties(s, w, key, call).calls == w.calls
  {
    ReleaseAgentFrame(w, key.agent, call.worker, AgentState.Available, Recovery);
  }

  lemma RecoveringOnlyCloses(s: Settings, w: World, key: CallKey, read: Call, reports: map<CallKey, ProviderStatus>)
    ensures OnlyCloses(w, RecoverCall(s, w, key, read, reports).0)
  {
    var to := Reconcile(read, key, reports);
    MovingACallOnlyCloses(w, key, to);
    var (w1, finished) := TryTransitionCall(w, key, to);
    if finished.Some? { LettingGoKeepsCalls(s, w1, key, finished.value); }
  }

  lemma {:induction false} CallSweepOnlyCloses(
    s: Settings, w: World, keys: seq<CallKey>, read: map<CallKey, Call>, reports: map<CallKey, ProviderStatus>,
    done: nat
  )
    requires forall x :: x in keys ==> x in read
    ensures OnlyCloses(w, CallSweep(s, w, keys, read, reports, done).0)
    decreases |keys|
  {
    if keys == [] {
    } else {
      RecoveringOnlyCloses(s, w, keys[0], read[keys[0]], reports);
      var (w1, ok) := RecoverCall(s, w, keys[0], read[keys[0]], reports);
      CallSweepOnlyCloses(s, w1, keys[1..], read, reports, if ok then done + 1 else done);
    }
  }

  lemma {:induction false} HeartbeatSweepOnlyCloses(
    s: Settings, w: World, ids: seq<AgentId>, read: map<AgentId, Agent>, done: nat
  )
    requires forall x :: x in ids ==> x in read
    ensures OnlyCloses(w, HeartbeatSweep(s, w, ids, read, done).0)
    decreases |ids|
  {
    if ids == [] {
    } else {
      CancellingOnlyCloses(s, w, read[ids[0]]);
      var (w1, ok) := LogOutSilent(s, w, ids[0], read[ids[0]]);
      HeartbeatSweepOnlyCloses(s, w1, ids[1..], read, if ok then done + 1 else done);
    }
  }

  lemma {:induction false} WrapUpSweepLeavesCalls(
    w: World, ids: seq<AgentId>, read: map<AgentId, Agent>, actor: Actor, done: nat
  )
    requires forall x :: x in ids ==> x in read
    ensures WrapUpSweep(w, ids, read, actor, done).0.calls == w.calls
    decreases |ids|
  {
    if ids == [] {
    } else {
      var (w1, ok) := FinishWrapUp(w, ids[0], read[ids[0]], actor);
      WrapUpSweepLeavesCalls(w1, ids[1..], read, actor, if ok then done + 1 else done);
    }
  }

  lemma LeaseSweepsOnlyClose(s: Settings, w: World, now: Time, input: SweepInput)
    ensures OnlyCloses(w, SweepExpiredAgents(s, w, now, input).0)
    ensures SweepExpiredBorrowers(s, w, now, input).0.calls == w.calls
  {
    AgentSweepOnlyCloses(s, w, Pick(ExpiredAgents(w, now), input.expired, s.sweepLimit), w.agents, now, 0);
    BorrowerSweepFrame(w, Pick(ExpiredBorrowers(w, now), input.borrowers, s.sweepLimit), w.borrowers, now, 0);
  }

  lemma LateSweepsOnlyClose(s: Settings, w: World, now: Time, input: SweepInput)
    ensures OnlyCloses(w, SweepStaleCalls(s, w, now, input).0)
    ensures OnlyCloses(w, SweepSilentAgents(s, w, now, input).0)
    ensures SweepStuckWrapUps(s, w, now, input).0.calls == w.calls
  {
    CallSweepOnlyCloses(s, w, Pick(StaleCalls(w, now - s.staleTimeout), input.calls, s.sweepLimit), w.calls,
                        input.reports, 0);
    HeartbeatSweepOnlyCloses(s, w, Pick(SilentAgents(w, now - s.heartbeatTimeout), input.silent, s.sweepLimit),
                             w.agents, 0);
    WrapUpSweepLeavesCalls(w, Pick(FinishedWrapUps(w, now - StuckWrapUpAge(s)), input.wrapUps, s.sweepLimit), w.agents,
                           Recovery, 0);
  }

  lemma ClosesThrough(w: World, w1: World, w2: World)
    requires OnlyCloses(w, w1) && OnlyCloses(w1, w2)
    ensures OnlyCloses(w, w2)
  {
  }

  lemma SweepsOnlyClose(s: Settings, w: World, now: Time, input: SweepInput)
    ensures OnlyCloses(w, SweepsAt(s, w, now, input).0)
  {
    LeaseSweepsOnlyClose(s, w, now, input);
    var w1 := SweepExpiredAgents(s, w, now, input).0;
    LeaseSweepsOnlyClose(s, w1, now, input);
    var w2 := SweepExpiredBorrowers(s, w1, now, input).0;
    LateSweepsOnlyClose(s, w2, now, input);
    var w3 := SweepStaleCalls(s, w2, now, input).0;
    LateSweepsOnlyClose(s, w3, now, input);
    var w4 := SweepSilentAgents(s, w3, now, input).0;
    LateSweepsOnlyClose(s, w4, now, input);
    ClosesThrough(w, w2, w3);
    ClosesThrough(w, w3, w4);
  }

  lemma AgentCommandsKeepCalls(w: World, id: AgentId, action: AgentAction)
    ensures Act(w, id, action).0.calls == w.calls && Heartbeat(w, id).calls == w.calls
  {
  }

  lemma EndingWrapUpsKeepsCalls(s: Settings, w: World, campaign: CampaignId, order: seq<AgentId>)
    ensures ReleaseFinishedWrapUps(s, w, campaign, order).calls == w.calls
  {
    var t := Tick(w);
    var finished := set id | id in FinishedWrapUps(t, t.now - s.wrapUp) && t.agents[id].campaign == campaign;
    WrapUpSweepLeavesCalls(t, Pick(finished, order, WRAP_UP_SWEEP_LIMIT), t.agents, WorkerTimer, 0);
  }

  lemma OtherCommandsOnlyClose(s: Settings, w: World, t: Timed)
    requires !t.command.Attempt?
    ensures OnlyCloses(w, Exec(s, w, t))
  {
    var w0 := w.(delays := t.delays);
    match t.command
    case Deliver(e) => EventOnlyCloses(s, w0, e);
    case Sweep(input) => SweepsOnlyClose(s, Tick(w0), Tick(w0).now, input);
    case EndWrapUps(campaign, order) => EndingWrapUpsKeepsCalls(s, w0, campaign, order);
    case AgentActs(id, action) => AgentCommandsKeepCalls(w0, id, action);
    case Beat(id) => AgentCommandsKeepCalls(w0, id, Login);
  }

  lemma ClosingShrinksActive(s: Settings, w: World, w': World, campaign: CampaignId)
    requires OnlyCloses(w, w') && forall k :: k in w.calls ==> CallOk(w, k)
    ensures ActiveCalls(w', campaign) <= ActiveCalls(w, campaign)
    ensures |ActiveCalls(w', campaign)| <= |ActiveCalls(w, campaign)|
  {
    forall k | k in ActiveCalls(w', campaign) ensures k in ActiveCalls(w, campaign) {
      assert CallOk(w, k);
    }
    SubsetIsNoLarger(ActiveCalls(w', campaign), ActiveCalls(w, campaign));
  }

  // ---------- what the safety controller reads ----------

  function AgentsIn(w: World, campaign: CampaignId, state: AgentState): set<AgentId> {
    set id | id in w.agents && w.agents[id].campaign == campaign && w.agents[id].state == state
  }

  function CallsIn(w: World, campaign: CampaignId, state: CallState): set<CallKey> {
    set k | k in w.calls && k.campaign == campaign && w.calls[k].state == state
  }

  /** The store gives the counts; the failure rate and the provider's status come from elsewhere. */
  function ReadCapacity(w: World, campaign: CampaignId, failureRate: real, provider: HealthStatus): Reading {
    Reading(
      |AgentsIn(w, campaign, AgentState.Available)|,
      |AgentsIn(w, campaign, AgentState.Reserved)|,
      |CallsIn(w, campaign, CallState.Reserved)| + |CallsIn(w, campaign, CallState.Initiated)|
      + |CallsIn(w, campaign, CallState.Ringing)| + |CallsIn(w, campaign, CallState.Answered)|
      + |CallsIn(w, campaign, CallState.Connected)|,
      |CallsIn(w, campaign, CallState.Ringing)|,
      |ExpiredAgents(w, w.now)|,
      failureRate,
      provider)
  }

  lemma SizeOfFive<T>(a: set<T>, b: set<T>, c: set<T>, d: set<T>, e: set<T>)
    requires a !! b && (a + b) !! c && (a + b + c) !! d && (a + b + c + d) !! e
    ensures |a + b + c + d + e| == |a| + |b| + |c| + |d| + |e|
  {
  }

  lemma StatesSplitActive(w: World, campaign: CampaignId)
    requires forall k :: k in w.calls ==> CallConsistent(w.calls[k])
    ensures ActiveCalls(w, campaign)
            == CallsIn(w, campaign, CallState.Reserved) + CallsIn(w, campaign, CallState.Initiated)
             + CallsIn(w, campaign, CallState.Ringing) + CallsIn(w, campaign, CallState.Answered)
             + CallsIn(w, campaign, CallState.Connected)
  {
  }

  /** The five state counts add up to the active calls the invariant checker lists. */
  lemma CountsAddUp(w: World, campaign: CampaignId, failureRate: real, provider: HealthStatus)
    requires forall k :: k in w.calls ==> CallConsistent(w.calls[k])
    ensures ReadCapacity(w, campaign, failureRate, provider).active == |ActiveCalls(w, campaign)|
  {
    var a, b := CallsIn(w, campaign, CallState.Reserved), CallsIn(w, campaign, CallState.Initiated);
    var c := CallsIn(w, campaign, CallState.Ringing);
    var d, e := CallsIn(w, campaign, CallState.Answered), CallsIn(w, campaign, CallState.Connected);
    SizeOfFive(a, b, c, d, e);
    StatesSplitActive(w, campaign);
  }

  // ---------- the dialer as a machine ----------

  /** `budget` is what is left of the current tick's approval. */
  datatype Line = Line(w: World, budget: nat)

  datatype LineStep =
    | StartTick(request: Request, failureRate: real, provider: HealthStatus, drop: real)
    | PlaceOne(delays: seq<nat>, via: ProviderId, worker: WorkerId, input: DialInput)
    | Elsewhere(other: Timed)

  ghost predicate CanStep(s: Settings, campaign: CampaignId, l: Line, step: LineStep) {
    match step
    case StartTick(_, _, _, _) => true
    case PlaceOne(_, _, _, _) => l.budget > 0
    case Elsewhere(t) => Allowed(s, l.w, t) && (t.command.Attempt? ==> t.command.campaign != campaign)
  }

  function TakeStep(s: Settings, safety: SafetySettings, campaign: CampaignId, cap: int, l: Line, step: LineStep): Line
    requires step.PlaceOne? ==> l.budget > 0
  {
    match step
    case StartTick(request, rate, provider, drop) =>
      Line(l.w, Decide(safety, cap, request, ReadCapacity(l.w, campaign, rate, provider), drop, l.w.now).approved)
    case PlaceOne(delays, via, worker, input) =>
      Line(AttemptDial(s, l.w.(delays := delays), campaign, via, worker, input).0, l.budget - 1)
    case Elsewhere(t) => Line(Exec(s, l.w, t), l.budget)
  }

  /** Active calls and calls still approved fit the cap together. */
  ghost predicate WithinCap(s: Settings, campaign: CampaignId, cap: int, l: Line) {
    Inv(s, l.w) && |ActiveCalls(l.w, campaign)| + l.budget <= cap
  }

  lemma TickFitsCap(
    s: Settings, safety: SafetySettings, campaign: CampaignId, cap: int, w: World, req: Request, rate: real,
    provider: HealthStatus, drop: real
  )
    requires Inv(s, w)
    ensures var n := Decide(safety, cap, req, ReadCapacity(w, campaign, rate, provider), drop, w.now).approved;
            n > 0 ==> |ActiveCalls(w, campaign)| + n <= cap
  {
    var r := ReadCapacity(w, campaign, rate, provider);
    forall k | k in w.calls ensures CallConsistent(w.calls[k]) {
      assert CallOk(w, k);
    }
    CountsAddUp(w, campaign, rate, provider);
    VerdictsMeanWhatTheySay(safety, cap, req, r, drop, w.now);
    ApprovalFits(cap, req, r, RingingLimit(safety, r), IsStale(safety, r, req, w.now));
  }

  lemma PlacingUsesBudget(
    s: Settings, campaign: CampaignId, w: World, delays: seq<nat>, via: ProviderId, worker: WorkerId, input: DialInput
  )
    requires Inv(s, w)
    ensures var w' := AttemptDial(s, w.(delays := delays), campaign, via, worker, input).0;
            Inv(s, w') && |ActiveCalls(w', campaign)| <= |ActiveCalls(w, campaign)| + 1
  {
    var w0 := w.(delays := delays);
    ClockKeepsInv(s, w, w0);
    var (w', a) := AttemptDial(s, w0, campaign, via, worker, input);
    AttemptGrows(s, w0, campaign, via, worker, input, w', a);
    assert ActiveCalls(w0, campaign) == ActiveCalls(w, campaign);
  }

  /** A dial for one campaign leaves the active calls of every other as they are. */
  lemma OtherCampaignsUntouched(
    s: Settings, w: World, campaign: CampaignId, dialed: CampaignId, via: ProviderId, worker: WorkerId, input: DialInput
  )
    requires Inv(s, w) && dialed != campaign
    ensures ActiveCalls(AttemptDial(s, w, dialed, via, worker, input).0, campaign) == ActiveCalls(w, campaign)
  {
    var (w1, pair) := ReservePair(s, w, dialed, worker, input.agentOrder, input.borrowerOrder);
    var returned := ReservePairEffect(s, w, dialed, worker, input.agentOrder, input.borrowerOrder);
    if pair.Some? {
      ClaimedPairIsReady(s, w, w1, pair.value);
      var c := DialTouchesOneCall(s, w, w1, pair.value, via, input.healthy, input.reply);
      OtherCallsCount(w, Dial(s, w1, pair.value, via, input.healthy, input.reply).0, pair.value.Key(), c, campaign);
    }
  }

  lemma DialTouchesOneCall(s: Settings, w: World, w1: World, p: Pair, via: ProviderId, healthy: bool, reply: Reply)
    returns (c: Call)
    requires PairClaimed(s, w, w1, p) && p.Key() !in w.calls
    ensures var w' := Dial(s, w1, p, via, healthy, reply).0;
            w'.calls == w.calls || w'.calls == w.calls[p.Key() := c]
  {
    var _, _, call := DialEffect(s, w, w1, p, via, healthy, reply);
    c := call;
  }

  lemma OtherCallsCount(w: World, w': World, k: CallKey, c: Call, campaign: CampaignId)
    requires k !in w.calls && k.campaign != campaign && (w'.calls == w.calls || w'.calls == w.calls[k := c])
    ensures ActiveCalls(w', campaign) == ActiveCalls(w, campaign)
  {
  }

  lemma ElsewhereAddsNothing(s: Settings, campaign: CampaignId, w: World, t: Timed)
    requires Inv(s, w) && Allowed(s, w, t) && (t.command.Attempt? ==> t.command.campaign != campaign)
    ensures Inv(s, Exec(s, w, t)) && |ActiveCalls(Exec(s, w, t), campaign)| <= |ActiveCalls(w, campaign)|
  {
    ExecKeepsInvIff(s, w, t);
    if t.command.Attempt? {
      var w0 := w.(delays := t.delays);
      ClockKeepsInv(s, w, w0);
      OtherCampaignsUntouched(s, w0, campaign, t.command.campaign, t.command.provider, t.command.worker,
                              t.command.input);
      assert ActiveCalls(w0, campaign) == ActiveCalls(w, campaign);
    } else {
      OtherCommandsOnlyClose(s, w, t);
      ClosingShrinksActive(s, w, Exec(s, w, t), campaign);
    }
  }

  lemma StepStaysWithinCap(s: Settings, safety: SafetySettings, campaign: CampaignId, cap: int, l: Line, step: LineStep)
    requires WithinCap(s, campaign, cap, l) && CanStep(s, campaign, l, step)
    ensures WithinCap(s, campaign, cap, TakeStep(s, safety, campaign, cap, l, step))
  {
    match step
    case StartTick(request, rate, provider, drop) =>
      TickFitsCap(s, safety, campaign, cap, l.w, request, rate, provider, drop);
    case PlaceOne(delays, via, worker, input) => PlacingUsesBudget(s, campaign, l.w, delays, via, worker, input);
    case Elsewhere(t) => ElsewhereAddsNothing(s, campaign, l.w, t);
  }

  ghost predicate LineLegal(
    s: Settings, safety: SafetySettings, campaign: CampaignId, cap: int, l: Line, steps: seq<LineStep>
  )
    decreases |steps|
  {
    steps != [] ==> CanStep(s, campaign, l, steps[0])
                    && LineLegal(s, safety, campaign, cap, TakeStep(s, safety, campaign, cap, l, steps[0]), steps[1..])
  }

  ghost function RunLine(
    s: Settings, safety: SafetySettings, campaign: CampaignId, cap: int, l: Line, steps: seq<LineStep>
  ): Line
    requires LineLegal(s, safety, campaign, cap, l, steps)
    decreases |steps|
  {
    if steps == [] then l
    else RunLine(s, safety, campaign, cap, TakeStep(s, safety, campaign, cap, l, steps[0]), steps[1..])
  }

  /** Whatever the requests, replies, events, sweeps and delays, the cap is never exceeded. */
  lemma {:induction false} CapHoldsOverRuns(
    s: Settings, safety: SafetySettings, campaign: CampaignId, cap: int, l: Line, steps: seq<LineStep>
  )
    requires WithinCap(s, campaign, cap, l) && LineLegal(s, safety, campaign, cap, l, steps)
    ensures |ActiveCalls(RunLine(s, safety, campaign, cap, l, steps).w, campaign)| <= cap
    decreases |steps|
  {
    if steps == [] {
    } else {
      StepStaysWithinCap(s, safety, campaign, cap, l, steps[0]);
      CapHoldsOverRuns(s, safety, campaign, cap, TakeStep(s, safety, campaign, cap, l, steps[0]), steps[1..]);
    }
  }

  // ---------- one uninterrupted tick ----------

  function UpToApproved(inputs: seq<DialInput>, approved: nat): (first: seq<DialInput>)
    ensures |first| <= approved
  {
    if approved <= |inputs| then inputs[..approved] else inputs
  }

  /** Safety's decision, then the allocator loop over that many attempts. */
  function DialerTick(
    s: Settings, safety: SafetySettings, w: World, campaign: CampaignId, cap: int, via: ProviderId, worker: WorkerId,
    req: Request, rate: real, health: HealthStatus, drop: real, inputs: seq<DialInput>
  ): (World, Decision, Tally) {
    var d := Decide(safety, cap, req, ReadCapacity(w, campaign, rate, health), drop, w.now);
    var (w', t) := Allocate(s, w, campaign, via, worker, UpToApproved(inputs, d.approved));
    (w', d, t)
  }

  /** A tick dials at most what was approved, and never takes the campaign over its cap. */
  lemma TickIsBounded(
    s: Settings, safety: SafetySettings, w: World, campaign: CampaignId, cap: int, via: ProviderId, worker: WorkerId,
    req: Request, rate: real, health: HealthStatus, drop: real, inputs: seq<DialInput>
  )
    requires Inv(s, w)
    ensures var (w', d, t) := DialerTick(s, safety, w, campaign, cap, via, worker, req, rate, health, drop, inputs);
            && t.placed + t.failed + t.contended == t.attempted <= d.approved
            && |ActiveCalls(w', campaign)| == |ActiveCalls(w, campaign)| + t.placed
            && |ActiveCalls(w', campaign)| <= Max(|ActiveCalls(w, campaign)|, cap)
  {
    var d := Decide(safety, cap, req, ReadCapacity(w, campaign, rate, health), drop, w.now);
    TickFitsCap(s, safety, campaign, cap, w, req, rate, health, drop);
    AllocationIsConserved(s, w, campaign, via, worker, UpToApproved(inputs, d.approved));
  }
}
