/** Any run of handlers, in any order and at any times, keeps agents, borrowers and calls linked. */
module HandlerRuns {
  import opened Basics
  import opened AgentMachine
  import opened CallMachine
  import opened Documents
  import opened Store
  import opened Effects
  import opened Handlers
  import opened Linking
  import opened DialKeepsLinks
  import opened EventsKeepLinks
  import opened RecoveryKeepsLinks
  import opened SweepsKeepLinks
  import opened LimitedSweeps

  datatype Command =
    | Attempt(campaign: CampaignId, provider: ProviderId, worker: WorkerId, input: DialInput)
    | Deliver(event: Event)
    | Sweep(sweep: SweepInput)
    | EndWrapUps(inCampaign: CampaignId, order: seq<AgentId>)
    | AgentActs(agent: AgentId, action: AgentAction)
    | Beat(from: AgentId)

  /** A command and the script of how long its clock readings are apart, the first from the previous command. */
  datatype Timed = Timed(delays: seq<nat>, command: Command)

  function Perform(s: Settings, w: World, c: Command): World {
    match c
    case Attempt(campaign, provider, worker, input) => AttemptDial(s, w, campaign, provider, worker, input).0
    case Deliver(e) => ProcessEvent(s, w, e).0
    case Sweep(input) => RunSweeps(s, w, input).0
    case EndWrapUps(campaign, order) => ReleaseFinishedWrapUps(s, w, campaign, order)
    case AgentActs(id, action) => Act(w, id, action).0
    case Beat(id) => Heartbeat(w, id)
  }

  function Exec(s: Settings, w: World, t: Timed): World {
    Perform(s, w.(delays := t.delays), t.command)
  }

  /** Queries list a document at most once. */
  predicate ListsOnce(t: Timed) {
    match t.command
    case Sweep(input) => OrdersDistinct(input)
    case EndWrapUps(_, order) => Distinct(order)
    case _ => true
  }

  /**
   * What is asked of the environment: queries list a document at most once, no sweep takes the borrower
   * of a call whose agent it leaves alone, and nobody logs out during an active call.
   */
  ghost predicate Allowed(s: Settings, w: World, t: Timed) {
    var w0 := w.(delays := t.delays);
    ListsOnce(t) &&
    match t.command
    case Sweep(input) => CallsKeepBorrowers(s, Tick(w0), Tick(w0).now, input)
    case AgentActs(id, action) => action == Logout && id in w.agents ==> !OnActiveCall(w, w.agents[id])
    case _ => true
  }

  function Run(s: Settings, w: World, run: seq<Timed>): World
    decreases |run|
  {
    if run == [] then w else Run(s, Exec(s, w, run[0]), run[1..])
  }

  ghost predicate Legal(s: Settings, w: World, run: seq<Timed>)
    decreases |run|
  {
    run != [] ==> Allowed(s, w, run[0]) && Legal(s, Exec(s, w, run[0]), run[1..])
  }

  /** A freshly seeded database: everyone offline, nobody held, nothing dialed. */
  predicate Seeded(s: Settings, w: World) {
    && w.calls == map[] && w.index == map[]
    && s.maxAttempts >= 1
    && (forall id :: id in w.agents ==>
          w.agents[id].state == AgentState.Offline && w.agents[id].lease.None? && w.agents[id].currentCall.None?)
    && (forall b :: b in w.borrowers ==>
          w.borrowers[b].status == BorrowerStatus.Pending && w.borrowers[b].lease.None?
          && w.borrowers[b].attemptCount == 0)
  }

  lemma SeededIsLinked(s: Settings, w: World)
    requires Seeded(s, w)
    ensures Inv(s, w)
  {
  }

  // ---------- agent actions ----------

  predicate HeartbeatNoted(w: World, w': World, id: AgentId) {
    && id in w.agents && id in w'.agents
    && w'.agents[id] == w.agents[id].(lastHeartbeat := w'.agents[id].lastHeartbeat)
    && w' == w.(agents := w.agents[id := w'.agents[id]], now := w'.now, delays := w'.delays)
  }

  lemma HeartbeatIsUnit(s: Settings, w: World, w': World, id: AgentId, k: CallKey)
    requires HeartbeatNoted(w, w', id) && AgentOk(w, id) && IndexOk(w)
    requires k.agent == id && (Active(w, k) ==> Linked(w, k))
    requires forall x :: Active(w, x) && x != k ==> x.agent != id
    ensures Unit(s, w, w', k)
  {
  }

  lemma HeartbeatKeepsInv(s: Settings, w: World, id: AgentId)
    requires Inv(s, w)
    ensures Inv(s, Heartbeat(w, id))
  {
    var w' := Heartbeat(w, id);
    if id in w.agents {
      assert AgentOk(w, id);
      var k := if w.agents[id].currentCall.Some? then w.agents[id].currentCall.value else UnusedKey(id);
      forall x | Active(w, x) && x != k ensures x.agent != id {
        assert Linked(w, x);
      }
      HeartbeatIsUnit(s, w, w', id, k);
      UnitKeepsInv(s, w, w', k);
    } else {
      ClockKeepsInv(s, w, w');
    }
  }

  /** The moves an agent makes from a state in which it is on no call. */
  lemma IdleMoveKeepsInv(s: Settings, w: World, id: AgentId, action: AgentAction)
    requires Inv(s, w) && id in w.agents
    requires w.agents[id].state != AgentState.Dialing && w.agents[id].state != AgentState.Connected
    ensures Inv(s, Act(w, id, action).0)
  {
    var a := w.agents[id];
    var (w1, r) := TryTransitionAgent(w, id, a.state, ActionTarget(action), Self, a.version);
    if Authorised(a.state, ActionTarget(action), Self) {
      assert AgentOk(w, id);
      IdleHasNoCall(s, w, id);
      WonTransitionAgent(w, id, ActionTarget(action), Self);
      IdleAgentKeepsInv(s, w, w1, id);
    }
    HeartbeatKeepsInv(s, w1, id);
  }

  /** Logging out while dialing or connected keeps the links exactly when the agent's call is over. */
  lemma BusyLogoutKeepsInvIff(s: Settings, w: World, id: AgentId)
    requires Inv(s, w) && id in w.agents
    requires w.agents[id].state == AgentState.Dialing || w.agents[id].state == AgentState.Connected
    ensures Inv(s, Act(w, id, Logout).0) <==> !OnActiveCall(w, w.agents[id])
  {
    var a := w.agents[id];
    WonTransitionAgent(w, id, AgentState.Offline, Self);
    var w1 := Act(w, id, Logout).0;
    assert w1.agents[id].state == AgentState.Offline;
    if OnActiveCall(w, a) {
      BoundCallIsOwnedBy(s, w, id);
      assert Active(w1, a.currentCall.value);
      assert !Linked(w1, a.currentCall.value);
    } else {
      NoCallWithoutBinding(s, w, id);
      assert AgentOk(w, id);
      IdleAgentKeepsInv(s, w, w1, id);
    }
  }

  lemma BoundCallIsOwnedBy(s: Settings, w: World, id: AgentId)
    requires Inv(s, w) && id in w.agents && OnActiveCall(w, w.agents[id])
    ensures w.agents[id].currentCall.value.agent == id && Rank(w.calls[w.agents[id].currentCall.value].state) >= 2
  {
  }

  lemma NoCallWithoutBinding(s: Settings, w: World, id: AgentId)
    requires Inv(s, w) && id in w.agents && !OnActiveCall(w, w.agents[id])
    ensures forall x :: Active(w, x) ==> x.agent != id
  {
  }

  /** Of all an agent can do, only logging out during its active call breaks a link. */
  lemma ActKeepsInvIff(s: Settings, w: World, id: AgentId, action: AgentAction)
    requires Inv(s, w)
    ensures Inv(s, Act(w, id, action).0) <==> (action == Logout && id in w.agents ==> !OnActiveCall(w, w.agents[id]))
  {
    if id in w.agents {
      if w.agents[id].state != AgentState.Dialing && w.agents[id].state != AgentState.Connected {
        IdleMoveKeepsInv(s, w, id, action);
        IdleIsOffCalls(s, w, id);
      } else if action == Logout {
        BusyLogoutKeepsInvIff(s, w, id);
      } else {
        assert !Authorised(w.agents[id].state, ActionTarget(action), Self);
      }
    }
  }

  lemma IdleIsOffCalls(s: Settings, w: World, id: AgentId)
    requires Inv(s, w) && id in w.agents
    requires w.agents[id].state != AgentState.Dialing && w.agents[id].state != AgentState.Connected
    ensures !OnActiveCall(w, w.agents[id])
  {
    assert AgentOk(w, id);
    IdleHasNoCall(s, w, id);
  }

  // ---------- every run ----------

  lemma EndWrapUpsKeepsInv(s: Settings, w: World, campaign: CampaignId, order: seq<AgentId>)
    requires Inv(s, w) && Distinct(order)
    ensures Inv(s, ReleaseFinishedWrapUps(s, w, campaign, order))
  {
    var t := Tick(w);
    ClockKeepsInv(s, w, t);
    var finished := set id | id in FinishedWrapUps(t, t.now - s.wrapUp) && t.agents[id].campaign == campaign;
    PickIsDistinct(finished, order, WRAP_UP_SWEEP_LIMIT);
    WrapUpSweepKeepsInv(s, t, Pick(finished, order, WRAP_UP_SWEEP_LIMIT), t.agents, WorkerTimer, 0);
  }

  /** A command keeps every link exactly when it is allowed: no condition on the environment asks too much. */
  lemma ExecKeepsInvIff(s: Settings, w: World, t: Timed)
    requires Inv(s, w) && ListsOnce(t)
    ensures Inv(s, Exec(s, w, t)) <==> Allowed(s, w, t)
  {
    var w0 := w.(delays := t.delays);
    ClockKeepsInv(s, w, w0);
    match t.command
    case Attempt(campaign, provider, worker, input) => AttemptKeepsInv(s, w0, campaign, provider, worker, input);
    case Deliver(e) => EventKeepsInv(s, w0, e);
    case Sweep(input) =>
      ClockKeepsInv(s, w0, Tick(w0));
      SweepsKeepInvIff(s, Tick(w0), Tick(w0).now, input);
    case EndWrapUps(campaign, order) => EndWrapUpsKeepsInv(s, w0, campaign, order);
    case AgentActs(id, action) => ActKeepsInvIff(s, w0, id, action);
    case Beat(id) => HeartbeatKeepsInv(s, w0, id);
  }

  /** Every store the run passes through, from the first command's on, is linked. */
  ghost predicate LinkedThroughout(s: Settings, w: World, run: seq<Timed>)
    decreases |run|
  {
    run != [] ==> Inv(s, Exec(s, w, run[0])) && LinkedThroughout(s, Exec(s, w, run[0]), run[1..])
  }

  /** The legal runs are exactly those that stay linked throughout. */
  lemma {:induction false} LegalIffLinkedThroughout(s: Settings, w: World, run: seq<Timed>)
    requires Inv(s, w) && forall i :: 0 <= i < |run| ==> ListsOnce(run[i])
    ensures Legal(s, w, run) <==> LinkedThroughout(s, w, run)
    decreases |run|
  {
    if run == [] {
    } else {
      ExecKeepsInvIff(s, w, run[0]);
      if Inv(s, Exec(s, w, run[0])) { LegalIffLinkedThroughout(s, Exec(s, w, run[0]), run[1..]); }
    }
  }

  lemma {:induction false} RunKeepsInv(s: Settings, w: World, run: seq<Timed>)
    requires Inv(s, w) && Legal(s, w, run)
    ensures Inv(s, Run(s, w, run))
    decreases |run|
  {
    if run == [] {
    } else {
      ExecKeepsInvIff(s, w, run[0]);
      RunKeepsInv(s, Exec(s, w, run[0]), run[1..]);
    }
  }

  /** A world some legal run of handlers reaches from a seeded database. */
  ghost predicate Reachable(s: Settings, w: World) {
    exists w0, run :: Seeded(s, w0) && Legal(s, w0, run) && w == Run(s, w0, run)
  }

  lemma ReachableIsLinked(s: Settings, w: World)
    requires Reachable(s, w)
    ensures Inv(s, w)
  {
    var w0, run :| Seeded(s, w0) && Legal(s, w0, run) && w == Run(s, w0, run);
    SeededIsLinked(s, w0);
    RunKeepsInv(s, w0, run);
  }

  lemma {:induction false} LegalOnward(s: Settings, w: World, run: seq<Timed>, t: Timed)
    requires Legal(s, w, run) && Allowed(s, Run(s, w, run), t)
    ensures Legal(s, w, run + [t]) && Run(s, w, run + [t]) == Exec(s, Run(s, w, run), t)
    decreases |run|
  {
    if run == [] {
      assert [] + [t] == [t] && [t][1..] == [];
    } else {
      LegalOnward(s, Exec(s, w, run[0]), run[1..], t);
      assert (run + [t])[1..] == run[1..] + [t];
    }
  }

  lemma ReachableOnward(s: Settings, w: World, t: Timed)
    requires Reachable(s, w) && Allowed(s, w, t)
    ensures Reachable(s, Exec(s, w, t))
  {
    var w0, run :| Seeded(s, w0) && Legal(s, w0, run) && w == Run(s, w0, run);
    LegalOnward(s, w0, run, t);
  }
}
