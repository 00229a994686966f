/** Agents under every interleaving: authorised moves only, versions that count them, and leases that bound them. */
module AgentsInterleaved {
  import opened Basics
  import opened AgentMachine
  import opened CallMachine
  import opened Documents
  import opened Store
  import opened Handlers
  import opened Interleavings

  /** A working agent holds a lease of full length; one in wrap-up holds none. */
  ghost predicate AgentSound(s: Settings, a: Agent) {
    && (a.state == AgentState.Reserved || a.state == AgentState.Dialing || a.state == AgentState.Connected ==>
          a.lease.Some?)
    && (a.state == AgentState.WrapUp ==> a.lease.None?)
    && (a.lease.Some? ==> a.lease.value.expiresAt == a.lease.value.reservedAt + s.ttl)
  }

  /** Everything a version protects. */
  predicate SameVersioned(a: Agent, b: Agent) {
    b == a.(currentCall := b.currentCall, lastHeartbeat := b.lastHeartbeat)
  }

  /** A reading with the stored version differs from what is stored in binding and heartbeat at most. */
  ghost predicate AgentReadSound(w: World, id: AgentId, read: Agent) {
    && id in w.agents
    && read.version <= w.agents[id].version
    && (read.version == w.agents[id].version ==> SameVersioned(read, w.agents[id]))
  }

  ghost predicate AgentsSound(s: Settings, f: Fine) {
    && (forall id :: id in f.w.agents ==> AgentSound(s, f.w.agents[id]))
    && (forall p :: p in f.agentsRead ==> AgentReadSound(f.w, p.0, p.1))
  }

  /** Who is acting when a step changes an agent's state. */
  function ActorOf(op: Op): Actor {
    match op
    case LetAgentGo(_, _, _, who) => who
    case MoveAgentTo(_, _, _, actor) => actor
    case ReclaimLease(_, _, _) => Recovery
    case _ => Allocator
  }

  /** Either nothing a version protects has changed, or the version grew by one along an authorised edge. */
  ghost predicate AgentMovedLegally(a: Agent, a': Agent, actor: Actor) {
    || SameVersioned(a, a')
    || (a'.version == a.version + 1 && a'.state != a.state && Authorised(a.state, a'.state, actor))
  }

  ghost predicate AgentsMoveLegally(w: World, w': World, actor: Actor) {
    w'.agents.Keys == w.agents.Keys
    && forall id :: id in w.agents ==> AgentMovedLegally(w.agents[id], w'.agents[id], actor)
  }

  lemma OneAgentWritten(s: Settings, f: Fine, f': Fine, id: AgentId, actor: Actor)
    requires AgentsSound(s, f) && id in f.w.agents && id in f'.w.agents
    requires f'.w.agents == f.w.agents[id := f'.w.agents[id]]
    requires f'.agentsRead == f.agentsRead || f'.agentsRead == f.agentsRead + {(id, f'.w.agents[id])}
    requires AgentSound(s, f'.w.agents[id])
    requires AgentMovedLegally(f.w.agents[id], f'.w.agents[id], actor)
    ensures AgentsSound(s, f') && AgentsMoveLegally(f.w, f'.w, actor)
  {
  }

  lemma AgentsUntouched(s: Settings, f: Fine, f': Fine, actor: Actor)
    requires AgentsSound(s, f)
    requires f'.w.agents == f.w.agents && f'.agentsRead == f.agentsRead
    ensures AgentsSound(s, f') && AgentsMoveLegally(f.w, f'.w, actor)
  {
  }

  lemma NoStandingStill(from: AgentState, actor: Actor)
    ensures !Authorised(from, from, actor)
  {
  }

  lemma ClaimStep(s: Settings, f: Fine, campaign: CampaignId, id: AgentId, worker: WorkerId)
    requires AgentsSound(s, f)
    ensures var f' := Take(s, f, Claim(campaign, id, worker));
            AgentsSound(s, f') && AgentsMoveLegally(f.w, f'.w, Allocator)
  {
    var f' := Take(s, f, Claim(campaign, id, worker));
    if TryReserveAgent(f.w, campaign, id, worker, s.ttl).1.Some? {
      OneAgentWritten(s, f, f', id, Allocator);
    } else {
      AgentsUntouched(s, f, f', Allocator);
    }
  }

  lemma ReleaseStep(s: Settings, f: Fine, id: AgentId, worker: WorkerId, to: AgentState, who: Actor)
    requires AgentsSound(s, f) && ReleaseAsked(to, who)
    ensures var f' := Take(s, f, LetAgentGo(id, worker, to, who));
            AgentsSound(s, f') && AgentsMoveLegally(f.w, f'.w, who)
  {
    var f' := Take(s, f, LetAgentGo(id, worker, to, who));
    NoStandingStill(to, who);
    if TryReleaseAgent(f.w, id, worker, to, who).1.Some? {
      OneAgentWritten(s, f, f', id, who);
    } else {
      AgentsUntouched(s, f, f', who);
    }
  }

  /** An authorised versioned move keeps a lease where one is needed: dialing and connected are entered with one. */
  lemma VersionedMoveIsSound(s: Settings, a: Agent, to: AgentState, actor: Actor, now: Time)
    requires AgentSound(s, a) && Authorised(a.state, to, actor)
    requires to != AgentState.Reserved && to != AgentState.WrapUp
    ensures AgentSound(s, MoveAgent(CloseInterval(a, now), to, now))
  {
  }

  lemma MoveStep(s: Settings, f: Fine, id: AgentId, read: Agent, to: AgentState, actor: Actor)
    requires AgentsSound(s, f) && to != AgentState.Reserved && to != AgentState.WrapUp
    ensures var f' := Take(s, f, MoveAgentTo(id, read, to, actor));
            AgentsSound(s, f') && AgentsMoveLegally(f.w, f'.w, actor)
  {
    var f' := Take(s, f, MoveAgentTo(id, read, to, actor));
    NoStandingStill(to, actor);
    var (w, r) := TryTransitionAgent(f.w, id, read.state, to, actor, read.version);
    if r.Moved? {
      VersionedMoveIsSound(s, f.w.agents[id], to, actor, w.now);
      OneAgentWritten(s, f, f', id, actor);
    } else {
      AgentsUntouched(s, f, f', actor);
    }
  }

  lemma BindStep(s: Settings, f: Fine, id: AgentId, worker: WorkerId, key: CallKey)
    requires AgentsSound(s, f)
    ensures var f' := Take(s, f, Bind(id, worker, key));
            AgentsSound(s, f') && AgentsMoveLegally(f.w, f'.w, Allocator)
  {
  }

  lemma PingStep(s: Settings, f: Fine, id: AgentId)
    requires AgentsSound(s, f)
    ensures var f' := Take(s, f, Ping(id));
            AgentsSound(s, f') && AgentsMoveLegally(f.w, f'.w, Allocator)
  {
    var f' := Take(s, f, Ping(id));
    if id in f.w.agents {
      OneAgentWritten(s, f, f', id, Allocator);
    } else {
      AgentsUntouched(s, f, f', Allocator);
    }
  }

  lemma ReclaimAgentStep(s: Settings, f: Fine, id: AgentId, read: Agent, now: Time)
    requires AgentsSound(s, f) && AgentLeaseExpired(read, now)
    ensures var f' := Take(s, f, ReclaimLease(id, read, now));
            AgentsSound(s, f') && AgentsMoveLegally(f.w, f'.w, Recovery)
  {
    var f' := Take(s, f, ReclaimLease(id, read, now));
    NoStandingStill(AgentState.Available, Recovery);
    if TryReclaimAgent(f.w, id, read, now).1.Some? {
      OneAgentWritten(s, f, f', id, Recovery);
    } else {
      AgentsUntouched(s, f, f', Recovery);
    }
  }

  lemma ReadAgentStep(s: Settings, f: Fine, id: AgentId)
    requires AgentsSound(s, f)
    ensures AgentsSound(s, Take(s, f, ReadAgent(id)))
  {
  }

  predicate ConcernsAgents(op: Op) {
    op.Claim? || op.LetAgentGo? || op.MoveAgentTo? || op.Bind? || op.ReclaimLease? || op.Ping? || op.ReadAgent?
  }

  predicate MovesCalls(op: Op) {
    op.Promote? || op.EndCall? || op.CompleteStale? || op.MoveByEvent?
  }

  lemma CallMovesKeepAgents(s: Settings, f: Fine, op: Op)
    requires MovesCalls(op)
    ensures Take(s, f, op).w.agents == f.w.agents && Take(s, f, op).agentsRead == f.agentsRead
  {
  }

  lemma OtherStepsKeepAgents(s: Settings, f: Fine, op: Op)
    requires !ConcernsAgents(op) && !MovesCalls(op)
    ensures Take(s, f, op).w.agents == f.w.agents && Take(s, f, op).agentsRead == f.agentsRead
  {
  }

  /** Under any interleaving an agent's state moves only along edges its actor may take, one version at a time. */
  lemma StepKeepsAgents(s: Settings, f: Fine, op: Op)
    requires AgentsSound(s, f) && Enabled(s, f, op)
    ensures AgentsSound(s, Take(s, f, op)) && AgentsMoveLegally(f.w, Take(s, f, op).w, ActorOf(op))
  {
    match op
    case Claim(campaign, id, worker) => ClaimStep(s, f, campaign, id, worker);
    case LetAgentGo(id, worker, to, who) => ReleaseStep(s, f, id, worker, to, who);
    case MoveAgentTo(id, read, to, actor) => MoveStep(s, f, id, read, to, actor);
    case Bind(id, worker, key) => BindStep(s, f, id, worker, key);
    case ReclaimLease(id, read, now) => ReclaimAgentStep(s, f, id, read, now);
    case Ping(id) => PingStep(s, f, id);
    case ReadAgent(id) => ReadAgentStep(s, f, id);
    case _ =>
      if MovesCalls(op) { CallMovesKeepAgents(s, f, op); } else { OtherStepsKeepAgents(s, f, op); }
      AgentsUntouched(s, f, Take(s, f, op), ActorOf(op));
  }

  /** What a step leaves an agent bound to, if it changes nothing a version protects. */
  function BindingAfter(f: Fine, op: Op, id: AgentId, was: Option<CallKey>): Option<CallKey> {
    if op.Bind? && op.bound == id && id in f.w.agents && HeldBy(f.w.agents[id].lease, op.binder) then Some(op.toCall)
    else was
  }

  lemma OnlyBindingBinds(s: Settings, f: Fine, op: Op, id: AgentId)
    requires id in f.w.agents && id in Take(s, f, op).w.agents
    requires Take(s, f, op).w.agents[id].version == f.w.agents[id].version
    ensures Take(s, f, op).w.agents[id].currentCall == BindingAfter(f, op, id, f.w.agents[id].currentCall)
  {
    match op
    case Claim(_, _, _) => ClaimOrReclaimCounts(s, f, op, id);
    case ReclaimLease(_, _, _) => ClaimOrReclaimCounts(s, f, op, id);
    case LetAgentGo(_, _, _, _) => ReleaseCounts(s, f, op, id);
    case MoveAgentTo(_, _, _, _) => MoveCounts(s, f, op, id);
    case Bind(bound, binder, key) => assert Take(s, f, op).w == TryBindCall(f.w, bound, binder, key).0;
    case Ping(pinged) => assert Take(s, f, op).w == Heartbeat(f.w, pinged);
    case _ => if MovesCalls(op) { CallMovesKeepAgents(s, f, op); } else { OtherWritesKeepAgents(s, f, op); }
  }

  predicate SameOrNewer(w: World, w': World, id: AgentId) {
    id in w.agents && id in w'.agents && w'.agents[id].version == w.agents[id].version
    ==> w'.agents[id].currentCall == w.agents[id].currentCall
  }

  lemma ClaimOrReclaimCounts(s: Settings, f: Fine, op: Op, id: AgentId)
    requires op.Claim? || op.ReclaimLease?
    ensures SameOrNewer(f.w, Take(s, f, op).w, id)
  {
  }

  lemma ReleaseCounts(s: Settings, f: Fine, op: Op, id: AgentId)
    requires op.LetAgentGo?
    ensures SameOrNewer(f.w, Take(s, f, op).w, id)
  {
  }

  lemma MoveCounts(s: Settings, f: Fine, op: Op, id: AgentId)
    requires op.MoveAgentTo?
    ensures SameOrNewer(f.w, Take(s, f, op).w, id)
  {
  }

  lemma OtherWritesKeepAgents(s: Settings, f: Fine, op: Op)
    requires !MovesCalls(op) && (!ConcernsAgents(op) || op.ReadAgent?)
    ensures Take(s, f, op).w.agents == f.w.agents
  {
    if !op.ReadAgent? { OtherStepsKeepAgents(s, f, op); }
  }

  /** A versioned move or lease reclaim that succeeds finds what was read, but for binding and heartbeat. */
  lemma NoInterveningChange(s: Settings, f: Fine, id: AgentId, read: Agent, to: AgentState, actor: Actor, sweep: Time)
    requires AgentsSound(s, f) && (id, read) in f.agentsRead
    requires TryTransitionAgent(f.w, id, read.state, to, actor, read.version).1.Moved?
          || TryReclaimAgent(f.w, id, read, sweep).1.Some?
    ensures SameVersioned(read, f.w.agents[id])
  {
  }
}
