/**
 * A write is dated by a reading of the clock that may be old by the time it is made: under every
 * interleaving, exactly which of those writes make time accounting count twice.
 */
module BackdatedWrites {
  import opened Basics
  import opened AgentMachine
  import opened CallMachine
  import opened Documents
  import opened Store
  import opened Handlers
  import opened Interleavings
  import opened AgentsInterleaved
  import opened TimeAccounting

  /** The time up to which an agent's counters are filled. */
  function Covered(a: Agent): Time {
    a.createdAt + a.busyMs + a.availableMs
  }

  // ---------- single documents ----------

  lemma ReservingIsTimedIff(a: Agent, campaign: CampaignId, worker: WorkerId, ttl: Time, now: Time)
    requires AgentTimed(a) && ReserveAgent(a, campaign, worker, ttl, now).Some?
    ensures AgentTimed(ReserveAgent(a, campaign, worker, ttl, now).value) <==> Covered(a) <= now
  {
  }

  lemma MovingIsTimedIff(a: Agent, to: AgentState, now: Time)
    requires AgentTimed(a)
    ensures AgentTimed(MoveAgent(CloseInterval(a, now), to, now)) <==> Covered(a) <= now
  {
  }

  lemma ReclaimingIsTimedIff(a: Agent, read: Agent, now: Time)
    requires AgentTimed(a) && ReclaimAgent(a, read, now).Some?
    ensures AgentTimed(ReclaimAgent(a, read, now).value) <==> Covered(a) <= now
  {
  }

  // ---------- single steps ----------

  /** The agent a step may move to another state. */
  function Mover(op: Op): Option<AgentId> {
    match op
    case Claim(_, id, _) => Some(id)
    case LetAgentGo(id, _, _, _) => Some(id)
    case MoveAgentTo(id, _, _, _) => Some(id)
    case ReclaimLease(id, _, _) => Some(id)
    case _ => None
  }

  /** The date of what it writes: a sweep dates its reclaims by its own start. */
  function DateOf(f: Fine, step: Step): Time {
    match step.op
    case ReclaimLease(_, _, sweepTime) => sweepTime
    case _ => Stamp(f, step)
  }

  /** The guard of the step's write to an agent, if it has one. */
  predicate WouldMove(f: Fine, step: Step) {
    Mover(step.op).Some? && Mover(step.op).value in f.w.agents &&
    var a := f.w.agents[Mover(step.op).value];
    match step.op
    case Claim(campaign, _, _) => a.campaign == campaign && a.state == AgentState.Available
    case LetAgentGo(_, worker, to, who) => HeldBy(a.lease, worker) && a.state in AllowedSources(to, who)
    case MoveAgentTo(_, read, to, who) =>
      Authorised(read.state, to, who) && a.state == read.state && a.version == read.version
    case ReclaimLease(_, read, sweep) => a.state == read.state && a.version == read.version && Expired(a.lease, sweep)
  }

  /** The step moves an agent and dates the move before the end of what the agent's counters cover. */
  predicate GoesBack(f: Fine, step: Step) {
    WouldMove(f, step) && DateOf(f, step) < Covered(f.w.agents[Mover(step.op).value])
  }

  lemma OneAgentDated(w: World, w': World, id: AgentId, a: Agent, date: Time)
    requires Timely(w) && id in w.agents && w'.agents == w.agents[id := a] && w.now <= w'.now
    requires a.stateChangedAt == date <= w'.now && (AgentTimed(a) <==> Covered(w.agents[id]) <= date)
    ensures Timely(w') <==> Covered(w.agents[id]) <= date
  {
    assert w'.agents[id] == a;
  }

  lemma AgentsKeptIsTimely(w: World, w': World)
    requires Timely(w) && w'.agents == w.agents && w.now <= w'.now
    ensures Timely(w')
  {
  }

  lemma ClaimIsTimelyIff(s: Settings, f: Fine, step: Step)
    requires Timely(f.w) && step.op.Claim?
    ensures Timely(Next(s, f, step).w) <==> !GoesBack(f, step)
  {
    var id := step.op.claimed;
    var (w, r) := TryReserveAgent(Dated(f, Stamp(f, step)).w, step.op.claimIn, id, step.op.claimer, s.ttl);
    if r.Some? {
      ReservingIsTimedIff(f.w.agents[id], step.op.claimIn, step.op.claimer, s.ttl, Stamp(f, step));
      OneAgentDated(f.w, Next(s, f, step).w, id, r.value, Stamp(f, step));
    } else {
      AgentsKeptIsTimely(f.w, Next(s, f, step).w);
    }
  }

  lemma ReleaseIsTimelyIff(s: Settings, f: Fine, step: Step)
    requires Timely(f.w) && step.op.LetAgentGo?
    ensures Timely(Next(s, f, step).w) <==> !GoesBack(f, step)
  {
    var id, to := step.op.letGo, step.op.to;
    var (w, r) := TryReleaseAgent(Dated(f, Stamp(f, step)).w, id, step.op.fromWorker, to, step.op.who);
    if r.Some? {
      MovingIsTimedIff(f.w.agents[id], to, Stamp(f, step));
      OneAgentDated(f.w, Next(s, f, step).w, id, r.value, Stamp(f, step));
    } else {
      AgentsKeptIsTimely(f.w, Next(s, f, step).w);
    }
  }

  lemma MoveIsTimelyIff(s: Settings, f: Fine, step: Step)
    requires Timely(f.w) && step.op.MoveAgentTo?
    ensures Timely(Next(s, f, step).w) <==> !GoesBack(f, step)
  {
    var id, read, to := step.op.mover, step.op.agentRead, step.op.dest;
    var (w, r) := TryTransitionAgent(Dated(f, Stamp(f, step)).w, id, read.state, to, step.op.actor, read.version);
    if r.Moved? {
      MovingIsTimedIff(f.w.agents[id], to, Stamp(f, step));
      OneAgentDated(f.w, Next(s, f, step).w, id, r.agent, Stamp(f, step));
    } else {
      AgentsKeptIsTimely(f.w, Next(s, f, step).w);
    }
  }

  lemma ReclaimIsTimelyIff(s: Settings, f: Fine, step: Step)
    requires Timely(f.w) && CanTake(s, f, step) && step.op.ReclaimLease?
    ensures Timely(Next(s, f, step).w) <==> !GoesBack(f, step)
  {
    var id, read, date := step.op.lapsed, step.op.lapsedRead, step.op.sweepTime;
    var (w, r) := TryReclaimAgent(f.w, id, read, date);
    if r.Some? {
      ReclaimingIsTimedIff(f.w.agents[id], read, date);
      OneAgentDated(f.w, Next(s, f, step).w, id, r.value, date);
    } else {
      AgentsKeptIsTimely(f.w, Next(s, f, step).w);
    }
  }

  lemma UnmovedIsTimely(s: Settings, f: Fine, step: Step)
    requires Timely(f.w) && Mover(step.op).None?
    ensures Timely(Next(s, f, step).w)
  {
    var g := Dated(f, Stamp(f, step));
    match step.op
    case Bind(id, worker, key) =>
    case Ping(id) =>
    case ReadAgent(id) =>
    case _ =>
      if MovesCalls(step.op) { CallMovesKeepAgents(s, g, step.op); } else { OtherStepsKeepAgents(s, g, step.op); }
      AgentsKeptIsTimely(f.w, Next(s, f, step).w);
  }

  /**
   * Of all the steps any interleaving can take, with readings of the clock as old as they please, exactly
   * those that date an agent's move before the end of its counters break the accounts.
   */
  lemma StepIsTimelyIff(s: Settings, f: Fine, step: Step)
    requires Timely(f.w) && CanTake(s, f, step)
    ensures Timely(Next(s, f, step).w) <==> !GoesBack(f, step)
  {
    match step.op
    case Claim(_, _, _) => ClaimIsTimelyIff(s, f, step);
    case LetAgentGo(_, _, _, _) => ReleaseIsTimelyIff(s, f, step);
    case MoveAgentTo(_, _, _, _) => MoveIsTimelyIff(s, f, step);
    case ReclaimLease(_, _, _) => ReclaimIsTimelyIff(s, f, step);
    case _ => UnmovedIsTimely(s, f, step);
  }
}
