/**
 * Every interleaving: any number of workers, each repository call one atomic step, any step delayed
 * arbitrarily after the reading it depends on, and any worker stopping for good at any point.
 *
 * Workers are not named. What a worker carries between two of its steps is a document it read earlier
 * or a write it won; the machine keeps every document ever read and every win not yet used, so any
 * worker may act on any of them at any later time, or never.
 */
module Interleavings {
  import opened Basics
  import opened AgentMachine
  import opened CallMachine
  import opened Documents
  import opened Store
  import opened Handlers

  datatype Fine = Fine(
    w: World,
    agentsRead: set<(AgentId, Agent)>,
    borrowersRead: set<(BorrowerId, Borrower)>,
    callsRead: set<(CallKey, Call)>,
    granted: set<CallKey>,
    originated: seq<CallKey>,
    firstAttempt: map<BorrowerId, Time>)

  datatype Op =
    | ReadAgent(ra: AgentId)
    | ReadBorrower(rb: BorrowerId)
    | ReadCall(rk: CallKey)
    | Claim(claimIn: CampaignId, claimed: AgentId, claimer: WorkerId)
    | Hold(holdIn: CampaignId, heldB: BorrowerId, holder: WorkerId)
    | Create(newKey: CallKey, provider: ProviderId, creator: WorkerId, asRead: Borrower)
    | Promote(promoted: CallKey, promotion: CallState)
    | Originate(dialed: CallKey)
    | AttachId(attached: CallKey, providerId: ProviderCallId)
    | EndCall(ended: CallKey, ending: CallState)
    | CompleteStale(stale: CallKey, staleRead: Call)
    | MoveByEvent(moved: CallKey, callRead: Call, target: CallState)
    | Note(event: EventId)
    | LetAgentGo(letGo: AgentId, fromWorker: WorkerId, to: AgentState, who: Actor)
    | MoveAgentTo(mover: AgentId, agentRead: Agent, dest: AgentState, actor: Actor)
    | Bind(bound: AgentId, binder: WorkerId, toCall: CallKey)
    | ReclaimLease(lapsed: AgentId, lapsedRead: Agent, sweepTime: Time)
    | LetBorrowerGo(freed: BorrowerId, holderOf: WorkerId, outcome: ReleaseOutcome)
    | ReclaimHold(overdue: BorrowerId, overdueRead: Borrower, holdTime: Time)
    | Ping(pinged: AgentId)

  /** The releases the code asks for. */
  predicate ReleaseAsked(to: AgentState, who: Actor) {
    || (to == AgentState.Available && (who == Allocator || who == EventProcessor || who == Recovery))
    || (to == AgentState.WrapUp && who == EventProcessor)
  }

  /** What a worker must have read or won before it takes the step. */
  predicate Enabled(s: Settings, f: Fine, op: Op) {
    match op
    case Create(key, _, _, read) =>
      // the pair was reserved: the agent in this campaign, the borrower read as held
      && key.agent in f.w.agents && f.w.agents[key.agent].campaign == key.campaign
      && (key.borrower, read) in f.borrowersRead && read.status == BorrowerStatus.Reserved
      && key.attempt == read.attemptCount + 1
    case Promote(_, to) => to == CallState.Reserved || to == CallState.Initiated
    case Originate(key) => key in f.granted
    case AttachId(key, _) => key in f.originated
    case EndCall(_, to) => to == CallState.Failed || to == CallState.Cancelled
    case CompleteStale(key, read) => (key, read) in f.callsRead && read.providerCallId.Some?
    case MoveByEvent(key, read, target) =>
      && (key, read) in f.callsRead && read.providerCallId.Some?
      && Rank(target) >= 3 && ShouldApplyEvent(read.state, target) == Apply
    case LetAgentGo(_, _, to, who) => ReleaseAsked(to, who)
    case MoveAgentTo(id, read, to, _) =>
      // RESERVED and WRAP_UP are only ever entered by a claim and by a release
      (id, read) in f.agentsRead && to != AgentState.Reserved && to != AgentState.WrapUp
    case ReclaimLease(id, read, now) => (id, read) in f.agentsRead && AgentLeaseExpired(read, now)
    case ReclaimHold(id, read, now) => (id, read) in f.borrowersRead && BorrowerLeaseExpired(read, now)
    case _ => true
  }

  function Learn<K(==), V(==)>(known: set<(K, V)>, k: K, v: Option<V>): set<(K, V)> {
    if v.Some? then known + {(k, v.value)} else known
  }

  function NoteAttempt(f: Fine, id: BorrowerId, after: Option<Borrower>, now: Time): map<BorrowerId, Time> {
    if after.Some? && after.value.attemptCount == 1 && id in f.w.borrowers && f.w.borrowers[id].attemptCount == 0
    then f.firstAttempt[id := now] else f.firstAttempt
  }

  function Take(s: Settings, f: Fine, op: Op): Fine {
    match op
    case ReadAgent(id) =>
      if id in f.w.agents then f.(agentsRead := f.agentsRead + {(id, f.w.agents[id])}) else f
    case ReadBorrower(id) =>
      if id in f.w.borrowers then f.(borrowersRead := f.borrowersRead + {(id, f.w.borrowers[id])}) else f
    case ReadCall(key) =>
      if key in f.w.calls then f.(callsRead := f.callsRead + {(key, f.w.calls[key])}) else f
    case Claim(campaign, id, worker) =>
      var (w, r) := TryReserveAgent(f.w, campaign, id, worker, s.ttl);
      f.(w := w, agentsRead := Learn(f.agentsRead, id, r))
    case Hold(campaign, id, worker) =>
      var (w, r) := TryReserveBorrower(f.w, campaign, id, worker, s.ttl);
      f.(w := w, borrowersRead := Learn(f.borrowersRead, id, r))
    case Create(key, provider, worker, _) =>
      var (w, c) := CreateCall(f.w, key, provider, worker);
      f.(w := w, callsRead := f.callsRead + {(key, c)})
    case Promote(key, to) =>
      var (w, r) := TryTransitionCall(f.w, key, to);
      f.(w := w, granted := if r.Some? && to == CallState.Initiated then f.granted + {key} else f.granted)
    case Originate(key) =>
      f.(granted := f.granted - {key}, originated := f.originated + [key])
    case AttachId(key, id) => f.(w := TryAttach(f.w, key, id).0)
    case EndCall(key, to) => f.(w := TryTransitionCall(f.w, key, to).0)
    case CompleteStale(key, _) => f.(w := TryTransitionCall(f.w, key, CallState.Completed).0)
    case MoveByEvent(key, _, target) => f.(w := TryTransitionCall(f.w, key, target).0)
    case Note(id) => f.(w := RecordEvent(f.w, id).0)
    case LetAgentGo(id, worker, to, who) => f.(w := TryReleaseAgent(f.w, id, worker, to, who).0)
    case MoveAgentTo(id, read, to, who) => f.(w := TryTransitionAgent(f.w, id, read.state, to, who, read.version).0)
    case Bind(id, worker, key) => f.(w := TryBindCall(f.w, id, worker, key).0)
    case ReclaimLease(id, read, now) => f.(w := TryReclaimAgent(f.w, id, read, now).0)
    case LetBorrowerGo(id, worker, outcome) =>
      var (w, r) := TryReleaseBorrower(s, f.w, id, worker, outcome);
      f.(w := w, firstAttempt := NoteAttempt(f, id, r, w.now))
    case ReclaimHold(id, read, now) => f.(w := TryReclaimBorrower(f.w, id, read, now).0)
    case Ping(id) => f.(w := Heartbeat(f.w, id))
  }

  /** Time passes, then one step is taken; what it writes is dated by a reading of the clock made `lag` earlier. */
  datatype Step = Step(elapsed: nat, lag: nat, op: Op)

  function Dated(f: Fine, t: Time): Fine {
    f.(w := f.w.(now := t, delays := []))
  }

  function Stamp(f: Fine, step: Step): Time {
    f.w.now + step.elapsed - step.lag
  }

  function Next(s: Settings, f: Fine, step: Step): Fine {
    Dated(Take(s, Dated(f, Stamp(f, step)), step.op), f.w.now + step.elapsed)
  }

  /** A sweep has begun before it reclaims anything. */
  predicate SweepBegun(op: Op, now: Time) {
    match op
    case ReclaimLease(_, _, sweepTime) => sweepTime <= now
    case ReclaimHold(_, _, holdTime) => holdTime <= now
    case _ => true
  }

  predicate CanTake(s: Settings, f: Fine, step: Step) {
    Enabled(s, f, step.op) && SweepBegun(step.op, f.w.now + step.elapsed)
  }

  predicate Possible(s: Settings, f: Fine, steps: seq<Step>)
    decreases |steps|
  {
    steps != [] ==> CanTake(s, f, steps[0]) && Possible(s, Next(s, f, steps[0]), steps[1..])
  }

  function After(s: Settings, f: Fine, steps: seq<Step>): Fine
    decreases |steps|
  {
    if steps == [] then f else After(s, Next(s, f, steps[0]), steps[1..])
  }

  /** A seeded database that nobody has read yet. */
  predicate Fresh(s: Settings, f: Fine) {
    && f.w.calls == map[] && f.w.index == map[]
    && s.maxAttempts >= 1
    && (forall id :: id in f.w.agents ==> f.w.agents[id].state == AgentState.Offline && f.w.agents[id].lease.None?)
    && (forall b :: b in f.w.borrowers ==>
          var x := f.w.borrowers[b];
          x.status == BorrowerStatus.Pending && x.lease.None? && x.attemptCount == 0)
    && f.agentsRead == {} && f.borrowersRead == {} && f.callsRead == {} && f.granted == {} && f.originated == []
    && f.firstAttempt == map[]
  }

  /** Some interleaving reaches this state. */
  ghost predicate Reached(s: Settings, f: Fine) {
    exists f0, steps :: Fresh(s, f0) && Possible(s, f0, steps) && f == After(s, f0, steps)
  }

  lemma FirstStep(s: Settings, f: Fine, steps: seq<Step>, g: Fine)
    requires steps != [] && g == Next(s, f, steps[0])
    ensures Possible(s, f, steps) <==> CanTake(s, f, steps[0]) && Possible(s, g, steps[1..])
    ensures After(s, f, steps) == After(s, g, steps[1..])
  {
  }

  lemma {:induction false} JoinRuns(s: Settings, f: Fine, first: seq<Step>, second: seq<Step>, g: Fine)
    requires Possible(s, f, first) && g == After(s, f, first) && Possible(s, g, second)
    ensures Possible(s, f, first + second) && After(s, f, first + second) == After(s, g, second)
    decreases |first|
  {
    if first == [] {
      assert first + second == second;
    } else {
      var h, all := Next(s, f, first[0]), first + second;
      assert all[0] == first[0] && all[1..] == first[1..] + second;
      FirstStep(s, f, first, h);
      FirstStep(s, f, all, h);
      JoinRuns(s, h, first[1..], second, g);
    }
  }

  lemma ReachedNext(s: Settings, f: Fine, step: Step)
    requires Reached(s, f) && CanTake(s, f, step)
    ensures Reached(s, Next(s, f, step))
  {
    var f0, steps :| Fresh(s, f0) && Possible(s, f0, steps) && f == After(s, f0, steps);
    var g := Next(s, f, step);
    assert [step][1..] == [] && After(s, g, []) == g && Possible(s, g, []);
    assert Possible(s, f, [step]) && After(s, f, [step]) == g;
    JoinRuns(s, f0, steps, [step], f);
  }

  // ---------- dating ----------

  /** A borrower is let go of with a clock reading no earlier than the one that dates the hold this ends. */
  predicate DatedInOrder(f: Fine, step: Step) {
    match step.op
    case LetBorrowerGo(id, _, _) =>
      id in f.w.borrowers && f.w.borrowers[id].lease.Some? ==>
        f.w.borrowers[id].lease.value.reservedAt <= Stamp(f, step)
    case _ => true
  }

  predicate AllDatedInOrder(s: Settings, f: Fine, steps: seq<Step>)
    decreases |steps|
  {
    steps != [] ==> DatedInOrder(f, steps[0]) && AllDatedInOrder(s, Next(s, f, steps[0]), steps[1..])
  }

  /** Some interleaving reaches this state in which no hold is ended with a reading older than the hold. */
  ghost predicate ReachedInOrder(s: Settings, f: Fine) {
    exists f0, steps ::
      Fresh(s, f0) && Possible(s, f0, steps) && AllDatedInOrder(s, f0, steps) && f == After(s, f0, steps)
  }

  predicate SameParties(f: Fine, f': Fine) {
    && f'.w.agents.Keys == f.w.agents.Keys && f'.w.borrowers.Keys == f.w.borrowers.Keys
    && (forall x :: x in f.w.agents ==> f'.w.agents[x].campaign == f.w.agents[x].campaign)
  }
}
