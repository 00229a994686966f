/** The handlers that run over the store: reservation, dialing, event processing, recovery, agent actions. */
module Handlers {
  import opened Basics
  import opened AgentMachine
  import opened CallMachine
  import opened Documents
  import opened Store

  // ---------- reservation ----------

  const CLAIM_WINDOW: nat := 3

  datatype Pair = Pair(
    campaign: CampaignId,
    worker: WorkerId,
    agentId: AgentId,
    agent: Agent,
    borrowerId: BorrowerId,
    borrower: Borrower)
  {
    function Key(): CallKey {
      CallKey(campaign, agentId, borrowerId, borrower.attemptCount + 1)
    }
  }

  function ClaimAgent(
    s: Settings, w: World, campaign: CampaignId, worker: WorkerId, candidates: seq<AgentId>
  ): (World, Option<(AgentId, Agent)>)
    decreases |candidates|
  {
    if candidates == [] then (w, None)
    else
      var (t, r) := TryReserveAgent(w, campaign, candidates[0], worker, s.ttl);
      if r.Some? then (t, Some((candidates[0], r.value))) else ClaimAgent(s, t, campaign, worker, candidates[1..])
  }

  function ClaimBorrower(
    s: Settings, w: World, campaign: CampaignId, worker: WorkerId, candidates: seq<BorrowerId>
  ): (World, Option<(BorrowerId, Borrower)>)
    decreases |candidates|
  {
    if candidates == [] then (w, None)
    else
      var (t, r) := TryReserveBorrower(w, campaign, candidates[0], worker, s.ttl);
      if r.Some? then (t, Some((candidates[0], r.value))) else ClaimBorrower(s, t, campaign, worker, candidates[1..])
  }

  /** Agent first, then borrower; an agent without a borrower is given back. */
  function ReservePair(
    s: Settings, w: World, campaign: CampaignId, worker: WorkerId,
    agentOrder: seq<AgentId>, borrowerOrder: seq<BorrowerId>
  ): (World, Option<Pair>) {
    var (w1, a) := ClaimAgent(s, w, campaign, worker, Pick(AvailableAgents(w, campaign), agentOrder, CLAIM_WINDOW));
    if a.None? then (w1, None)
    else
      var w2 := Tick(w1);
      var (w3, b) :=
        ClaimBorrower(s, w2, campaign, worker, Pick(ClaimableBorrowers(w2, campaign), borrowerOrder, CLAIM_WINDOW));
      if b.None? then (TryReleaseAgent(w3, a.value.0, worker, AgentState.Available, Allocator).0, None)
      else (w3, Some(Pair(campaign, worker, a.value.0, a.value.1, b.value.0, b.value.1)))
  }

  function ReleasePair(s: Settings, w: World, pair: Pair, outcome: ReleaseOutcome): World {
    var w1 := TryReleaseAgent(w, pair.agentId, pair.worker, AgentState.Available, Allocator).0;
    TryReleaseBorrower(s, w1, pair.borrowerId, pair.worker, outcome).0
  }

  /** The compensation for a cancelled dial: both reservations are released, the call is left as it is. */
  function CompensateCancelledDial(s: Settings, w: World, pair: Pair): World {
    ReleasePair(s, w, pair, Released)
  }

  // ---------- dialing ----------

  datatype Reply = Accepted(id: ProviderCallId) | Rejected | TimedOut

  predicate ShouldRetry(s: Settings, b: Borrower, now: Time, healthy: bool) {
    b.attemptCount < s.maxAttempts && b.nextEligibleAt <= now && healthy
  }

  /** Create the call and win the single write that makes it INITIATED. */
  function PlaceCall(w: World, pair: Pair, provider: ProviderId): (World, bool) {
    var (w1, call) := CreateCall(w, pair.Key(), provider, pair.worker);
    if call.state != CallState.Queued then (w1, false)
    else
      var w2 := TryTransitionCall(w1, pair.Key(), CallState.Reserved).0;
      var (w3, initiated) := TryTransitionCall(w2, pair.Key(), CallState.Initiated);
      (w3, initiated.Some?)
  }

  function StartDialing(w: World, pair: Pair): World {
    var w1 := TryTransitionAgent(w, pair.agentId, AgentState.Reserved, AgentState.Dialing, Allocator,
                                 pair.agent.version).0;
    TryBindCall(w1, pair.agentId, pair.worker, pair.Key()).0
  }

  function FailDial(s: Settings, w: World, pair: Pair): World {
    ReleasePair(s, TryTransitionCall(w, pair.Key(), CallState.Failed).0, pair, Retry)
  }

  function FinishDial(s: Settings, w: World, pair: Pair, reply: Reply): (World, bool) {
    if !reply.Accepted? then (FailDial(s, w, pair), false)
    else
      var (w1, attached) := TryAttach(w, pair.Key(), reply.id);
      if attached.Some? then (w1, true) else (FailDial(s, w1, pair), false)
  }

  /** Past the retry gate: the call is placed, the agent put on it and the provider asked, or both are given back. */
  function PlaceAndAsk(s: Settings, w: World, pair: Pair, provider: ProviderId, reply: Reply): (World, bool) {
    var (w1, placed) := PlaceCall(w, pair, provider);
    if !placed then (ReleasePair(s, w1, pair, Released), false)
    else FinishDial(s, StartDialing(w1, pair), pair, reply)
  }

  function Dial(s: Settings, w: World, pair: Pair, provider: ProviderId, healthy: bool, reply: Reply): (World, bool) {
    var t := if pair.borrower.attemptCount > 0 then Tick(w) else w;
    if pair.borrower.attemptCount > 0 && !ShouldRetry(s, pair.borrower, t.now, healthy) then
      (ReleasePair(s, t, pair, Released), false)
    else PlaceAndAsk(s, t, pair, provider, reply)
  }

  // ---------- allocation ----------

  const MAX_CONSECUTIVE_CONTENTIONS: nat := 3

  /** What the environment decides during one attempt of the allocator loop. */
  datatype DialInput = DialInput(
    agentOrder: seq<AgentId>, borrowerOrder: seq<BorrowerId>, healthy: bool, reply: Reply)

  datatype Attempt = ContendedAttempt | FailedAttempt | AllocatedAttempt

  function AttemptDial(
    s: Settings, w: World, campaign: CampaignId, provider: ProviderId, worker: WorkerId, input: DialInput
  ): (World, Attempt) {
    var (w1, pair) := ReservePair(s, w, campaign, worker, input.agentOrder, input.borrowerOrder);
    if pair.None? then (w1, ContendedAttempt)
    else
      var (w2, dialled) := Dial(s, w1, pair.value, provider, input.healthy, input.reply);
      (w2, if dialled then AllocatedAttempt else FailedAttempt)
  }

  datatype Tally = Tally(attempted: nat, placed: nat, failed: nat, contended: nat)

  function Count(t: Tally, a: Attempt): Tally {
    match a
    case ContendedAttempt => t.(attempted := t.attempted + 1, contended := t.contended + 1)
    case FailedAttempt => t.(attempted := t.attempted + 1, failed := t.failed + 1)
    case AllocatedAttempt => t.(attempted := t.attempted + 1, placed := t.placed + 1)
  }

  /** The allocator loop from a given point: `contentions` is the current run of contentions. */
  function AllocateFrom(
    s: Settings, w: World, campaign: CampaignId, provider: ProviderId, worker: WorkerId,
    inputs: seq<DialInput>, contentions: nat, tally: Tally
  ): (World, Tally)
    decreases |inputs|
  {
    if inputs == [] then (w, tally)
    else
      var (w1, a) := AttemptDial(s, w, campaign, provider, worker, inputs[0]);
      var run := if a.ContendedAttempt? then contentions + 1 else 0;
      if run >= MAX_CONSECUTIVE_CONTENTIONS then (w1, Count(tally, a))
      else AllocateFrom(s, w1, campaign, provider, worker, inputs[1..], run, Count(tally, a))
  }

  /** One input for each approved call; a negative approval is an empty range. */
  function Allocate(
    s: Settings, w: World, campaign: CampaignId, provider: ProviderId, worker: WorkerId, inputs: seq<DialInput>
  ): (World, Tally) {
    AllocateFrom(s, w, campaign, provider, worker, inputs, 0, Tally(0, 0, 0, 0))
  }

  // ---------- provider events ----------

  datatype EventType = RingingEvent | AnsweredEvent | ConnectedEvent | CompletedEvent | FailedEvent | CancelledEvent
                     | OtherEvent

  datatype Event = Event(id: EventId, call: ProviderCallId, kind: EventType)
  {
    function Ref(): ProviderRef {
      ProviderRef(id.provider, call)
    }
  }

  datatype EventStatus = Processed | DuplicateIgnored | StaleIgnored | InvalidIgnored

  function EventTarget(kind: EventType): (target: Option<CallState>)
    ensures target.Some? ==> Rank(target.value) >= 3
  {
    match kind
    case RingingEvent => Some(CallState.Ringing)
    case AnsweredEvent => Some(CallState.Answered)
    case ConnectedEvent => Some(CallState.Connected)
    case CompletedEvent => Some(CallState.Completed)
    case FailedEvent => Some(CallState.Failed)
    case CancelledEvent => Some(CallState.Cancelled)
    case OtherEvent => None
  }

  function ApplyAgentTransition(w: World, key: CallKey, call: Call, target: CallState): World
    requires Rank(target) >= 2
  {
    var to := AgentStateFor(target);
    if key.agent !in w.agents || w.agents[key.agent].state == to then w
    else if IsTerminal(target) then TryReleaseAgent(w, key.agent, call.worker, to, EventProcessor).0
    else
      var read := w.agents[key.agent];
      TryTransitionAgent(w, key.agent, read.state, to, EventProcessor, read.version).0
  }

  function OutcomeForTerminalCall(answered: bool): ReleaseOutcome {
    if answered then ContactMade else Retry
  }

  function ReleaseBorrowerAfterEvent(s: Settings, w: World, key: CallKey, call: Call, target: CallState): World {
    var answered := target == CallState.Completed && call.answeredAt.Some?;
    TryReleaseBorrower(s, w, key.borrower, call.worker, OutcomeForTerminalCall(answered)).0
  }

  function ApplyEvent(s: Settings, w: World, e: Event): (World, EventStatus) {
    if e.Ref() !in w.index || w.index[e.Ref()] !in w.calls then (w, InvalidIgnored)
    else
      var key := w.index[e.Ref()];
      var target := EventTarget(e.kind);
      if target.None? then (w, InvalidIgnored)
      else match ShouldApplyEvent(w.calls[key].state, target.value)
        case IgnoreTerminal => (w, StaleIgnored)
        case IgnoreStale => (w, StaleIgnored)
        case IgnoreInvalid => (w, InvalidIgnored)
        case Apply =>
          var (w1, updated) := TryTransitionCall(w, key, target.value);
          if updated.None? then (w1, StaleIgnored)
          else
            var w2 := ApplyAgentTransition(w1, key, updated.value, target.value);
            (if IsTerminal(target.value) then ReleaseBorrowerAfterEvent(s, w2, key, updated.value, target.value)
             else w2,
             Processed)
  }

  function ProcessEvent(s: Settings, w: World, e: Event): (World, EventStatus) {
    var (w1, recorded) := RecordEvent(w, e.id);
    if !recorded then (w1, DuplicateIgnored) else ApplyEvent(s, w1, e)
  }

  // ---------- recovery ----------

  datatype ProviderStatus = ActiveStatus | CompletedStatus | FailedStatus | UnknownStatus

  /** The orders in which the five queries list their matches, and what the provider says of each call. */
  datatype SweepInput = SweepInput(
    expired: seq<AgentId>,
    borrowers: seq<BorrowerId>,
    calls: seq<CallKey>,
    silent: seq<AgentId>,
    wrapUps: seq<AgentId>,
    reports: map<CallKey, ProviderStatus>)

  datatype Counts = Counts(agents: nat, borrowers: nat, calls: nat, silent: nat, wrapUps: nat)

  function ReleaseCallBorrower(s: Settings, w: World, key: CallKey, call: Call): World {
    TryReleaseBorrower(s, w, key.borrower, call.worker, OutcomeForTerminalCall(false)).0
  }

  function CancelBoundCall(s: Settings, w: World, read: Agent): World {
    if read.currentCall.None? then w
    else
      var key := read.currentCall.value;
      if key !in w.calls || w.calls[key].terminal then w
      else
        var (w1, cancelled) := TryTransitionCall(w, key, CallState.Cancelled);
        if cancelled.None? then w1 else ReleaseCallBorrower(s, w1, key, cancelled.value)
  }

  function RecoverAgent(s: Settings, w: World, id: AgentId, read: Agent, now: Time): (World, bool) {
    var (w1, released) := TryReclaimAgent(CancelBoundCall(s, w, read), id, read, now);
    (w1, released.Some?)
  }

  function AgentSweep(
    s: Settings, w: World, ids: seq<AgentId>, read: map<AgentId, Agent>, now: Time, done: nat
  ): (World, nat)
    requires forall x :: x in ids ==> x in read
    decreases |ids|
  {
    if ids == [] then (w, done)
    else
      var (w1, ok) := RecoverAgent(s, w, ids[0], read[ids[0]], now);
      AgentSweep(s, w1, ids[1..], read, now, if ok then done + 1 else done)
  }

  function BorrowerSweep(
    w: World, ids: seq<BorrowerId>, read: map<BorrowerId, Borrower>, now: Time, done: nat
  ): (World, nat)
    requires forall x :: x in ids ==> x in read
    decreases |ids|
  {
    if ids == [] then (w, done)
    else
      var (w1, r) := TryReclaimBorrower(w, ids[0], read[ids[0]], now);
      BorrowerSweep(w1, ids[1..], read, now, if r.Some? then done + 1 else done)
  }

  /** A call the provider never acknowledged, or cannot be asked about, counts as failed. */
  function Reconcile(call: Call, key: CallKey, reports: map<CallKey, ProviderStatus>): CallState {
    if call.providerCallId.None? || key !in reports then CallState.Failed
    else if reports[key] == CompletedStatus then CallState.Completed
    else CallState.Failed
  }

  function ReleaseParties(s: Settings, w: World, key: CallKey, call: Call): World {
    ReleaseCallBorrower(s, TryReleaseAgent(w, key.agent, call.worker, AgentState.Available, Recovery).0, key, call)
  }

  function RecoverCall(
    s: Settings, w: World, key: CallKey, read: Call, reports: map<CallKey, ProviderStatus>
  ): (World, bool) {
    var (w1, finished) := TryTransitionCall(w, key, Reconcile(read, key, reports));
    if finished.None? then (w1, false) else (ReleaseParties(s, w1, key, finished.value), true)
  }

  function CallSweep(
    s: Settings, w: World, keys: seq<CallKey>, read: map<CallKey, Call>, reports: map<CallKey, ProviderStatus>,
    done: nat
  ): (World, nat)
    requires forall x :: x in keys ==> x in read
    decreases |keys|
  {
    if keys == [] then (w, done)
    else
      var (w1, ok) := RecoverCall(s, w, keys[0], read[keys[0]], reports);
      CallSweep(s, w1, keys[1..], read, reports, if ok then done + 1 else done)
  }

  function LogOutSilent(s: Settings, w: World, id: AgentId, read: Agent): (World, bool) {
    var (w1, r) :=
      TryTransitionAgent(CancelBoundCall(s, w, read), id, read.state, AgentState.Offline, Recovery, read.version);
    (w1, r.Moved?)
  }

  function HeartbeatSweep(
    s: Settings, w: World, ids: seq<AgentId>, read: map<AgentId, Agent>, done: nat
  ): (World, nat)
    requires forall x :: x in ids ==> x in read
    decreases |ids|
  {
    if ids == [] then (w, done)
    else
      var (w1, ok) := LogOutSilent(s, w, ids[0], read[ids[0]]);
      HeartbeatSweep(s, w1, ids[1..], read, if ok then done + 1 else done)
  }

  function FinishWrapUp(w: World, id: AgentId, read: Agent, actor: Actor): (World, bool) {
    var (w1, r) := TryTransitionAgent(w, id, AgentState.WrapUp, AgentState.Available, actor, read.version);
    (w1, r.Moved?)
  }

  function WrapUpSweep(
    w: World, ids: seq<AgentId>, read: map<AgentId, Agent>, actor: Actor, done: nat
  ): (World, nat)
    requires forall x :: x in ids ==> x in read
    decreases |ids|
  {
    if ids == [] then (w, done)
    else
      var (w1, ok) := FinishWrapUp(w, ids[0], read[ids[0]], actor);
      WrapUpSweep(w1, ids[1..], read, actor, if ok then done + 1 else done)
  }

  /** A stuck wrap-up is given twice its length again before it is swept. */
  function StuckWrapUpAge(s: Settings): int {
    s.wrapUp + s.wrapUp * 2
  }

  // The five sweeps, each on the store the one before it left, all at one shared time.

  function SweepExpiredAgents(s: Settings, w: World, now: Time, input: SweepInput): (World, nat) {
    AgentSweep(s, w, Pick(ExpiredAgents(w, now), input.expired, s.sweepLimit), w.agents, now, 0)
  }

  function SweepExpiredBorrowers(s: Settings, w: World, now: Time, input: SweepInput): (World, nat) {
    BorrowerSweep(w, Pick(ExpiredBorrowers(w, now), input.borrowers, s.sweepLimit), w.borrowers, now, 0)
  }

  function SweepStaleCalls(s: Settings, w: World, now: Time, input: SweepInput): (World, nat) {
    CallSweep(s, w, Pick(StaleCalls(w, now - s.staleTimeout), input.calls, s.sweepLimit), w.calls, input.reports, 0)
  }

  function SweepSilentAgents(s: Settings, w: World, now: Time, input: SweepInput): (World, nat) {
    HeartbeatSweep(s, w, Pick(SilentAgents(w, now - s.heartbeatTimeout), input.silent, s.sweepLimit), w.agents, 0)
  }

  function SweepStuckWrapUps(s: Settings, w: World, now: Time, input: SweepInput): (World, nat) {
    WrapUpSweep(w, Pick(FinishedWrapUps(w, now - StuckWrapUpAge(s)), input.wrapUps, s.sweepLimit), w.agents, Recovery,
                0)
  }

  function SweepsAt(s: Settings, w: World, now: Time, input: SweepInput): (World, Counts) {
    var (w1, agents) := SweepExpiredAgents(s, w, now, input);
    var (w2, borrowers) := SweepExpiredBorrowers(s, w1, now, input);
    var (w3, calls) := SweepStaleCalls(s, w2, now, input);
    var (w4, silent) := SweepSilentAgents(s, w3, now, input);
    var (w5, wrapUps) := SweepStuckWrapUps(s, w4, now, input);
    (w5, Counts(agents, borrowers, calls, silent, wrapUps))
  }

  function RunSweeps(s: Settings, w: World, input: SweepInput): (World, Counts) {
    var t := Tick(w);
    SweepsAt(s, t, t.now, input)
  }

  // ---------- timers and agents ----------

  const WRAP_UP_SWEEP_LIMIT: nat := 500

  function ReleaseFinishedWrapUps(s: Settings, w: World, campaign: CampaignId, order: seq<AgentId>): World {
    var t := Tick(w);
    var finished := set id | id in FinishedWrapUps(t, t.now - s.wrapUp) && t.agents[id].campaign == campaign;
    WrapUpSweep(t, Pick(finished, order, WRAP_UP_SWEEP_LIMIT), t.agents, WorkerTimer, 0).0
  }

  datatype AgentAction = Login | Logout | Pause | Resume

  function ActionTarget(action: AgentAction): AgentState {
    match action
    case Login => AgentState.Available
    case Logout => AgentState.Offline
    case Pause => AgentState.Paused
    case Resume => AgentState.Available
  }

  function Act(w: World, id: AgentId, action: AgentAction): (World, TransitionResult) {
    if id !in w.agents then (w, Missed)
    else
      var read := w.agents[id];
      var (w1, r) := TryTransitionAgent(w, id, read.state, ActionTarget(action), Self, read.version);
      (if action.Login? && r.Moved? then Heartbeat(w1, id) else w1, r)
  }
}
