/** The stored documents, and the conditional update each repository method makes to one of them. */
module Documents {
  import opened Basics
  import opened AgentMachine
  import opened CallMachine

  type AgentId = nat
  type BorrowerId = nat
  type CampaignId = nat
  type WorkerId = nat
  type ProviderId = nat
  type ProviderCallId = nat
  /** Milliseconds. */
  type Time = int

  /** `reserved_by`, `reserved_at` and `lease_expires_at`, which are always set and cleared together. */
  datatype Lease = Lease(worker: WorkerId, reservedAt: Time, expiresAt: Time)

  /** The idempotency key; the unique index on it makes it a name for the call document. */
  datatype CallKey = CallKey(campaign: CampaignId, agent: AgentId, borrower: BorrowerId, attempt: nat)

  datatype Agent = Agent(
    campaign: CampaignId,
    state: AgentState,
    version: nat,
    lease: Option<Lease>,
    currentCall: Option<CallKey>,
    lastHeartbeat: Option<Time>,
    stateChangedAt: Time,
    busyMs: nat,
    availableMs: nat,
    connectedMs: nat,
    wrapUpMs: nat,
    createdAt: Time)

  datatype BorrowerStatus = Pending | Reserved | InCall | Contacted | Failed | Exhausted | Dnc

  datatype Borrower = Borrower(
    campaign: CampaignId,
    status: BorrowerStatus,
    version: nat,
    lease: Option<Lease>,
    attemptCount: nat,
    lastAttemptAt: Option<Time>,
    nextEligibleAt: Time)

  datatype Call = Call(
    provider: ProviderId,
    state: CallState,
    rank: nat,
    terminal: bool,
    providerCallId: Option<ProviderCallId>,
    worker: WorkerId,
    createdAt: Time,
    initiatedAt: Option<Time>,
    ringingAt: Option<Time>,
    answeredAt: Option<Time>,
    connectedAt: Option<Time>,
    endedAt: Option<Time>,
    updatedAt: Time)

  datatype ReleaseOutcome = Released | Retry | ContactMade

  function NewLease(worker: WorkerId, ttl: Time, now: Time): Lease {
    Lease(worker, now, now + ttl)
  }

  predicate HeldBy(lease: Option<Lease>, worker: WorkerId) {
    lease.Some? && lease.value.worker == worker
  }

  predicate Expired(lease: Option<Lease>, now: Time) {
    lease.Some? && lease.value.expiresAt < now
  }

  // ---------- agents ----------

  /** Adds the time spent in the current state to the counters kept for that state. */
  function CloseInterval(a: Agent, now: Time): Agent {
    var elapsed: nat := Max(0, now - a.stateChangedAt);
    match a.state
    case Available => a.(availableMs := a.availableMs + elapsed)
    case Reserved => a.(busyMs := a.busyMs + elapsed)
    case Dialing => a.(busyMs := a.busyMs + elapsed)
    case Connected => a.(busyMs := a.busyMs + elapsed, connectedMs := a.connectedMs + elapsed)
    case WrapUp => a.(busyMs := a.busyMs + elapsed, wrapUpMs := a.wrapUpMs + elapsed)
    case Offline => a
    case Paused => a
  }

  function MoveAgent(a: Agent, to: AgentState, now: Time): Agent {
    a.(state := to, stateChangedAt := now, version := a.version + 1)
  }

  function ReserveAgent(a: Agent, campaign: CampaignId, worker: WorkerId, ttl: Time, now: Time): Option<Agent> {
    if a.campaign == campaign && a.state == AgentState.Available then
      Some(MoveAgent(a, AgentState.Reserved, now).(lease := Some(NewLease(worker, ttl, now))))
    else None
  }

  function ReleaseAgent(a: Agent, worker: WorkerId, to: AgentState, actor: Actor, now: Time): Option<Agent> {
    if HeldBy(a.lease, worker) && a.state in AllowedSources(to, actor) then
      Some(MoveAgent(CloseInterval(a, now), to, now).(currentCall := None, lease := None))
    else None
  }

  function TransitionAgent(a: Agent, from: AgentState, to: AgentState, version: nat, now: Time): Option<Agent> {
    if a.state == from && a.version == version then Some(MoveAgent(CloseInterval(a, now), to, now)) else None
  }

  function BindCall(a: Agent, worker: WorkerId, key: CallKey): Option<Agent> {
    if HeldBy(a.lease, worker) then Some(a.(currentCall := Some(key))) else None
  }

  /** The states a lease sweep looks at. */
  function Reclaimable(): set<AgentState> {
    AllowedSources(AgentState.Available, Recovery)
  }

  predicate AgentLeaseExpired(a: Agent, now: Time) {
    a.state in Reclaimable() && Expired(a.lease, now)
  }

  /** Unlike the other moves this one closes no interval. */
  function ReclaimAgent(a: Agent, read: Agent, now: Time): Option<Agent> {
    if a.state == read.state && a.version == read.version && Expired(a.lease, now) then
      Some(MoveAgent(a, AgentState.Available, now).(currentCall := None, lease := None))
    else None
  }

  predicate HeartbeatExpired(a: Agent, cutoff: Time) {
    a.state != AgentState.Offline && a.lastHeartbeat.Some? && a.lastHeartbeat.value < cutoff
  }

  predicate WrapUpFinished(a: Agent, cutoff: Time) {
    a.state == AgentState.WrapUp && a.stateChangedAt <= cutoff
  }

  // ---------- borrowers ----------

  predicate Claimable(b: Borrower, campaign: CampaignId, now: Time) {
    b.campaign == campaign && b.status == BorrowerStatus.Pending && b.nextEligibleAt <= now
  }

  function ReserveBorrower(
    b: Borrower, campaign: CampaignId, worker: WorkerId, ttl: Time, now: Time
  ): Option<Borrower> {
    if Claimable(b, campaign, now) then
      Some(b.(status := BorrowerStatus.Reserved, lease := Some(NewLease(worker, ttl, now)), version := b.version + 1))
    else None
  }

  predicate Releasable(s: BorrowerStatus) {
    s.Reserved? || s.InCall?
  }

  function Pow2(n: nat): nat {
    if n == 0 then 1 else 2 * Pow2(n - 1)
  }

  /** The wait after the k-th attempt. */
  function Backoff(base: nat, attempts: nat): nat
    requires attempts >= 1
  {
    base * Pow2(attempts - 1)
  }

  function AfterRetry(b: Borrower, maxAttempts: int, base: nat, now: Time): Borrower {
    var attempts := b.attemptCount + 1;
    b.(attemptCount := attempts,
       lastAttemptAt := Some(now),
       version := b.version + 1,
       lease := None,
       status := if attempts >= maxAttempts then BorrowerStatus.Exhausted else BorrowerStatus.Pending,
       nextEligibleAt := now + Backoff(base, attempts))
  }

  function ReleaseBorrower(
    b: Borrower, worker: WorkerId, outcome: ReleaseOutcome, maxAttempts: int, base: nat, now: Time
  ): Option<Borrower> {
    if !HeldBy(b.lease, worker) || !Releasable(b.status) then None
    else match outcome
      case Released =>
        Some(b.(status := BorrowerStatus.Pending, lease := None, version := b.version + 1))
      case ContactMade =>
        Some(b.(status := BorrowerStatus.Contacted, lastAttemptAt := Some(now), lease := None,
                version := b.version + 1, attemptCount := b.attemptCount + 1))
      case Retry =>
        Some(AfterRetry(b, maxAttempts, base, now))
  }

  predicate BorrowerLeaseExpired(b: Borrower, now: Time) {
    Releasable(b.status) && Expired(b.lease, now)
  }

  function ReclaimBorrower(b: Borrower, read: Borrower, now: Time): Option<Borrower> {
    if b.status == read.status && b.version == read.version && Expired(b.lease, now) then
      Some(b.(status := BorrowerStatus.Pending, nextEligibleAt := now, lease := None, version := b.version + 1))
    else None
  }

  // ---------- calls ----------

  function NewCall(provider: ProviderId, worker: WorkerId, now: Time): Call {
    Call(provider, CallState.Queued, 0, false, None, worker, now, None, None, None, None, None, now)
  }

  function MoveCall(c: Call, to: CallState, now: Time): Option<Call> {
    if !c.terminal && c.rank < Rank(to) then
      Some(c.(state := to, rank := Rank(to), terminal := IsTerminal(to), updatedAt := now,
              initiatedAt := if to == CallState.Initiated then Some(now) else c.initiatedAt,
              ringingAt := if to == CallState.Ringing then Some(now) else c.ringingAt,
              answeredAt := if to == CallState.Answered then Some(now) else c.answeredAt,
              connectedAt := if to == CallState.Connected then Some(now) else c.connectedAt,
              endedAt := if IsTerminal(to) then Some(now) else c.endedAt))
    else None
  }

  predicate Stale(c: Call, cutoff: Time) {
    !c.terminal && c.updatedAt < cutoff
  }

  /** The derived fields agree with the state, as the model validator makes them. */
  predicate CallConsistent(c: Call) {
    c.rank == Rank(c.state) && c.terminal == IsTerminal(c.state)
  }
}
