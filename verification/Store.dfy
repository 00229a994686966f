/**
 * The database as one value, and each repository method as one atomic step on it.
 * `delays` is the environment's script for the clock: every reading of the clock may find that
 * any amount of time has passed since the one before.
 */
module Store {
  import opened Basics
  import opened AgentMachine
  import opened CallMachine
  import opened Documents

  datatype Settings = Settings(
    ttl: nat,
    maxAttempts: int,
    backoffBase: nat,
    staleTimeout: int,
    heartbeatTimeout: int,
    wrapUp: int,
    sweepLimit: nat)

  datatype ProviderRef = ProviderRef(provider: ProviderId, id: ProviderCallId)
  datatype EventId = EventId(provider: ProviderId, id: nat)

  /** `index` is the unique index on (provider name, provider call id). */
  datatype World = World(
    agents: map<AgentId, Agent>,
    borrowers: map<BorrowerId, Borrower>,
    calls: map<CallKey, Call>,
    index: map<ProviderRef, CallKey>,
    events: set<EventId>,
    now: Time,
    delays: seq<nat>)

  /** One reading of the clock. */
  function Tick(w: World): World {
    if w.delays == [] then w else w.(now := w.now + w.delays[0], delays := w.delays[1..])
  }

  function PutAgent(w: World, id: AgentId, a: Option<Agent>): World {
    if a.Some? then w.(agents := w.agents[id := a.value]) else w
  }

  function PutBorrower(w: World, id: BorrowerId, b: Option<Borrower>): World {
    if b.Some? then w.(borrowers := w.borrowers[id := b.value]) else w
  }

  function PutCall(w: World, key: CallKey, c: Option<Call>): World {
    if c.Some? then w.(calls := w.calls[key := c.value]) else w
  }

  // ---------- agent repository ----------

  function TryReserveAgent(
    w: World, campaign: CampaignId, id: AgentId, worker: WorkerId, ttl: Time
  ): (World, Option<Agent>) {
    var t := Tick(w);
    var r := if id in t.agents then ReserveAgent(t.agents[id], campaign, worker, ttl, t.now) else None;
    (PutAgent(t, id, r), r)
  }

  function TryReleaseAgent(
    w: World, id: AgentId, worker: WorkerId, to: AgentState, actor: Actor
  ): (World, Option<Agent>) {
    var t := Tick(w);
    var r := if id in t.agents then ReleaseAgent(t.agents[id], worker, to, actor, t.now) else None;
    (PutAgent(t, id, r), r)
  }

  /** The move an unauthorised caller asks for raises before anything is read. */
  datatype TransitionResult = Unauthorised | Missed | Moved(agent: Agent)

  function TryTransitionAgent(
    w: World, id: AgentId, from: AgentState, to: AgentState, actor: Actor, version: nat
  ): (World, TransitionResult) {
    if !Authorised(from, to, actor) then (w, Unauthorised)
    else
      var t := Tick(w);
      var r := if id in t.agents then TransitionAgent(t.agents[id], from, to, version, t.now) else None;
      (PutAgent(t, id, r), if r.Some? then Moved(r.value) else Missed)
  }

  function TryBindCall(w: World, id: AgentId, worker: WorkerId, key: CallKey): (World, Option<Agent>) {
    var r := if id in w.agents then BindCall(w.agents[id], worker, key) else None;
    (PutAgent(w, id, r), r)
  }

  function TryReclaimAgent(w: World, id: AgentId, read: Agent, now: Time): (World, Option<Agent>) {
    var r := if id in w.agents then ReclaimAgent(w.agents[id], read, now) else None;
    (PutAgent(w, id, r), r)
  }

  function Heartbeat(w: World, id: AgentId): World {
    var t := Tick(w);
    if id in t.agents then t.(agents := t.agents[id := t.agents[id].(lastHeartbeat := Some(t.now))]) else t
  }

  // ---------- borrower repository ----------

  function TryReserveBorrower(
    w: World, campaign: CampaignId, id: BorrowerId, worker: WorkerId, ttl: Time
  ): (World, Option<Borrower>) {
    var t := Tick(w);
    var r := if id in t.borrowers then ReserveBorrower(t.borrowers[id], campaign, worker, ttl, t.now) else None;
    (PutBorrower(t, id, r), r)
  }

  function TryReleaseBorrower(
    s: Settings, w: World, id: BorrowerId, worker: WorkerId, outcome: ReleaseOutcome
  ): (World, Option<Borrower>) {
    var t := Tick(w);
    var r :=
      if id in t.borrowers then
        ReleaseBorrower(t.borrowers[id], worker, outcome, s.maxAttempts, s.backoffBase, t.now)
      else None;
    (PutBorrower(t, id, r), r)
  }

  function TryReclaimBorrower(w: World, id: BorrowerId, read: Borrower, now: Time): (World, Option<Borrower>) {
    var r := if id in w.borrowers then ReclaimBorrower(w.borrowers[id], read, now) else None;
    (PutBorrower(w, id, r), r)
  }

  // ---------- call repository ----------

  /** Inserts a queued call, or finds the one that already has this key. */
  function CreateCall(w: World, key: CallKey, provider: ProviderId, worker: WorkerId): (World, Call) {
    var t := Tick(w);
    if key in t.calls then (t, t.calls[key])
    else
      var c := NewCall(provider, worker, t.now);
      (t.(calls := t.calls[key := c]), c)
  }

  function TryTransitionCall(w: World, key: CallKey, to: CallState): (World, Option<Call>) {
    var t := Tick(w);
    var r := if key in t.calls then MoveCall(t.calls[key], to, t.now) else None;
    (PutCall(t, key, r), r)
  }

  /** Fails if the call already has an id, or if the unique index already has this one. */
  function TryAttach(w: World, key: CallKey, id: ProviderCallId): (World, Option<Call>) {
    var t := Tick(w);
    if key !in t.calls || t.calls[key].providerCallId.Some? then (t, None)
    else
      var ref := ProviderRef(t.calls[key].provider, id);
      if ref in t.index then (t, None)
      else
        var c := t.calls[key].(providerCallId := Some(id), updatedAt := t.now);
        (t.(calls := t.calls[key := c], index := t.index[ref := key]), Some(c))
  }

  // ---------- event repository ----------

  function RecordEvent(w: World, id: EventId): (World, bool) {
    if id in w.events then (w, false) else (w.(events := w.events + {id}), true)
  }

  // ---------- queries ----------

  function AvailableAgents(w: World, campaign: CampaignId): set<AgentId> {
    set id | id in w.agents && w.agents[id].campaign == campaign && w.agents[id].state == AgentState.Available
  }

  function ClaimableBorrowers(w: World, campaign: CampaignId): set<BorrowerId> {
    set id | id in w.borrowers && Claimable(w.borrowers[id], campaign, w.now)
  }

  function ExpiredAgents(w: World, now: Time): set<AgentId> {
    set id | id in w.agents && AgentLeaseExpired(w.agents[id], now)
  }

  function ExpiredBorrowers(w: World, now: Time): set<BorrowerId> {
    set id | id in w.borrowers && BorrowerLeaseExpired(w.borrowers[id], now)
  }

  function StaleCalls(w: World, cutoff: Time): set<CallKey> {
    set key | key in w.calls && Stale(w.calls[key], cutoff)
  }

  function SilentAgents(w: World, cutoff: Time): set<AgentId> {
    set id | id in w.agents && HeartbeatExpired(w.agents[id], cutoff)
  }

  function FinishedWrapUps(w: World, cutoff: Time): set<AgentId> {
    set id | id in w.agents && WrapUpFinished(w.agents[id], cutoff)
  }
}
