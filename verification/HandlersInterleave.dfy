/**
 * The two granularities describe one system: every run of handlers is one of the interleavings. Each
 * handler is replayed as a sequence of single steps on the fine machine, reading for reading and write
 * for write, so whatever holds of every interleaving holds of every run of handlers.
 */
module HandlersInterleave {
  import opened Basics
  import opened AgentMachine
  import opened CallMachine
  import opened Documents
  import opened Store
  import opened Handlers
  import opened Interleavings
  import opened Linking
  import opened HandlerRuns
  import opened SweepsKeepLinks
  import opened DialKeepsLinks
  import opened BorrowersInterleaved
  import opened InterleavingTheorems

  // ---------- replaying ----------

  /** The fine machine stands where the store stands; the clock's script is spent step by step instead. */
  predicate Mirrors(f: Fine, w: World) {
    f.w == w.(delays := [])
  }

  function Delay(w: World): nat {
    if w.delays == [] then 0 else w.delays[0]
  }

  predicate KeepsReads(f: Fine, f': Fine) {
    f.agentsRead <= f'.agentsRead && f.borrowersRead <= f'.borrowersRead && f.callsRead <= f'.callsRead
  }

  /** A set of states no possible step leaves, if it dates what it writes by the clock as it is then. */
  ghost predicate Closed(s: Settings, all: iset<Fine>) {
    forall f, step :: f in all && CanTake(s, f, step) && step.lag == 0 ==> Next(s, f, step) in all
  }

  ghost predicate At(all: iset<Fine>, f: Fine, w: World) {
    f in all && Mirrors(f, w)
  }

  /** The same store with its next delay already spent. */
  function Waited(w: World): World {
    w.(now := w.now + Delay(w), delays := [])
  }

  lemma MoveAfterWaiting(w: World, key: CallKey, to: CallState)
    ensures var (w', r) := TryTransitionCall(w, key, to);
            TryTransitionCall(Waited(w), key, to) == (w'.(delays := []), r) && w'.now == Waited(w).now
  {
  }

  /** The steps that move call `key` to `to`. */
  predicate MovesTo(op: Op, key: CallKey, to: CallState) {
    || op == Promote(key, to) || op == EndCall(key, to)
    || (op.CompleteStale? && op.stale == key && to == CallState.Completed)
    || (op.MoveByEvent? && op.moved == key && op.target == to)
  }

  lemma MoveTaken(s: Settings, f: Fine, op: Op, key: CallKey, to: CallState)
    requires MovesTo(op, key, to)
    ensures Take(s, f, op).w == TryTransitionCall(f.w, key, to).0 && KeepsReads(f, Take(s, f, op))
  {
  }

  lemma MoveMirrors(s: Settings, f: Fine, w: World, op: Op, key: CallKey, to: CallState, g: Fine)
    requires Mirrors(f, w) && MovesTo(op, key, to) && g == Next(s, f, Step(Delay(w), 0, op))
    ensures Mirrors(g, TryTransitionCall(w, key, to).0) && KeepsReads(f, g)
  {
    MoveAfterWaiting(w, key, to);
    MoveTaken(s, Dated(f, w.now + Delay(w)), op, key, to);
  }

  lemma TransitionAfterWaiting(w: World, id: AgentId, from: AgentState, to: AgentState, actor: Actor, version: nat)
    requires Authorised(from, to, actor)
    ensures var w' := TryTransitionAgent(w, id, from, to, actor, version).0;
            TryTransitionAgent(Waited(w), id, from, to, actor, version).0 == w'.(delays := [])
            && w'.now == Waited(w).now
  {
  }

  lemma AttachAfterWaiting(w: World, key: CallKey, id: ProviderCallId)
    ensures var (w', r) := TryAttach(w, key, id);
            TryAttach(Waited(w), key, id) == (w'.(delays := []), r) && w'.now == Waited(w).now
  {
  }

  // ---------- single writes ----------

  lemma ReplayTick(s: Settings, all: iset<Fine>, f: Fine, w: World) returns (g: Fine)
    requires Closed(s, all) && At(all, f, w)
    ensures At(all, g, Tick(w)) && KeepsReads(f, g)
  {
    g := Next(s, f, Step(Delay(w), 0, ReadBorrower(0)));
  }

  lemma ReplayReserveAgent(
    s: Settings, all: iset<Fine>, f: Fine, w: World, campaign: CampaignId, id: AgentId, worker: WorkerId
  )
    returns (g: Fine)
    requires Closed(s, all) && At(all, f, w)
    ensures var (w', r) := TryReserveAgent(w, campaign, id, worker, s.ttl);
            At(all, g, w') && KeepsReads(f, g) && (r.Some? ==> (id, r.value) in g.agentsRead)
  {
    var step := Step(Delay(w), 0, Claim(campaign, id, worker));
    g := Next(s, f, step);
  }

  lemma ReplayReleaseAgent(
    s: Settings, all: iset<Fine>, f: Fine, w: World, id: AgentId, worker: WorkerId, to: AgentState, actor: Actor
  )
    returns (g: Fine)
    requires Closed(s, all) && At(all, f, w) && ReleaseAsked(to, actor)
    ensures At(all, g, TryReleaseAgent(w, id, worker, to, actor).0) && KeepsReads(f, g)
  {
    var step := Step(Delay(w), 0, LetAgentGo(id, worker, to, actor));
    g := Next(s, f, step);
  }

  lemma TransitionTaken(s: Settings, f: Fine, id: AgentId, read: Agent, to: AgentState, actor: Actor)
    ensures var w' := TryTransitionAgent(f.w, id, read.state, to, actor, read.version).0;
            Take(s, f, MoveAgentTo(id, read, to, actor)) == f.(w := w')
  {
  }

  lemma ReplayTransition(
    s: Settings, all: iset<Fine>, f: Fine, w: World, id: AgentId, read: Agent, to: AgentState, actor: Actor
  ) returns (g: Fine)
    requires Closed(s, all) && At(all, f, w) && (id, read) in f.agentsRead
    requires to != AgentState.Reserved && to != AgentState.WrapUp
    ensures At(all, g, TryTransitionAgent(w, id, read.state, to, actor, read.version).0) && KeepsReads(f, g)
    ensures g.granted == f.granted
  {
    var elapsed := if Authorised(read.state, to, actor) then Delay(w) else 0;
    if Authorised(read.state, to, actor) { TransitionAfterWaiting(w, id, read.state, to, actor, read.version); }
    TransitionTaken(s, Dated(f, w.now + elapsed), id, read, to, actor);
    g := Next(s, f, Step(elapsed, 0, MoveAgentTo(id, read, to, actor)));
  }

  lemma ReplayBind(s: Settings, all: iset<Fine>, f: Fine, w: World, id: AgentId, worker: WorkerId, key: CallKey)
    returns (g: Fine)
    requires Closed(s, all) && At(all, f, w)
    ensures At(all, g, TryBindCall(w, id, worker, key).0) && KeepsReads(f, g) && g.granted == f.granted
  {
    var step := Step(0, 0, Bind(id, worker, key));
    g := Next(s, f, step);
  }

  lemma ReplayReclaimAgent(s: Settings, all: iset<Fine>, f: Fine, w: World, id: AgentId, read: Agent, now: Time)
    returns (g: Fine)
    requires Closed(s, all) && At(all, f, w) && (id, read) in f.agentsRead && AgentLeaseExpired(read, now)
             && now <= w.now
    ensures At(all, g, TryReclaimAgent(w, id, read, now).0) && KeepsReads(f, g)
  {
    var step := Step(0, 0, ReclaimLease(id, read, now));
    g := Next(s, f, step);
  }

  lemma ReplayHeartbeat(s: Settings, all: iset<Fine>, f: Fine, w: World, id: AgentId) returns (g: Fine)
    requires Closed(s, all) && At(all, f, w)
    ensures At(all, g, Heartbeat(w, id)) && KeepsReads(f, g)
  {
    var step := Step(Delay(w), 0, Ping(id));
    g := Next(s, f, step);
  }

  lemma ReplayReserveBorrower(
    s: Settings, all: iset<Fine>, f: Fine, w: World, campaign: CampaignId, id: BorrowerId, worker: WorkerId
  )
    returns (g: Fine)
    requires Closed(s, all) && At(all, f, w)
    ensures var (w', r) := TryReserveBorrower(w, campaign, id, worker, s.ttl);
            At(all, g, w') && KeepsReads(f, g) && (r.Some? ==> (id, r.value) in g.borrowersRead)
  {
    var step := Step(Delay(w), 0, Hold(campaign, id, worker));
    g := Next(s, f, step);
  }

  lemma ReplayReleaseBorrower(
    s: Settings, all: iset<Fine>, f: Fine, w: World, id: BorrowerId, worker: WorkerId, outcome: ReleaseOutcome
  )
    returns (g: Fine)
    requires Closed(s, all) && At(all, f, w)
    ensures At(all, g, TryReleaseBorrower(s, w, id, worker, outcome).0) && KeepsReads(f, g)
  {
    var step := Step(Delay(w), 0, LetBorrowerGo(id, worker, outcome));
    g := Next(s, f, step);
  }

  lemma ReplayReclaimBorrower(
    s: Settings, all: iset<Fine>, f: Fine, w: World, id: BorrowerId, read: Borrower, now: Time
  ) returns (g: Fine)
    requires Closed(s, all) && At(all, f, w) && (id, read) in f.borrowersRead && BorrowerLeaseExpired(read, now)
             && now <= w.now
    ensures At(all, g, TryReclaimBorrower(w, id, read, now).0) && KeepsReads(f, g)
  {
    var step := Step(0, 0, ReclaimHold(id, read, now));
    g := Next(s, f, step);
  }

  lemma ReplayCreate(
    s: Settings, all: iset<Fine>, f: Fine, w: World, key: CallKey, provider: ProviderId, worker: WorkerId,
    read: Borrower
  )
    returns (g: Fine)
    requires Closed(s, all) && At(all, f, w)
    requires key.agent in w.agents && w.agents[key.agent].campaign == key.campaign
    requires (key.borrower, read) in f.borrowersRead && read.status == BorrowerStatus.Reserved
    requires key.attempt == read.attemptCount + 1
    ensures At(all, g, CreateCall(w, key, provider, worker).0) && KeepsReads(f, g)
  {
    var step := Step(Delay(w), 0, Create(key, provider, worker, read));
    g := Next(s, f, step);
  }

  lemma PromotionIsGranted(s: Settings, f: Fine, w: World, key: CallKey, to: CallState, g: Fine)
    requires Mirrors(f, w) && g == Next(s, f, Step(Delay(w), 0, Promote(key, to)))
    ensures TryTransitionCall(w, key, to).1.Some? && to == CallState.Initiated ==> key in g.granted
  {
    MoveAfterWaiting(w, key, to);
  }

  lemma ReplayPromote(s: Settings, all: iset<Fine>, f: Fine, w: World, key: CallKey, to: CallState) returns (g: Fine)
    requires Closed(s, all) && At(all, f, w) && (to == CallState.Reserved || to == CallState.Initiated)
    ensures var (w', r) := TryTransitionCall(w, key, to);
            At(all, g, w') && KeepsReads(f, g) && (r.Some? && to == CallState.Initiated ==> key in g.granted)
  {
    g := Next(s, f, Step(Delay(w), 0, Promote(key, to)));
    MoveMirrors(s, f, w, Promote(key, to), key, to, g);
    PromotionIsGranted(s, f, w, key, to, g);
  }

  lemma ReplayOriginate(s: Settings, all: iset<Fine>, f: Fine, w: World, key: CallKey) returns (g: Fine)
    requires Closed(s, all) && At(all, f, w) && key in f.granted
    ensures At(all, g, w) && KeepsReads(f, g) && key in g.originated
  {
    g := Next(s, f, Step(0, 0, Originate(key)));
  }

  lemma ReplayAttach(s: Settings, all: iset<Fine>, f: Fine, w: World, key: CallKey, id: ProviderCallId)
    returns (g: Fine)
    requires Closed(s, all) && At(all, f, w) && key in f.originated
    ensures At(all, g, TryAttach(w, key, id).0) && KeepsReads(f, g)
  {
    AttachAfterWaiting(w, key, id);
    g := Next(s, f, Step(Delay(w), 0, AttachId(key, id)));
    assert g.w == TryAttach(Waited(w), key, id).0;
  }

  lemma ReplayEndCall(s: Settings, all: iset<Fine>, f: Fine, w: World, key: CallKey, to: CallState) returns (g: Fine)
    requires Closed(s, all) && At(all, f, w) && (to == CallState.Failed || to == CallState.Cancelled)
    ensures At(all, g, TryTransitionCall(w, key, to).0) && KeepsReads(f, g)
  {
    g := Next(s, f, Step(Delay(w), 0, EndCall(key, to)));
    MoveMirrors(s, f, w, EndCall(key, to), key, to, g);
  }

  lemma ReplayComplete(s: Settings, all: iset<Fine>, f: Fine, w: World, key: CallKey, read: Call) returns (g: Fine)
    requires Closed(s, all) && At(all, f, w) && (key, read) in f.callsRead && read.providerCallId.Some?
    ensures At(all, g, TryTransitionCall(w, key, CallState.Completed).0) && KeepsReads(f, g)
  {
    g := Next(s, f, Step(Delay(w), 0, CompleteStale(key, read)));
    MoveMirrors(s, f, w, CompleteStale(key, read), key, CallState.Completed, g);
  }

  lemma ReplayEventMove(s: Settings, all: iset<Fine>, f: Fine, w: World, key: CallKey, read: Call, target: CallState)
    returns (g: Fine)
    requires Closed(s, all) && At(all, f, w) && (key, read) in f.callsRead && read.providerCallId.Some?
    requires Rank(target) >= 3 && ShouldApplyEvent(read.state, target) == Apply
    ensures At(all, g, TryTransitionCall(w, key, target).0) && KeepsReads(f, g)
  {
    g := Next(s, f, Step(Delay(w), 0, MoveByEvent(key, read, target)));
    MoveMirrors(s, f, w, MoveByEvent(key, read, target), key, target, g);
  }

  lemma ReplayNote(s: Settings, all: iset<Fine>, f: Fine, w: World, id: EventId) returns (g: Fine)
    requires Closed(s, all) && At(all, f, w)
    ensures At(all, g, RecordEvent(w, id).0) && KeepsReads(f, g)
  {
    g := Next(s, f, Step(0, 0, Note(id)));
  }

  // ---------- readings ----------

  lemma ReplayReadAgent(s: Settings, all: iset<Fine>, f: Fine, w: World, id: AgentId) returns (g: Fine)
    requires Closed(s, all) && At(all, f, w)
    ensures At(all, g, w) && KeepsReads(f, g) && (id in w.agents ==> (id, w.agents[id]) in g.agentsRead)
  {
    g := Next(s, f, Step(0, 0, ReadAgent(id)));
  }

  lemma ReplayReadBorrower(s: Settings, all: iset<Fine>, f: Fine, w: World, id: BorrowerId) returns (g: Fine)
    requires Closed(s, all) && At(all, f, w)
    ensures At(all, g, w) && KeepsReads(f, g) && (id in w.borrowers ==> (id, w.borrowers[id]) in g.borrowersRead)
  {
    g := Next(s, f, Step(0, 0, ReadBorrower(id)));
  }

  lemma ReplayReadCall(s: Settings, all: iset<Fine>, f: Fine, w: World, key: CallKey) returns (g: Fine)
    requires Closed(s, all) && At(all, f, w)
    ensures At(all, g, w) && KeepsReads(f, g) && (key in w.calls ==> (key, w.calls[key]) in g.callsRead)
  {
    g := Next(s, f, Step(0, 0, ReadCall(key)));
  }

  lemma {:induction false} ReplayReadAgents(s: Settings, all: iset<Fine>, f: Fine, w: World, ids: seq<AgentId>)
    returns (g: Fine)
    requires Closed(s, all) && At(all, f, w) && forall x :: x in ids ==> x in w.agents
    ensures At(all, g, w) && KeepsReads(f, g) && forall x :: x in ids ==> (x, w.agents[x]) in g.agentsRead
    decreases |ids|
  {
    if ids == [] {
      g := f;
    } else {
      var h := ReplayReadAgent(s, all, f, w, ids[0]);
      g := ReplayReadAgents(s, all, h, w, ids[1..]);
    }
  }

  lemma {:induction false} ReplayReadBorrowers(s: Settings, all: iset<Fine>, f: Fine, w: World, ids: seq<BorrowerId>)
    returns (g: Fine)
    requires Closed(s, all) && At(all, f, w) && forall x :: x in ids ==> x in w.borrowers
    ensures At(all, g, w) && KeepsReads(f, g) && forall x :: x in ids ==> (x, w.borrowers[x]) in g.borrowersRead
    decreases |ids|
  {
    if ids == [] {
      g := f;
    } else {
      var h := ReplayReadBorrower(s, all, f, w, ids[0]);
      g := ReplayReadBorrowers(s, all, h, w, ids[1..]);
    }
  }

  lemma {:induction false} ReplayReadCalls(s: Settings, all: iset<Fine>, f: Fine, w: World, keys: seq<CallKey>)
    returns (g: Fine)
    requires Closed(s, all) && At(all, f, w) && forall x :: x in keys ==> x in w.calls
    ensures At(all, g, w) && KeepsReads(f, g) && forall x :: x in keys ==> (x, w.calls[x]) in g.callsRead
    decreases |keys|
  {
    if keys == [] {
      g := f;
    } else {
      var h := ReplayReadCall(s, all, f, w, keys[0]);
      g := ReplayReadCalls(s, all, h, w, keys[1..]);
    }
  }

  // ---------- reserving and dialing ----------

  lemma {:induction false} ReplayClaimAgent(
    s: Settings, all: iset<Fine>, f: Fine, w: World, campaign: CampaignId, worker: WorkerId, candidates: seq<AgentId>
  ) returns (g: Fine)
    requires Closed(s, all) && At(all, f, w)
    ensures var (w', r) := ClaimAgent(s, w, campaign, worker, candidates);
            At(all, g, w') && KeepsReads(f, g) && (r.Some? ==> (r.value.0, r.value.1) in g.agentsRead)
    decreases |candidates|
  {
    if candidates == [] {
      g := f;
    } else {
      g := ReplayReserveAgent(s, all, f, w, campaign, candidates[0], worker);
      var (t, r) := TryReserveAgent(w, campaign, candidates[0], worker, s.ttl);
      if r.None? {
        var h := g;
        g := ReplayClaimAgent(s, all, h, t, campaign, worker, candidates[1..]);
      }
    }
  }

  lemma {:induction false} ReplayClaimBorrower(
    s: Settings, all: iset<Fine>, f: Fine, w: World, campaign: CampaignId, worker: WorkerId, candidates: seq<BorrowerId>
  ) returns (g: Fine)
    requires Closed(s, all) && At(all, f, w)
    ensures var (w', r) := ClaimBorrower(s, w, campaign, worker, candidates);
            At(all, g, w') && KeepsReads(f, g) && (r.Some? ==> (r.value.0, r.value.1) in g.borrowersRead)
    decreases |candidates|
  {
    if candidates == [] {
      g := f;
    } else {
      g := ReplayReserveBorrower(s, all, f, w, campaign, candidates[0], worker);
      var (t, r) := TryReserveBorrower(w, campaign, candidates[0], worker, s.ttl);
      if r.None? {
        var h := g;
        g := ReplayClaimBorrower(s, all, h, t, campaign, worker, candidates[1..]);
      }
    }
  }

  /** A reserved pair: both documents are on record as read, and the agent is in the campaign. */
  predicate PairOnRecord(g: Fine, w: World, p: Pair) {
    && (p.agentId, p.agent) in g.agentsRead && p.agent.state == AgentState.Reserved
    && (p.borrowerId, p.borrower) in g.borrowersRead && p.borrower.status == BorrowerStatus.Reserved
    && p.agentId in w.agents && w.agents[p.agentId].campaign == p.campaign
  }

  lemma ReplayReservePair(
    s: Settings, all: iset<Fine>, f: Fine, w: World, campaign: CampaignId, worker: WorkerId, ao: seq<AgentId>,
    bo: seq<BorrowerId>
  ) returns (g: Fine)
    requires Closed(s, all) && At(all, f, w)
    ensures var (w', r) := ReservePair(s, w, campaign, worker, ao, bo);
            At(all, g, w') && KeepsReads(f, g) && (r.Some? ==> PairOnRecord(g, w', r.value))
  {
    var candidates := Pick(AvailableAgents(w, campaign), ao, CLAIM_WINDOW);
    g := ReplayClaimAgent(s, all, f, w, campaign, worker, candidates);
    var (w1, a) := ClaimAgent(s, w, campaign, worker, candidates);
    if a.Some? {
      var w2 := Tick(w1);
      var g2 := ReplayTick(s, all, g, w1);
      var borrowers := Pick(ClaimableBorrowers(w2, campaign), bo, CLAIM_WINDOW);
      var g3 := ReplayClaimBorrower(s, all, g2, w2, campaign, worker, borrowers);
      var (w3, b) := ClaimBorrower(s, w2, campaign, worker, borrowers);
      g := g3;
      if b.None? {
        g := ReplayReleaseAgent(s, all, g3, w3, a.value.0, worker, AgentState.Available, Allocator);
      } else {
        ReservedPairFacts(s, w, campaign, worker, ao, bo);
      }
    }
  }

  lemma ReservedPairFacts(
    s: Settings, w: World, campaign: CampaignId, worker: WorkerId, ao: seq<AgentId>, bo: seq<BorrowerId>
  )
    ensures var (w', r) := ReservePair(s, w, campaign, worker, ao, bo);
            r.Some? ==> r.value.borrower.status == BorrowerStatus.Reserved && r.value.agent.state == AgentState.Reserved
                        && r.value.agentId in w'.agents && w'.agents[r.value.agentId].campaign == r.value.campaign
  {
    var _ := ReservePairEffect(s, w, campaign, worker, ao, bo);
  }

  lemma ReplayReleasePair(s: Settings, all: iset<Fine>, f: Fine, w: World, p: Pair, outcome: ReleaseOutcome)
    returns (g: Fine)
    requires Closed(s, all) && At(all, f, w)
    ensures At(all, g, ReleasePair(s, w, p, outcome)) && KeepsReads(f, g)
  {
    var h := ReplayReleaseAgent(s, all, f, w, p.agentId, p.worker, AgentState.Available, Allocator);
    var w1 := TryReleaseAgent(w, p.agentId, p.worker, AgentState.Available, Allocator).0;
    g := ReplayReleaseBorrower(s, all, h, w1, p.borrowerId, p.worker, outcome);
  }

  lemma ReplayFailDial(s: Settings, all: iset<Fine>, f: Fine, w: World, p: Pair) returns (g: Fine)
    requires Closed(s, all) && At(all, f, w)
    ensures At(all, g, FailDial(s, w, p)) && KeepsReads(f, g)
  {
    var h := ReplayEndCall(s, all, f, w, p.Key(), CallState.Failed);
    g := ReplayReleasePair(s, all, h, TryTransitionCall(w, p.Key(), CallState.Failed).0, p, Retry);
  }

  lemma ReplayPlaceCall(s: Settings, all: iset<Fine>, f: Fine, w: World, p: Pair, provider: ProviderId)
    returns (g: Fine)
    requires Closed(s, all) && At(all, f, w) && PairOnRecord(f, w, p)
    ensures var (w', placed) := PlaceCall(w, p, provider);
            At(all, g, w') && KeepsReads(f, g) && (placed ==> p.Key() in g.granted)
  {
    g := ReplayCreate(s, all, f, w, p.Key(), provider, p.worker, p.borrower);
    var (w1, call) := CreateCall(w, p.Key(), provider, p.worker);
    if call.state == CallState.Queued {
      var g2 := ReplayPromote(s, all, g, w1, p.Key(), CallState.Reserved);
      g := ReplayPromote(s, all, g2, TryTransitionCall(w1, p.Key(), CallState.Reserved).0, p.Key(),
                         CallState.Initiated);
    }
  }

  /** The agent goes on the call, and the provider is asked. */
  lemma ReplayStartDialing(s: Settings, all: iset<Fine>, f: Fine, w: World, p: Pair) returns (g: Fine)
    requires Closed(s, all) && At(all, f, w) && p.Key() in f.granted && (p.agentId, p.agent) in f.agentsRead
    requires p.agent.state == AgentState.Reserved
    ensures At(all, g, StartDialing(w, p)) && KeepsReads(f, g) && p.Key() in g.originated
  {
    var g1 := ReplayTransition(s, all, f, w, p.agentId, p.agent, AgentState.Dialing, Allocator);
    var w1 := TryTransitionAgent(w, p.agentId, AgentState.Reserved, AgentState.Dialing, Allocator, p.agent.version).0;
    var g2 := ReplayBind(s, all, g1, w1, p.agentId, p.worker, p.Key());
    g := ReplayOriginate(s, all, g2, StartDialing(w, p), p.Key());
  }

  lemma ReplayFinishDial(s: Settings, all: iset<Fine>, f: Fine, w: World, p: Pair, reply: Reply) returns (g: Fine)
    requires Closed(s, all) && At(all, f, w) && p.Key() in f.originated
    ensures At(all, g, FinishDial(s, w, p, reply).0) && KeepsReads(f, g)
  {
    if !reply.Accepted? {
      g := ReplayFailDial(s, all, f, w, p);
    } else {
      g := ReplayAttach(s, all, f, w, p.Key(), reply.id);
      var (w1, attached) := TryAttach(w, p.Key(), reply.id);
      if attached.None? {
        var h := g;
        g := ReplayFailDial(s, all, h, w1, p);
      }
    }
  }

  lemma ReplayPlaceAndAsk(s: Settings, all: iset<Fine>, f: Fine, w: World, p: Pair, provider: ProviderId, reply: Reply)
    returns (g: Fine)
    requires Closed(s, all) && At(all, f, w) && PairOnRecord(f, w, p)
    ensures At(all, g, PlaceAndAsk(s, w, p, provider, reply).0) && KeepsReads(f, g)
  {
    var h := ReplayPlaceCall(s, all, f, w, p, provider);
    var (w1, placed) := PlaceCall(w, p, provider);
    if placed {
      var h2 := ReplayStartDialing(s, all, h, w1, p);
      g := ReplayFinishDial(s, all, h2, StartDialing(w1, p), p, reply);
    } else {
      g := ReplayReleasePair(s, all, h, w1, p, Released);
    }
  }

  lemma ReplayDial(
    s: Settings, all: iset<Fine>, f: Fine, w: World, p: Pair, provider: ProviderId, healthy: bool, reply: Reply
  ) returns (g: Fine)
    requires Closed(s, all) && At(all, f, w) && PairOnRecord(f, w, p)
    ensures At(all, g, Dial(s, w, p, provider, healthy, reply).0) && KeepsReads(f, g)
  {
    if p.borrower.attemptCount == 0 {
      g := ReplayPlaceAndAsk(s, all, f, w, p, provider, reply);
    } else {
      var h := ReplayTick(s, all, f, w);
      var t := Tick(w);
      if ShouldRetry(s, p.borrower, t.now, healthy) {
        g := ReplayPlaceAndAsk(s, all, h, t, p, provider, reply);
      } else {
        g := ReplayReleasePair(s, all, h, t, p, Released);
      }
    }
  }

  lemma ReplayAttempt(
    s: Settings, all: iset<Fine>, f: Fine, w: World, campaign: CampaignId, provider: ProviderId, worker: WorkerId,
    input: DialInput
  ) returns (g: Fine)
    requires Closed(s, all) && At(all, f, w)
    ensures At(all, g, AttemptDial(s, w, campaign, provider, worker, input).0) && KeepsReads(f, g)
  {
    g := ReplayReservePair(s, all, f, w, campaign, worker, input.agentOrder, input.borrowerOrder);
    var (w1, pair) := ReservePair(s, w, campaign, worker, input.agentOrder, input.borrowerOrder);
    if pair.Some? {
      var h := g;
      g := ReplayDial(s, all, h, w1, pair.value, provider, input.healthy, input.reply);
    }
  }

  // ---------- events ----------

  lemma ReplayAgentTransition(
    s: Settings, all: iset<Fine>, f: Fine, w: World, key: CallKey, call: Call, target: CallState
  ) returns (g: Fine)
    requires Closed(s, all) && At(all, f, w) && Rank(target) >= 3
    ensures At(all, g, ApplyAgentTransition(w, key, call, target)) && KeepsReads(f, g)
  {
    var to := AgentStateFor(target);
    if key.agent !in w.agents || w.agents[key.agent].state == to {
      g := f;
    } else if IsTerminal(target) {
      g := ReplayReleaseAgent(s, all, f, w, key.agent, call.worker, to, EventProcessor);
    } else {
      var h := ReplayReadAgent(s, all, f, w, key.agent);
      g := ReplayTransition(s, all, h, w, key.agent, w.agents[key.agent], to, EventProcessor);
    }
  }

  /** The move of the call, then what follows for its agent and its borrower. */
  lemma ReplayApplied(s: Settings, all: iset<Fine>, f: Fine, w: World, key: CallKey, target: CallState)
    returns (g: Fine)
    requires Closed(s, all) && At(all, f, w) && Rank(target) >= 3
    requires key in w.calls && w.calls[key].providerCallId.Some?
             && ShouldApplyEvent(w.calls[key].state, target) == Apply
    ensures var (w1, updated) := TryTransitionCall(w, key, target);
            var end := if updated.None? then w1
                       else
                         var w2 := ApplyAgentTransition(w1, key, updated.value, target);
                         if IsTerminal(target) then ReleaseBorrowerAfterEvent(s, w2, key, updated.value, target)
                         else w2;
            At(all, g, end) && KeepsReads(f, g)
  {
    var h := ReplayReadCall(s, all, f, w, key);
    g := ReplayEventMove(s, all, h, w, key, w.calls[key], target);
    var (w1, updated) := TryTransitionCall(w, key, target);
    if updated.Some? {
      var h2 := ReplayAgentTransition(s, all, g, w1, key, updated.value, target);
      g := h2;
      if IsTerminal(target) {
        var answered := target == CallState.Completed && updated.value.answeredAt.Some?;
        g := ReplayReleaseBorrower(s, all, h2, ApplyAgentTransition(w1, key, updated.value, target), key.borrower,
                                   updated.value.worker, OutcomeForTerminalCall(answered));
      }
    }
  }

  lemma ReplayEvent(s: Settings, all: iset<Fine>, f: Fine, w: World, e: Event) returns (g: Fine)
    requires Closed(s, all) && At(all, f, w) && IndexOk(w)
    ensures At(all, g, ProcessEvent(s, w, e).0) && KeepsReads(f, g)
  {
    g := ReplayNote(s, all, f, w, e.id);
    var (w1, recorded) := RecordEvent(w, e.id);
    if recorded && e.Ref() in w.index && EventTarget(e.kind).Some? {
      var key, target := w.index[e.Ref()], EventTarget(e.kind).value;
      if ShouldApplyEvent(w.calls[key].state, target) == Apply {
        var h := g;
        g := ReplayApplied(s, all, h, w1, key, target);
      }
    }
  }

  // ---------- recovery ----------

  lemma ReplayCancel(s: Settings, all: iset<Fine>, f: Fine, w: World, read: Agent) returns (g: Fine)
    requires Closed(s, all) && At(all, f, w)
    ensures At(all, g, CancelBoundCall(s, w, read)) && KeepsReads(f, g) && w.now <= CancelBoundCall(s, w, read).now
  {
    if read.currentCall.None? || read.currentCall.value !in w.calls || w.calls[read.currentCall.value].terminal {
      g := f;
    } else {
      var key := read.currentCall.value;
      g := ReplayEndCall(s, all, f, w, key, CallState.Cancelled);
      var (w1, cancelled) := TryTransitionCall(w, key, CallState.Cancelled);
      if cancelled.Some? {
        var h := g;
        g := ReplayReleaseBorrower(s, all, h, w1, key.borrower, cancelled.value.worker, Retry);
      }
    }
  }

  lemma {:induction false} ReplayAgentSweep(
    s: Settings, all: iset<Fine>, f: Fine, w: World, ids: seq<AgentId>, read: map<AgentId, Agent>, now: Time, done: nat
  ) returns (g: Fine)
    requires Closed(s, all) && At(all, f, w) && now <= w.now
    requires forall x :: x in ids ==> x in read && (x, read[x]) in f.agentsRead && AgentLeaseExpired(read[x], now)
    ensures var w' := AgentSweep(s, w, ids, read, now, done).0;
            At(all, g, w') && KeepsReads(f, g) && w.now <= w'.now
    decreases |ids|
  {
    if ids == [] {
      g := f;
    } else {
      var a := read[ids[0]];
      var h1 := ReplayCancel(s, all, f, w, a);
      var h2 := ReplayReclaimAgent(s, all, h1, CancelBoundCall(s, w, a), ids[0], a, now);
      var (w1, ok) := RecoverAgent(s, w, ids[0], a, now);
      g := ReplayAgentSweep(s, all, h2, w1, ids[1..], read, now, if ok then done + 1 else done);
    }
  }

  lemma {:induction false} ReplayBorrowerSweep(
    s: Settings, all: iset<Fine>, f: Fine, w: World, ids: seq<BorrowerId>, read: map<BorrowerId, Borrower>, now: Time,
    done: nat
  ) returns (g: Fine)
    requires Closed(s, all) && At(all, f, w) && now <= w.now
    requires forall x :: x in ids ==> x in read && (x, read[x]) in f.borrowersRead && BorrowerLeaseExpired(read[x], now)
    ensures At(all, g, BorrowerSweep(w, ids, read, now, done).0) && KeepsReads(f, g)
    decreases |ids|
  {
    if ids == [] {
      g := f;
    } else {
      var h := ReplayReclaimBorrower(s, all, f, w, ids[0], read[ids[0]], now);
      var (w1, r) := TryReclaimBorrower(w, ids[0], read[ids[0]], now);
      g := ReplayBorrowerSweep(s, all, h, w1, ids[1..], read, now, if r.Some? then done + 1 else done);
    }
  }

  lemma ReplayRecoverCall(
    s: Settings, all: iset<Fine>, f: Fine, w: World, key: CallKey, read: Call, reports: map<CallKey, ProviderStatus>
  )
    returns (g: Fine)
    requires Closed(s, all) && At(all, f, w) && (key, read) in f.callsRead
    ensures At(all, g, RecoverCall(s, w, key, read, reports).0) && KeepsReads(f, g)
  {
    var to := Reconcile(read, key, reports);
    if to == CallState.Completed {
      g := ReplayComplete(s, all, f, w, key, read);
    } else {
      g := ReplayEndCall(s, all, f, w, key, to);
    }
    var (w1, finished) := TryTransitionCall(w, key, to);
    if finished.Some? {
      var worker := finished.value.worker;
      var h := ReplayReleaseAgent(s, all, g, w1, key.agent, worker, AgentState.Available, Recovery);
      g := ReplayReleaseBorrower(s, all, h, TryReleaseAgent(w1, key.agent, worker, AgentState.Available, Recovery).0,
                                 key.borrower, worker, Retry);
    }
  }

  lemma {:induction false} ReplayCallSweep(
    s: Settings, all: iset<Fine>, f: Fine, w: World, keys: seq<CallKey>, read: map<CallKey, Call>,
    reports: map<CallKey, ProviderStatus>, done: nat
  ) returns (g: Fine)
    requires Closed(s, all) && At(all, f, w) && forall x :: x in keys ==> x in read && (x, read[x]) in f.callsRead
    ensures At(all, g, CallSweep(s, w, keys, read, reports, done).0) && KeepsReads(f, g)
    decreases |keys|
  {
    if keys == [] {
      g := f;
    } else {
      var h := ReplayRecoverCall(s, all, f, w, keys[0], read[keys[0]], reports);
      var (w1, ok) := RecoverCall(s, w, keys[0], read[keys[0]], reports);
      g := ReplayCallSweep(s, all, h, w1, keys[1..], read, reports, if ok then done + 1 else done);
    }
  }

  lemma {:induction false} ReplayHeartbeatSweep(
    s: Settings, all: iset<Fine>, f: Fine, w: World, ids: seq<AgentId>, read: map<AgentId, Agent>, done: nat
  ) returns (g: Fine)
    requires Closed(s, all) && At(all, f, w) && forall x :: x in ids ==> x in read && (x, read[x]) in f.agentsRead
    ensures At(all, g, HeartbeatSweep(s, w, ids, read, done).0) && KeepsReads(f, g)
    decreases |ids|
  {
    if ids == [] {
      g := f;
    } else {
      var a := read[ids[0]];
      var h1 := ReplayCancel(s, all, f, w, a);
      var h2 := ReplayTransition(s, all, h1, CancelBoundCall(s, w, a), ids[0], a, AgentState.Offline, Recovery);
      var (w1, ok) := LogOutSilent(s, w, ids[0], a);
      g := ReplayHeartbeatSweep(s, all, h2, w1, ids[1..], read, if ok then done + 1 else done);
    }
  }

  lemma {:induction false} ReplayWrapUpSweep(
    s: Settings, all: iset<Fine>, f: Fine, w: World, ids: seq<AgentId>, read: map<AgentId, Agent>, actor: Actor,
    done: nat
  ) returns (g: Fine)
    requires Closed(s, all) && At(all, f, w)
    requires forall x :: x in ids ==> x in read && (x, read[x]) in f.agentsRead && read[x].state == AgentState.WrapUp
    ensures At(all, g, WrapUpSweep(w, ids, read, actor, done).0) && KeepsReads(f, g)
    decreases |ids|
  {
    if ids == [] {
      g := f;
    } else {
      var h := ReplayTransition(s, all, f, w, ids[0], read[ids[0]], AgentState.Available, actor);
      var (w1, ok) := FinishWrapUp(w, ids[0], read[ids[0]], actor);
      g := ReplayWrapUpSweep(s, all, h, w1, ids[1..], read, actor, if ok then done + 1 else done);
    }
  }

  lemma ReplayLeaseSweeps(s: Settings, all: iset<Fine>, f: Fine, w: World, now: Time, input: SweepInput)
    returns (g: Fine)
    requires Closed(s, all) && At(all, f, w) && now <= w.now
    ensures var w1 := SweepExpiredAgents(s, w, now, input).0;
            At(all, g, SweepExpiredBorrowers(s, w1, now, input).0) && KeepsReads(f, g)
  {
    var ids := Pick(ExpiredAgents(w, now), input.expired, s.sweepLimit);
    var h1 := ReplayReadAgents(s, all, f, w, ids);
    var h2 := ReplayAgentSweep(s, all, h1, w, ids, w.agents, now, 0);
    var w1 := SweepExpiredAgents(s, w, now, input).0;
    var held := Pick(ExpiredBorrowers(w1, now), input.borrowers, s.sweepLimit);
    var h3 := ReplayReadBorrowers(s, all, h2, w1, held);
    g := ReplayBorrowerSweep(s, all, h3, w1, held, w1.borrowers, now, 0);
  }

  lemma ReplayStaleSweep(s: Settings, all: iset<Fine>, f: Fine, w: World, now: Time, input: SweepInput)
    returns (g: Fine)
    requires Closed(s, all) && At(all, f, w)
    ensures At(all, g, SweepStaleCalls(s, w, now, input).0) && KeepsReads(f, g)
  {
    var keys := Pick(StaleCalls(w, now - s.staleTimeout), input.calls, s.sweepLimit);
    var h := ReplayReadCalls(s, all, f, w, keys);
    g := ReplayCallSweep(s, all, h, w, keys, w.calls, input.reports, 0);
  }

  lemma ReplaySilentSweep(s: Settings, all: iset<Fine>, f: Fine, w: World, now: Time, input: SweepInput)
    returns (g: Fine)
    requires Closed(s, all) && At(all, f, w)
    ensures At(all, g, SweepSilentAgents(s, w, now, input).0) && KeepsReads(f, g)
  {
    var ids := Pick(SilentAgents(w, now - s.heartbeatTimeout), input.silent, s.sweepLimit);
    var h := ReplayReadAgents(s, all, f, w, ids);
    g := ReplayHeartbeatSweep(s, all, h, w, ids, w.agents, 0);
  }

  lemma ReplayWrapUps(s: Settings, all: iset<Fine>, f: Fine, w: World, ids: seq<AgentId>, actor: Actor)
    returns (g: Fine)
    requires Closed(s, all) && At(all, f, w)
    requires forall x :: x in ids ==> x in w.agents && w.agents[x].state == AgentState.WrapUp
    ensures At(all, g, WrapUpSweep(w, ids, w.agents, actor, 0).0) && KeepsReads(f, g)
  {
    var h := ReplayReadAgents(s, all, f, w, ids);
    g := ReplayWrapUpSweep(s, all, h, w, ids, w.agents, actor, 0);
  }

  lemma ReplaySweeps(s: Settings, all: iset<Fine>, f: Fine, w: World, input: SweepInput) returns (g: Fine)
    requires Closed(s, all) && At(all, f, w)
    ensures At(all, g, SweepsAt(s, w, w.now, input).0) && KeepsReads(f, g)
  {
    var now := w.now;
    var h2 := ReplayLeaseSweeps(s, all, f, w, now, input);
    var w2 := SweepExpiredBorrowers(s, SweepExpiredAgents(s, w, now, input).0, now, input).0;
    var h3 := ReplayStaleSweep(s, all, h2, w2, now, input);
    var w3 := SweepStaleCalls(s, w2, now, input).0;
    var h4 := ReplaySilentSweep(s, all, h3, w3, now, input);
    var w4 := SweepSilentAgents(s, w3, now, input).0;
    g := ReplayWrapUps(s, all, h4, w4, Pick(FinishedWrapUps(w4, now - StuckWrapUpAge(s)), input.wrapUps, s.sweepLimit),
                       Recovery);
  }

  // ---------- every run ----------

  lemma ReplayAct(s: Settings, all: iset<Fine>, f: Fine, w: World, id: AgentId, action: AgentAction) returns (g: Fine)
    requires Closed(s, all) && At(all, f, w)
    ensures At(all, g, Act(w, id, action).0) && KeepsReads(f, g)
  {
    g := f;
    if id in w.agents {
      var read := w.agents[id];
      var h := ReplayReadAgent(s, all, f, w, id);
      g := ReplayTransition(s, all, h, w, id, read, ActionTarget(action), Self);
      var (w1, r) := TryTransitionAgent(w, id, read.state, ActionTarget(action), Self, read.version);
      if action.Login? && r.Moved? {
        var h2 := g;
        g := ReplayHeartbeat(s, all, h2, w1, id);
      }
    }
  }

  lemma ReplayEndWrapUps(s: Settings, all: iset<Fine>, f: Fine, w: World, campaign: CampaignId, order: seq<AgentId>)
    returns (g: Fine)
    requires Closed(s, all) && At(all, f, w)
    ensures At(all, g, ReleaseFinishedWrapUps(s, w, campaign, order)) && KeepsReads(f, g)
  {
    var h := ReplayTick(s, all, f, w);
    var t := Tick(w);
    var finished := set id | id in FinishedWrapUps(t, t.now - s.wrapUp) && t.agents[id].campaign == campaign;
    g := ReplayWrapUps(s, all, h, t, Pick(finished, order, WRAP_UP_SWEEP_LIMIT), WorkerTimer);
  }

  lemma ReplayExec(s: Settings, all: iset<Fine>, f: Fine, w: World, t: Timed) returns (g: Fine)
    requires Closed(s, all) && At(all, f, w) && IndexOk(w)
    ensures At(all, g, Exec(s, w, t)) && KeepsReads(f, g)
  {
    var w0 := w.(delays := t.delays);
    match t.command
    case Attempt(campaign, provider, worker, input) =>
      g := ReplayAttempt(s, all, f, w0, campaign, provider, worker, input);
    case Deliver(e) => g := ReplayEvent(s, all, f, w0, e);
    case Sweep(input) =>
      var h := ReplayTick(s, all, f, w0);
      g := ReplaySweeps(s, all, h, Tick(w0), input);
    case EndWrapUps(campaign, order) => g := ReplayEndWrapUps(s, all, f, w0, campaign, order);
    case AgentActs(id, action) => g := ReplayAct(s, all, f, w0, id, action);
    case Beat(id) => g := ReplayHeartbeat(s, all, f, w0, id);
  }

  lemma {:induction false} ReplayRun(s: Settings, all: iset<Fine>, f: Fine, w: World, run: seq<Timed>) returns (g: Fine)
    requires Closed(s, all) && At(all, f, w) && Inv(s, w) && Legal(s, w, run)
    ensures At(all, g, Run(s, w, run)) && KeepsReads(f, g)
    decreases |run|
  {
    if run == [] {
      g := f;
    } else {
      ExecKeepsInvIff(s, w, run[0]);
      var h := ReplayExec(s, all, f, w, run[0]);
      g := ReplayRun(s, all, h, Exec(s, w, run[0]), run[1..]);
    }
  }

  function Unread(w: World): Fine {
    Fine(w.(delays := []), {}, {}, {}, {}, [], map[])
  }

  ghost predicate HoldsAreDated(f: Fine) {
    forall b :: b in f.w.borrowers && f.w.borrowers[b].lease.Some? ==>
      f.w.borrowers[b].lease.value.reservedAt <= f.w.now
  }

  lemma PromptStepDates(s: Settings, f: Fine, step: Step)
    requires HoldsAreDated(f) && step.lag == 0
    ensures DatedInOrder(f, step) && HoldsAreDated(Next(s, f, step))
  {
    DatedHolds(s, Dated(f, Stamp(f, step)), step.op);
  }

  lemma DatedHolds(s: Settings, f: Fine, op: Op)
    requires HoldsAreDated(f) && f.w.delays == []
    ensures Take(s, f, op).w.now == f.w.now && HoldsAreDated(Take(s, f, op))
  {
    ClockStands(s, f, op);
    match op
    case Hold(_, _, _) =>
    case LetBorrowerGo(_, _, _) =>
    case ReclaimHold(_, _, _) =>
    case ReadBorrower(_) =>
    case _ => OtherStepsKeepBorrowers(s, f, op);
  }

  lemma ClockStands(s: Settings, f: Fine, op: Op)
    requires f.w.delays == []
    ensures Take(s, f, op).w.now == f.w.now
  {
  }

  /** The states some interleaving reaches by steps that leave no hold dated ahead of the clock. */
  ghost predicate ReachedPromptly(s: Settings, f: Fine) {
    Reached(s, f) && ReachedInOrder(s, f) && HoldsAreDated(f)
  }

  lemma {:induction false} OneMoreInOrder(s: Settings, f: Fine, steps: seq<Step>, g: Fine, step: Step)
    requires Possible(s, f, steps) && AllDatedInOrder(s, f, steps) && g == After(s, f, steps)
    requires CanTake(s, g, step) && DatedInOrder(g, step)
    ensures Possible(s, f, steps + [step]) && AllDatedInOrder(s, f, steps + [step])
    ensures After(s, f, steps + [step]) == Next(s, g, step)
    decreases |steps|
  {
    var all := steps + [step];
    if steps == [] {
      assert all == [step] && all[1..] == [];
      assert Possible(s, Next(s, f, step), []) && AllDatedInOrder(s, Next(s, f, step), []);
    } else {
      assert all[0] == steps[0] && all[1..] == steps[1..] + [step];
      OneMoreInOrder(s, Next(s, f, steps[0]), steps[1..], g, step);
    }
  }

  lemma PromptStepIsReached(s: Settings, f: Fine, step: Step)
    requires ReachedPromptly(s, f) && CanTake(s, f, step) && step.lag == 0
    ensures ReachedPromptly(s, Next(s, f, step))
  {
    var f0, steps :| Fresh(s, f0) && Possible(s, f0, steps) && AllDatedInOrder(s, f0, steps)
                     && f == After(s, f0, steps);
    PromptStepDates(s, f, step);
    OneMoreInOrder(s, f0, steps, f, step);
    ReachedNext(s, f, step);
  }

  lemma FreshIsReachedPromptly(s: Settings, f: Fine)
    requires Fresh(s, f)
    ensures ReachedPromptly(s, f)
  {
    assert Possible(s, f, []) && AllDatedInOrder(s, f, []) && After(s, f, []) == f;
  }

  /** Every store a run of handlers reaches, some interleaving reaches, with its releases dated in order. */
  lemma HandlerRunsAreInterleavings(s: Settings, w: World) returns (f: Fine)
    requires Reachable(s, w)
    ensures Reached(s, f) && ReachedInOrder(s, f) && Mirrors(f, w)
  {
    var w0, run :| Seeded(s, w0) && Legal(s, w0, run) && w == Run(s, w0, run);
    SeededIsLinked(s, w0);
    FreshIsReachedPromptly(s, Unread(w0));
    var all := iset x | ReachedPromptly(s, x);
    forall x, step | x in all && CanTake(s, x, step) && step.lag == 0 ensures Next(s, x, step) in all {
      PromptStepIsReached(s, x, step);
    }
    f := ReplayRun(s, all, Unread(w0), w0, run);
  }

  /** For instance the backoff: no run of handlers holds a borrower again before it has waited out the last attempt. */
  lemma HandlersRespectBackoff(s: Settings, w: World, id: BorrowerId)
    requires Reachable(s, w) && id in w.borrowers
    requires w.borrowers[id].status == BorrowerStatus.Reserved && w.borrowers[id].attemptCount >= 1
    ensures var b := w.borrowers[id];
            b.lease.Some? && b.lastAttemptAt.Some?
            && b.lease.value.reservedAt >= b.lastAttemptAt.value + s.backoffBase * Pow2(b.attemptCount - 1)
  {
    var f := HandlerRunsAreInterleavings(s, w);
    HoldsRespectBackoff(s, f, id);
  }
}
