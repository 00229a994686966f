/**
 * A store that is linked but for the agent, the borrower and the call of one dial: what each recovery
 * sweep does to those three, while it keeps everything else linked.
 */
module DialResidue {
  import opened Basics
  import opened AgentMachine
  import opened CallMachine
  import opened Documents
  import opened Store
  import opened Effects
  import opened Handlers
  import opened Linking
  import opened RecoveryKeepsLinks
  import opened SweepsKeepLinks
  import opened LimitedSweeps
  import opened RecoveryFixpoint

  // ---------- a linked store but for one dial ----------

  /** `x` is the store `y` but for the agent, the borrower and the call of key `k`, which `y` does not have. */
  ghost predicate Beside(x: World, y: World, k: CallKey) {
    && k !in y.calls
    && k.agent in x.agents && k.borrower in x.borrowers
    && x.agents.Keys == y.agents.Keys && x.borrowers.Keys == y.borrowers.Keys
    && (forall id :: id in x.agents && id != k.agent ==> x.agents[id] == y.agents[id])
    && (forall id :: id in x.borrowers && id != k.borrower ==> x.borrowers[id] == y.borrowers[id])
    && (forall z :: z in x.calls && z != k ==> z in y.calls)
    && (forall z :: z in y.calls ==> z in x.calls && x.calls[z] == y.calls[z])
    && Alone(y, k.agent, k.borrower, k)
    && y.agents[k.agent].campaign == k.campaign && y.borrowers[k.borrower].campaign == k.campaign
    && y.borrowers[k.borrower].attemptCount + 1 == k.attempt
  }

  /** The dial's own three documents: the agent on no open call, the attempt not counted. */
  ghost predicate Leftover(s: Settings, x: World, k: CallKey)
    requires k.agent in x.agents && k.borrower in x.borrowers
  {
    var a, b := x.agents[k.agent], x.borrowers[k.borrower];
    && a.campaign == k.campaign && b.campaign == k.campaign
    && (Resting(a) || (a.state in Reclaimable() && a.lease.Some?))
    && (a.currentCall.Some? ==> a.currentCall.value in x.calls && a.currentCall.value.agent == k.agent)
    && (a.currentCall == Some(k) ==> x.calls[k].terminal)
    && BorrowerOk(s, b) && b.attemptCount + 1 == k.attempt
    && (k in x.calls ==> CallConsistent(x.calls[k]))
    && IndexOk(x)
  }

  predicate Resting(a: Agent) {
    a.state == AgentState.Available || a.state == AgentState.Offline
    || (a.state == AgentState.WrapUp && a.lease.None?)
  }

  ghost predicate Residue(s: Settings, x: World, y: World, k: CallKey) {
    Inv(s, y) && Beside(x, y, k) && Leftover(s, x, k)
  }

  /** The store is linked but for the dial of key `k`. */
  ghost predicate LinkedBut(s: Settings, x: World, k: CallKey) {
    exists y :: Residue(s, x, y, k)
  }

  function AgentOf(x: World, k: CallKey): Option<Agent> {
    if k.agent in x.agents then Some(x.agents[k.agent]) else None
  }

  function BorrowerOf(x: World, k: CallKey): Option<Borrower> {
    if k.borrower in x.borrowers then Some(x.borrowers[k.borrower]) else None
  }

  function CallOf(x: World, k: CallKey): Option<Call> {
    if k in x.calls then Some(x.calls[k]) else None
  }

  predicate SameAgent(x: World, x': World, k: CallKey) {
    AgentOf(x', k) == AgentOf(x, k)
  }

  predicate SameBorrower(x: World, x': World, k: CallKey) {
    BorrowerOf(x', k) == BorrowerOf(x, k)
  }

  predicate SameCall(x: World, x': World, k: CallKey) {
    CallOf(x', k) == CallOf(x, k)
  }

  lemma OffTheCall(s: Settings, x: World, y: World, k: CallKey)
    requires Residue(s, x, y, k)
    ensures !OnActiveCall(x, x.agents[k.agent])
  {
    var a := x.agents[k.agent];
    if a.currentCall.Some? && a.currentCall.value != k { assert !Active(y, a.currentCall.value); }
  }

  lemma OtherIsBound(s: Settings, x: World, y: World, k: CallKey, id: AgentId)
    requires Residue(s, x, y, k) && id in x.agents && id != k.agent
    ensures BoundOk(x, id) && OnActiveCall(x, x.agents[id]) == OnActiveCall(y, y.agents[id])
    ensures id in y.agents && AgentOk(y, id)
    ensures OnActiveCall(x, x.agents[id]) ==> Active(y, x.agents[id].currentCall.value)
  {
    assert AgentOk(y, id);
    InvGivesBoundOk(s, y, id);
    if OnActiveCall(x, x.agents[id]) {
      var z := x.agents[id].currentCall.value;
      assert z != k && Active(y, z) && Linked(y, z);
    }
  }

  // ---------- the other documents ----------

  lemma EndedBeside(
    s: Settings, x: World, y: World, k: CallKey, x': World, y': World, z: CallKey, a: Agent, b: Borrower, c: Call
  )
    requires Beside(x, y, k) && Active(y, z) && z != k && z.agent != k.agent && z.borrower != k.borrower
    requires CallEnded(s, x, x', z, a, b, c) && CallEnded(s, y, y', z, a, b, c)
    ensures Beside(x', y', k)
  {
    ReplacedBeside(x, y, k, x', y', z, a, b, c);
  }

  lemma ReplacedBeside(x: World, y: World, k: CallKey, x': World, y': World, z: CallKey, a: Agent, b: Borrower, c: Call)
    requires Beside(x, y, k) && Active(y, z) && z != k && z.agent != k.agent && z.borrower != k.borrower
    requires z.agent in x.agents && x'.agents == x.agents[z.agent := a] && y'.agents == y.agents[z.agent := a]
    requires z.borrower in x.borrowers
    requires x'.borrowers == x.borrowers[z.borrower := b] && y'.borrowers == y.borrowers[z.borrower := b]
    requires x'.calls == x.calls[z := c] && y'.calls == y.calls[z := c]
    ensures Beside(x', y', k)
  {
  }

  lemma EndedLeavesLeftover(s: Settings, x: World, k: CallKey, x': World, z: CallKey, a: Agent, b: Borrower, c: Call)
    requires k.agent in x.agents && k.borrower in x.borrowers && Leftover(s, x, k)
    requires z != k && z.agent != k.agent && z.borrower != k.borrower && CallEnded(s, x, x', z, a, b, c)
    ensures Leftover(s, x', k) && SameAgent(x, x', k) && SameBorrower(x, x', k) && SameCall(x, x', k)
  {
  }

  /** Ending another call in `x` can be followed in `y`. */
  lemma FollowEndedCall(
    s: Settings, x: World, y: World, k: CallKey, x': World, z: CallKey, a: Agent, b: Borrower, c: Call
  )
    returns (y': World)
    requires Residue(s, x, y, k) && Active(y, z) && CallEnded(s, x, x', z, a, b, c)
    ensures Residue(s, x', y', k) && SameAgent(x, x', k) && SameBorrower(x, x', k) && SameCall(x, x', k)
  {
    y' := y.(agents := y.agents[z.agent := a], borrowers := y.borrowers[z.borrower := b], calls := y.calls[z := c]);
    EndedThere(s, x, y, k, x', y', z, a, b, c);
    CallEndedKeepsInv(s, y, y', z, a, b, c);
    EndedBeside(s, x, y, k, x', y', z, a, b, c);
    EndedLeavesLeftover(s, x, k, x', z, a, b, c);
  }

  lemma EndedThere(
    s: Settings, x: World, y: World, k: CallKey, x': World, y': World, z: CallKey, a: Agent, b: Borrower, c: Call
  )
    requires Beside(x, y, k) && Active(y, z) && CallEnded(s, x, x', z, a, b, c)
    requires y' == y.(agents := y.agents[z.agent := a], borrowers := y.borrowers[z.borrower := b],
                      calls := y.calls[z := c])
    ensures z != k && z.agent != k.agent && z.borrower != k.borrower && CallEnded(s, y, y', z, a, b, c)
  {
  }

  /** `x'` is `x` with another agent replaced. */
  predicate OtherAgentSet(x: World, x': World, k: CallKey, id: AgentId, a: Agent) {
    id in x.agents && id != k.agent && a.campaign == x.agents[id].campaign
    && x' == x.(agents := x.agents[id := a], now := x'.now, delays := x'.delays)
  }

  lemma AgentSetBeside(x: World, y: World, k: CallKey, x': World, id: AgentId, a: Agent, y': World)
    requires Beside(x, y, k) && OtherAgentSet(x, x', k, id, a) && y' == y.(agents := y.agents[id := a])
    ensures Beside(x', y', k)
  {
  }

  lemma AgentSetLeavesLeftover(s: Settings, x: World, k: CallKey, x': World, id: AgentId, a: Agent)
    requires k.agent in x.agents && k.borrower in x.borrowers && Leftover(s, x, k) && OtherAgentSet(x, x', k, id, a)
    ensures Leftover(s, x', k) && SameAgent(x, x', k) && SameBorrower(x, x', k) && SameCall(x, x', k)
  {
  }

  /** So can standing another agent down. */
  lemma FollowStandDown(s: Settings, x: World, y: World, k: CallKey, x': World, id: AgentId, a: Agent)
    returns (y': World)
    requires Residue(s, x, y, k) && id in x.agents && id != k.agent && AgentStoodDown(s, x, x', id, a)
    ensures Residue(s, x', y', k) && SameAgent(x, x', k) && SameBorrower(x, x', k) && SameCall(x, x', k)
  {
    OtherIsBound(s, x, y, k, id);
    if OnActiveCall(x, x.agents[id]) {
      var z := x.agents[id].currentCall.value;
      var b, c :| CallEnded(s, x, x', z, a, b, c);
      y' := FollowEndedCall(s, x, y, k, x', z, a, b, c);
    } else {
      y' := y.(agents := y.agents[id := a]);
      StoodDownThere(s, x, y, x', id, a, y');
      StandDownKeepsInv(s, y, y', id, a);
      AgentSetBeside(x, y, k, x', id, a, y');
      AgentSetLeavesLeftover(s, x, k, x', id, a);
    }
  }

  lemma StoodDownThere(s: Settings, x: World, y: World, x': World, id: AgentId, a: Agent, y': World)
    requires id in x.agents && id in y.agents && y.agents[id] == x.agents[id]
    requires !OnActiveCall(x, x.agents[id]) && !OnActiveCall(y, y.agents[id])
    requires AgentStoodDown(s, x, x', id, a) && y' == y.(agents := y.agents[id := a])
    ensures AgentStoodDown(s, y, y', id, a) && a.campaign == x.agents[id].campaign
    ensures x' == x.(agents := x.agents[id := a], now := x'.now, delays := x'.delays)
  {
  }

  // ---------- the agent sweep ----------

  lemma OwnAgentStoodDown(s: Settings, x: World, y: World, k: CallKey, x': World, a: Agent)
    requires Residue(s, x, y, k) && AgentStoodDown(s, x, x', k.agent, a)
    ensures Residue(s, x', y, k) && SameBorrower(x, x', k) && SameCall(x, x', k)
    ensures k.agent in x'.agents && x'.agents[k.agent] == a
  {
    OffTheCall(s, x, y, k);
    OwnAgentSet(s, x, y, k, x', a);
  }

  lemma OwnAgentSet(s: Settings, x: World, y: World, k: CallKey, x': World, a: Agent)
    requires Beside(x, y, k) && Leftover(s, x, k) && StoodDown(a, x.agents[k.agent])
    requires x' == x.(agents := x.agents[k.agent := a], now := x'.now, delays := x'.delays)
    ensures Beside(x', y, k) && Leftover(s, x', k) && SameBorrower(x, x', k) && SameCall(x, x', k)
  {
  }

  lemma RecoverOne(s: Settings, x: World, y: World, k: CallKey, id: AgentId, now: Time, x': World) returns (y': World)
    requires Residue(s, x, y, k) && id in x.agents && AgentLeaseExpired(x.agents[id], now)
    requires x' == RecoverAgent(s, x, id, x.agents[id], now).0
    ensures Residue(s, x', y', k) && SameBorrower(x, x', k) && SameCall(x, x', k)
    ensures SameAgent(x, x', k) || (Resting(x'.agents[k.agent]) && x'.agents[k.agent].lease.None?)
    ensures OthersSame(x, x', [id])
  {
    y' := y;
    if id == k.agent {
      RecoverOwn(s, x, y, k, now, x');
    } else {
      y' := RecoverOther(s, x, y, k, id, now, x');
    }
  }

  lemma RecoverOwn(s: Settings, x: World, y: World, k: CallKey, now: Time, x': World)
    requires Residue(s, x, y, k) && AgentLeaseExpired(x.agents[k.agent], now)
    requires x' == RecoverAgent(s, x, k.agent, x.agents[k.agent], now).0
    ensures Residue(s, x', y, k) && SameBorrower(x, x', k) && SameCall(x, x', k)
    ensures Resting(x'.agents[k.agent]) && x'.agents[k.agent].lease.None?
    ensures OthersSame(x, x', [k.agent])
  {
    OffTheCall(s, x, y, k);
    var a := RecoverAgentEffect(s, x, k.agent, now);
    OwnAgentStoodDown(s, x, y, k, x', a);
  }

  lemma RecoverOther(s: Settings, x: World, y: World, k: CallKey, id: AgentId, now: Time, x': World) returns (y': World)
    requires Residue(s, x, y, k) && id in x.agents && id != k.agent && AgentLeaseExpired(x.agents[id], now)
    requires x' == RecoverAgent(s, x, id, x.agents[id], now).0
    ensures Residue(s, x', y', k) && SameAgent(x, x', k) && SameBorrower(x, x', k) && SameCall(x, x', k)
    ensures OthersSame(x, x', [id])
  {
    OtherIsBound(s, x, y, k, id);
    var a := Recovered(s, x, id, now, x');
    y' := FollowStandDown(s, x, y, k, x', id, a);
  }

  lemma Recovered(s: Settings, x: World, id: AgentId, now: Time, x': World) returns (a: Agent)
    requires id in x.agents && AgentLeaseExpired(x.agents[id], now) && BoundOk(x, id)
    requires x' == RecoverAgent(s, x, id, x.agents[id], now).0
    ensures AgentStoodDown(s, x, x', id, a) && OthersSame(x, x', [id])
  {
    a := RecoverAgentEffect(s, x, id, now);
  }

  lemma {:induction false} AgentSweepResidue(
    s: Settings, x: World, k: CallKey, ids: seq<AgentId>, read: map<AgentId, Agent>, now: Time, done: nat
  )
    requires LinkedBut(s, x, k) && Distinct(ids) && AgentsFresh(x, ids, read)
    requires forall id :: id in ids ==> AgentLeaseExpired(read[id], now)
    ensures var x' := AgentSweep(s, x, ids, read, now, done).0;
            && LinkedBut(s, x', k) && SameBorrower(x, x', k) && SameCall(x, x', k)
            && (SameAgent(x, x', k)
                || (k.agent in x'.agents && Resting(x'.agents[k.agent]) && x'.agents[k.agent].lease.None?))
    decreases |ids|
  {
    if ids == [] {
    } else {
      var y :| Residue(s, x, y, k);
      var (x1, ok) := RecoverAgent(s, x, ids[0], read[ids[0]], now);
      var y1 := RecoverOne(s, x, y, k, ids[0], now, x1);
      FreshOnward(x, x1, ids, read);
      AgentSweepResidue(s, x1, k, ids[1..], read, now, if ok then done + 1 else done);
    }
  }

  // ---------- the borrower sweep ----------

  predicate OtherBorrowerSet(x: World, x': World, k: CallKey, id: BorrowerId, b: Borrower) {
    id in x.borrowers && id != k.borrower && b.campaign == x.borrowers[id].campaign
    && x' == x.(borrowers := x.borrowers[id := b], now := x'.now, delays := x'.delays)
  }

  lemma BorrowerSetBeside(
    s: Settings, x: World, y: World, k: CallKey, x': World, id: BorrowerId, b: Borrower, y': World
  )
    requires Beside(x, y, k) && Leftover(s, x, k)
    requires OtherBorrowerSet(x, x', k, id, b) && y' == y.(borrowers := y.borrowers[id := b])
    ensures Beside(x', y', k) && Leftover(s, x', k)
    ensures SameAgent(x, x', k) && SameBorrower(x, x', k) && SameCall(x, x', k)
  {
  }

  lemma OwnBorrowerReclaimed(s: Settings, x: World, y: World, k: CallKey, now: Time, x': World)
    requires Beside(x, y, k) && Leftover(s, x, k) && BorrowerLeaseExpired(x.borrowers[k.borrower], now)
    requires x' == TryReclaimBorrower(x, k.borrower, x.borrowers[k.borrower], now).0
    ensures Beside(x', y, k) && Leftover(s, x', k)
    ensures SameAgent(x, x', k) && SameCall(x, x', k) && x'.borrowers[k.borrower].lease.None?
  {
  }

  lemma ReclaimOne(s: Settings, x: World, y: World, k: CallKey, id: BorrowerId, now: Time, x': World)
    requires Residue(s, x, y, k) && id in x.borrowers && BorrowerLeaseExpired(x.borrowers[id], now)
    requires forall z :: Active(x, z) && z != k ==> z.borrower != id
    requires x' == TryReclaimBorrower(x, id, x.borrowers[id], now).0
    ensures LinkedBut(s, x', k) && SameAgent(x, x', k)
    ensures SameBorrower(x, x', k)
            || (k.borrower == id && k.borrower in x'.borrowers && x'.borrowers[k.borrower].lease.None?)
  {
    if id == k.borrower {
      OwnBorrowerReclaimed(s, x, y, k, now, x');
      assert Residue(s, x', y, k);
    } else {
      ReclaimOther(s, x, y, k, id, now, x');
    }
  }

  lemma ReclaimOther(s: Settings, x: World, y: World, k: CallKey, id: BorrowerId, now: Time, x': World)
    requires Residue(s, x, y, k) && id in x.borrowers && id != k.borrower && BorrowerLeaseExpired(x.borrowers[id], now)
    requires forall z :: Active(x, z) && z != k ==> z.borrower != id
    requires x' == TryReclaimBorrower(x, id, x.borrowers[id], now).0
    ensures LinkedBut(s, x', k) && SameAgent(x, x', k) && SameBorrower(x, x', k)
  {
    var b := TryReclaimBorrower(x, id, x.borrowers[id], now).1.value;
    var y' := y.(borrowers := y.borrowers[id := b]);
    assert BorrowerOk(s, y.borrowers[id]);
    forall z | Active(y, z) ensures z.borrower != id {
      assert Active(x, z) && z != k;
    }
    IdleBorrowerKeepsInv(s, y, y', id);
    BorrowerSetBeside(s, x, y, k, x', id, b, y');
    assert Residue(s, x', y', k);
  }

  lemma ReclaimFirst(s: Settings, x: World, k: CallKey, id: BorrowerId, now: Time, x': World)
    requires LinkedBut(s, x, k) && id in x.borrowers && BorrowerLeaseExpired(x.borrowers[id], now)
    requires forall z :: Active(x, z) && z != k ==> z.borrower != id
    requires x' == TryReclaimBorrower(x, id, x.borrowers[id], now).0
    ensures LinkedBut(s, x', k) && SameAgent(x, x', k) && x'.calls == x.calls
    ensures SameBorrower(x, x', k)
            || (k.borrower == id && k.borrower in x'.borrowers && x'.borrowers[k.borrower].lease.None?)
    ensures forall b :: b in x.borrowers && b != id ==> b in x'.borrowers && x'.borrowers[b] == x.borrowers[b]
  {
    var y :| Residue(s, x, y, k);
    ReclaimOne(s, x, y, k, id, now, x');
    ReclaimFrame(x, id, now);
  }

  lemma ReclaimFrame(x: World, id: BorrowerId, now: Time)
    requires id in x.borrowers
    ensures var x' := TryReclaimBorrower(x, id, x.borrowers[id], now).0;
            x'.calls == x.calls
            && forall b :: b in x.borrowers && b != id ==> b in x'.borrowers && x'.borrowers[b] == x.borrowers[b]
  {
  }

  predicate BorrowersFresh(x: World, ids: seq<BorrowerId>, read: map<BorrowerId, Borrower>, now: Time) {
    && Distinct(ids)
    && forall b :: b in ids ==>
         b in read && b in x.borrowers && x.borrowers[b] == read[b] && BorrowerLeaseExpired(read[b], now)
  }

  lemma BorrowersFreshOnward(x: World, x1: World, ids: seq<BorrowerId>, read: map<BorrowerId, Borrower>, now: Time)
    requires ids != [] && BorrowersFresh(x, ids, read, now)
    requires forall b :: b in x.borrowers && b != ids[0] ==> b in x1.borrowers && x1.borrowers[b] == x.borrowers[b]
    ensures BorrowersFresh(x1, ids[1..], read, now)
  {
  }

  lemma {:induction false} BorrowerSweepResidue(
    s: Settings, x: World, k: CallKey, ids: seq<BorrowerId>, read: map<BorrowerId, Borrower>, now: Time, done: nat
  )
    requires LinkedBut(s, x, k) && BorrowersFresh(x, ids, read, now)
    requires forall z :: Active(x, z) && z != k ==> z.borrower !in ids
    ensures var x' := BorrowerSweep(x, ids, read, now, done).0;
            && LinkedBut(s, x', k) && SameAgent(x, x', k) && SameCall(x, x', k)
            && (SameBorrower(x, x', k)
                || (k.borrower in ids && k.borrower in x'.borrowers && x'.borrowers[k.borrower].lease.None?))
    decreases |ids|
  {
    if ids == [] {
    } else {
      var (x1, r) := TryReclaimBorrower(x, ids[0], read[ids[0]], now);
      ReclaimFirst(s, x, k, ids[0], now, x1);
      BorrowersFreshOnward(x, x1, ids, read, now);
      BorrowerSweepResidue(s, x1, k, ids[1..], read, now, if r.Some? then done + 1 else done);
    }
  }

  // ---------- the call sweep ----------

  /** If the dial's call is open, nobody holds its agent or its borrower. */
  predicate Loose(x: World, k: CallKey) {
    Active(x, k) ==>
    && k.agent in x.agents && x.agents[k.agent].lease.None?
    && k.borrower in x.borrowers && x.borrowers[k.borrower].lease.None?
  }

  predicate SameOrOver(x: World, x': World, k: CallKey) {
    CallOf(x', k) == CallOf(x, k) || (CallOf(x, k).Some? && CallOf(x', k).Some? && CallOf(x', k).value.terminal)
  }

  lemma LinkedHere(s: Settings, x: World, y: World, k: CallKey, z: CallKey)
    requires Residue(s, x, y, k) && Active(x, z) && z != k
    ensures Active(y, z) && Linked(x, z) && CallConsistent(x.calls[z])
  {
    assert Active(y, z);
    assert Linked(y, z) && CallOk(y, z);
  }

  lemma OwnCallEnded(s: Settings, x: World, k: CallKey, reports: map<CallKey, ProviderStatus>, x': World)
    requires Active(x, k) && CallConsistent(x.calls[k]) && Loose(x, k)
    requires x' == RecoverCall(s, x, k, x.calls[k], reports).0
    ensures k in x'.calls && x'.calls[k].terminal && CallConsistent(x'.calls[k])
    ensures x'.calls[k].provider == x.calls[k].provider && x'.calls[k].providerCallId == x.calls[k].providerCallId
    ensures x' == x.(calls := x.calls[k := x'.calls[k]], now := x'.now, delays := x'.delays)
  {
    var to := Reconcile(x.calls[k], k, reports);
    WonTransitionCall(x, k, to);
    var (x1, moved) := TryTransitionCall(x, k, to);
    var (x2, r) := TryReleaseAgent(x1, k.agent, moved.value.worker, AgentState.Available, Recovery);
    assert r.None?;
    assert ReleaseCallBorrower(s, x2, k, moved.value) == Tick(x2);
  }

  lemma OwnCallSet(s: Settings, x: World, y: World, k: CallKey, x': World, c: Call)
    requires Beside(x, y, k) && Leftover(s, x, k) && k in x.calls && c.terminal && CallConsistent(c)
    requires c.provider == x.calls[k].provider && c.providerCallId == x.calls[k].providerCallId
    requires x' == x.(calls := x.calls[k := c], now := x'.now, delays := x'.delays)
    ensures Beside(x', y, k) && Leftover(s, x', k) && SameAgent(x, x', k) && SameBorrower(x, x', k)
  {
    OwnCallBeside(x, y, k, x', c);
    assert IndexOk(x');
  }

  lemma OwnCallBeside(x: World, y: World, k: CallKey, x': World, c: Call)
    requires Beside(x, y, k) && x' == x.(calls := x.calls[k := c], now := x'.now, delays := x'.delays)
    ensures Beside(x', y, k)
  {
  }

  lemma FinishOther(
    s: Settings, x: World, y: World, k: CallKey, z: CallKey, reports: map<CallKey, ProviderStatus>, x': World
  ) returns (y': World)
    requires Residue(s, x, y, k) && Active(x, z) && z != k && x' == RecoverCall(s, x, z, x.calls[z], reports).0
    ensures Residue(s, x', y', k) && SameAgent(x, x', k) && SameBorrower(x, x', k) && SameCall(x, x', k)
    ensures forall q :: q in x.calls && q != z ==> q in x'.calls && x'.calls[q] == x.calls[q]
  {
    LinkedHere(s, x, y, k, z);
    var a, b, c := RecoverCallEffect(s, x, z, x.calls[z], reports);
    y' := FollowEndedCall(s, x, y, k, x', z, a, b, c);
  }

  lemma FinishOne(
    s: Settings, x: World, y: World, k: CallKey, z: CallKey, reports: map<CallKey, ProviderStatus>, x': World
  ) returns (y': World)
    requires Residue(s, x, y, k) && Active(x, z) && Loose(x, k)
    requires x' == RecoverCall(s, x, z, x.calls[z], reports).0
    ensures Residue(s, x', y', k) && SameAgent(x, x', k) && SameBorrower(x, x', k)
    ensures SameOrOver(x, x', k)
    ensures forall q :: q in x.calls && q != z ==> q in x'.calls && x'.calls[q] == x.calls[q]
  {
    if z == k {
      OwnCallEnded(s, x, k, reports, x');
      OwnCallSet(s, x, y, k, x', x'.calls[k]);
      y' := y;
    } else {
      y' := FinishOther(s, x, y, k, z, reports, x');
    }
  }

  lemma CallsFreshOnward(x: World, x1: World, keys: seq<CallKey>, read: map<CallKey, Call>)
    requires keys != [] && Distinct(keys) && CallsFresh(x, keys, read)
    requires forall q :: q in x.calls && q != keys[0] ==> q in x1.calls && x1.calls[q] == x.calls[q]
    ensures Distinct(keys[1..]) && CallsFresh(x1, keys[1..], read)
  {
  }

  lemma FinishFirst(s: Settings, x: World, k: CallKey, z: CallKey, reports: map<CallKey, ProviderStatus>, x': World)
    requires LinkedBut(s, x, k) && Active(x, z) && Loose(x, k) && x' == RecoverCall(s, x, z, x.calls[z], reports).0
    ensures LinkedBut(s, x', k) && SameAgent(x, x', k) && SameBorrower(x, x', k)
    ensures SameOrOver(x, x', k)
    ensures forall q :: q in x.calls && q != z ==> q in x'.calls && x'.calls[q] == x.calls[q]
  {
    var y :| Residue(s, x, y, k);
    var _ := FinishOne(s, x, y, k, z, reports, x');
  }

  lemma {:induction false} CallSweepResidue(
    s: Settings, x: World, k: CallKey, keys: seq<CallKey>, read: map<CallKey, Call>,
    reports: map<CallKey, ProviderStatus>, done: nat
  )
    requires LinkedBut(s, x, k) && Loose(x, k) && Distinct(keys) && CallsFresh(x, keys, read)
    ensures var x' := CallSweep(s, x, keys, read, reports, done).0;
            && LinkedBut(s, x', k) && SameAgent(x, x', k) && SameBorrower(x, x', k)
            && SameOrOver(x, x', k)
    decreases |keys|
  {
    if keys == [] {
    } else {
      var (x1, ok) := RecoverCall(s, x, keys[0], read[keys[0]], reports);
      FinishFirst(s, x, k, keys[0], reports, x1);
      CallsFreshOnward(x, x1, keys, read);
      CallSweepResidue(s, x1, k, keys[1..], read, reports, if ok then done + 1 else done);
    }
  }

  // ---------- the last two sweeps ----------

  lemma LogOutOne(s: Settings, x: World, y: World, k: CallKey, id: AgentId, x': World) returns (y': World)
    requires Residue(s, x, y, k) && id in x.agents && x.agents[id].state != AgentState.Offline
    requires x' == LogOutSilent(s, x, id, x.agents[id]).0
    ensures Residue(s, x', y', k) && SameBorrower(x, x', k) && SameCall(x, x', k)
    ensures SameAgent(x, x', k) || Resting(x'.agents[k.agent])
    ensures OthersSame(x, x', [id])
  {
    if id == k.agent {
      OffTheCall(s, x, y, k);
      var a := LoggedOut(s, x, id, x');
      OwnAgentStoodDown(s, x, y, k, x', a);
      y' := y;
    } else {
      OtherIsBound(s, x, y, k, id);
      var a := LoggedOut(s, x, id, x');
      y' := FollowStandDown(s, x, y, k, x', id, a);
    }
  }

  lemma LoggedOut(s: Settings, x: World, id: AgentId, x': World) returns (a: Agent)
    requires id in x.agents && x.agents[id].state != AgentState.Offline && BoundOk(x, id)
    requires x' == LogOutSilent(s, x, id, x.agents[id]).0
    ensures AgentStoodDown(s, x, x', id, a) && OthersSame(x, x', [id]) && Resting(a)
  {
    a := LogOutEffect(s, x, id);
  }

  lemma {:induction false} HeartbeatSweepResidue(
    s: Settings, x: World, k: CallKey, ids: seq<AgentId>, read: map<AgentId, Agent>, done: nat
  )
    requires LinkedBut(s, x, k) && Distinct(ids) && AgentsFresh(x, ids, read)
    requires forall id :: id in ids ==> read[id].state != AgentState.Offline
    ensures var x' := HeartbeatSweep(s, x, ids, read, done).0;
            && LinkedBut(s, x', k) && SameBorrower(x, x', k) && SameCall(x, x', k)
            && (SameAgent(x, x', k) || (k.agent in x'.agents && Resting(x'.agents[k.agent])))
    decreases |ids|
  {
    if ids == [] {
    } else {
      var y :| Residue(s, x, y, k);
      var (x1, ok) := LogOutSilent(s, x, ids[0], read[ids[0]]);
      var y1 := LogOutOne(s, x, y, k, ids[0], x1);
      FreshOnward(x, x1, ids, read);
      HeartbeatSweepResidue(s, x1, k, ids[1..], read, if ok then done + 1 else done);
    }
  }

  lemma EndWrapUpOne(s: Settings, x: World, y: World, k: CallKey, id: AgentId, x': World) returns (y': World)
    requires Residue(s, x, y, k) && id in x.agents && x.agents[id].state == AgentState.WrapUp
    requires x' == FinishWrapUp(x, id, x.agents[id], Recovery).0
    ensures Residue(s, x', y', k) && SameBorrower(x, x', k) && SameCall(x, x', k)
    ensures SameAgent(x, x', k) || Resting(x'.agents[k.agent])
    ensures OthersSame(x, x', [id])
  {
    var a := FinishWrapUpEffect(x, id, Recovery);
    if id == k.agent {
      y' := y;
      OwnWrapUpEnded(s, x, y, k, x', a);
    } else {
      y' := OtherWrapUpEnded(s, x, y, k, id, x', a);
    }
  }

  lemma OtherWrapUpEnded(s: Settings, x: World, y: World, k: CallKey, id: AgentId, x': World, a: Agent)
    returns (y': World)
    requires Residue(s, x, y, k) && id in x.agents && id != k.agent && x.agents[id].state == AgentState.WrapUp
    requires AgentSet(x, x', id, a) && a.state == AgentState.Available
    requires a.campaign == x.agents[id].campaign && a.currentCall == x.agents[id].currentCall
    ensures Residue(s, x', y', k) && SameAgent(x, x', k) && SameBorrower(x, x', k) && SameCall(x, x', k)
  {
    y' := y.(agents := y.agents[id := a]);
    assert AgentOk(y, id);
    IdleHasNoCall(s, y, id);
    IdleAgentKeepsInv(s, y, y', id);
    AgentSetBeside(x, y, k, x', id, a, y');
    AgentSetLeavesLeftover(s, x, k, x', id, a);
  }

  lemma OwnWrapUpEnded(s: Settings, x: World, y: World, k: CallKey, x': World, a: Agent)
    requires Beside(x, y, k) && Leftover(s, x, k) && AgentSet(x, x', k.agent, a)
    requires a.state == AgentState.Available && a.campaign == x.agents[k.agent].campaign
    requires a.currentCall == x.agents[k.agent].currentCall
    ensures Beside(x', y, k) && Leftover(s, x', k) && SameBorrower(x, x', k) && SameCall(x, x', k)
  {
  }

  lemma {:induction false} WrapUpSweepResidue(
    s: Settings, x: World, k: CallKey, ids: seq<AgentId>, read: map<AgentId, Agent>, done: nat
  )
    requires LinkedBut(s, x, k) && Distinct(ids) && AgentsFresh(x, ids, read)
    requires forall id :: id in ids ==> read[id].state == AgentState.WrapUp
    ensures var x' := WrapUpSweep(x, ids, read, Recovery, done).0;
            && LinkedBut(s, x', k) && SameBorrower(x, x', k) && SameCall(x, x', k)
            && (SameAgent(x, x', k) || (k.agent in x'.agents && Resting(x'.agents[k.agent])))
    decreases |ids|
  {
    if ids == [] {
    } else {
      var y :| Residue(s, x, y, k);
      var (x1, ok) := FinishWrapUp(x, ids[0], read[ids[0]], Recovery);
      var y1 := EndWrapUpOne(s, x, y, k, ids[0], x1);
      FreshOnward(x, x1, ids, read);
      WrapUpSweepResidue(s, x1, k, ids[1..], read, if ok then done + 1 else done);
    }
  }
}
