/** Each recovery action is one unit of work, and the five sweeps in order keep every link. */
module RecoveryKeepsLinks {
  import opened Basics
  import opened AgentMachine
  import opened CallMachine
  import opened Documents
  import opened Store
  import opened Effects
  import opened Handlers
  import opened Linking

  /** The agent of a call that recovery has ended: free, or logged out with its old lease still written. */
  predicate StoodDown(a: Agent, was: Agent) {
    Freed(a, was) || (a.state == AgentState.Offline && a.campaign == was.campaign && a.currentCall == was.currentCall)
  }

  /** Moved once, and not heard from in between. */
  predicate OnceMoved(a: Agent, was: Agent) {
    a.version == was.version + 1 && a.lastHeartbeat == was.lastHeartbeat
  }

  ghost predicate CallEnded(s: Settings, w: World, w': World, key: CallKey, a: Agent, b: Borrower, c: Call) {
    && key in w.calls && key.agent in w.agents && key.borrower in w.borrowers
    && w' == w.(agents := w.agents[key.agent := a], borrowers := w.borrowers[key.borrower := b],
                calls := w.calls[key := c], now := w'.now, delays := w'.delays)
    && StoodDown(a, w.agents[key.agent])
    && (exists t :: b == AfterRetry(w.borrowers[key.borrower], s.maxAttempts, s.backoffBase, t))
    && (exists t, to :: IsTerminal(to) && MoveCall(w.calls[key], to, t) == Some(c))
  }

  lemma CallEndedIsUnit(s: Settings, w: World, w': World, key: CallKey, a: Agent, b: Borrower, c: Call)
    requires Active(w, key) && Linked(w, key) && CallOk(w, key) && IndexOk(w)
    requires key.attempt == w.borrowers[key.borrower].attemptCount + 1
    requires Alone(w, key.agent, key.borrower, key)
    requires BorrowerOk(s, w.borrowers[key.borrower])
    requires CallEnded(s, w, w', key, a, b, c)
    ensures Unit(s, w, w', key)
  {
    ReplacementIsUnit(s, w, w', key.agent, key.borrower, key);
  }

  lemma CallEndedKeepsInv(s: Settings, w: World, w': World, key: CallKey, a: Agent, b: Borrower, c: Call)
    requires Inv(s, w) && Active(w, key) && CallEnded(s, w, w', key, a, b, c)
    ensures Inv(s, w')
  {
    ActiveIsAlone(s, w, key);
    CallEndedIsUnit(s, w, w', key, a, b, c);
    UnitKeepsInv(s, w, w', key);
  }

  // ---------- cancelling the call an agent is on ----------

  predicate OnActiveCall(w: World, a: Agent) {
    a.currentCall.Some? && Active(w, a.currentCall.value)
  }

  lemma CancelEffect(s: Settings, w: World, read: Agent) returns (b: Borrower, c: Call)
    requires OnActiveCall(w, read)
    requires var key := read.currentCall.value;
             && key.borrower in w.borrowers && Releasable(w.borrowers[key.borrower].status)
             && HeldBy(w.borrowers[key.borrower].lease, w.calls[key].worker) && CallConsistent(w.calls[key])
    ensures var key := read.currentCall.value;
            var w' := CancelBoundCall(s, w, read);
            && w' == w.(borrowers := w.borrowers[key.borrower := b], calls := w.calls[key := c],
                        now := w'.now, delays := w'.delays)
            && b == AfterRetry(w.borrowers[key.borrower], s.maxAttempts, s.backoffBase, w'.now)
            && exists t :: MoveCall(w.calls[key], CallState.Cancelled, t) == Some(c)
  {
    var key := read.currentCall.value;
    WonTransitionCall(w, key, CallState.Cancelled);
    var (w1, moved) := TryTransitionCall(w, key, CallState.Cancelled);
    c := moved.value;
    WonReleaseBorrower(s, w1, key.borrower, c.worker, Retry);
    b := TryReleaseBorrower(s, w1, key.borrower, c.worker, Retry).1.value;
  }

  /** If the agent is on an active call, that call is its own. */
  ghost predicate BoundOk(w: World, id: AgentId)
    requires id in w.agents
  {
    OnActiveCall(w, w.agents[id]) ==>
      var key := w.agents[id].currentCall.value;
      key.agent == id && Linked(w, key) && CallConsistent(w.calls[key])
  }

  lemma InvGivesBoundOk(s: Settings, w: World, id: AgentId)
    requires Inv(s, w) && id in w.agents
    ensures BoundOk(w, id)
  {
  }

  // ---------- standing an agent down ----------

  /** The agent's active call, if any, is cancelled and its borrower released; then the agent is stood down. */
  ghost predicate AgentStoodDown(s: Settings, w: World, w': World, id: AgentId, a: Agent) {
    && id in w.agents && StoodDown(a, w.agents[id])
    && if OnActiveCall(w, w.agents[id]) then
         var key := w.agents[id].currentCall.value;
         && key.agent == id && key in w'.calls && w'.calls[key].state == CallState.Cancelled
         && exists b, c :: CallEnded(s, w, w', key, a, b, c)
       else w' == w.(agents := w.agents[id := a], now := w'.now, delays := w'.delays)
  }

  lemma StandDownKeepsInv(s: Settings, w: World, w': World, id: AgentId, a: Agent)
    requires Inv(s, w) && AgentStoodDown(s, w, w', id, a)
    ensures Inv(s, w')
  {
    if OnActiveCall(w, w.agents[id]) {
      var key := w.agents[id].currentCall.value;
      var b, c :| CallEnded(s, w, w', key, a, b, c);
      CallEndedKeepsInv(s, w, w', key, a, b, c);
    } else {
      forall x | Active(w, x) ensures x.agent != id {
        assert Linked(w, x);
      }
      assert AgentOk(w, id);
      IdleAgentKeepsInv(s, w, w', id);
    }
  }

  lemma RecoverAgentEffect(s: Settings, w: World, id: AgentId, now: Time) returns (a: Agent)
    requires id in w.agents && AgentLeaseExpired(w.agents[id], now) && BoundOk(w, id)
    ensures AgentStoodDown(s, w, RecoverAgent(s, w, id, w.agents[id], now).0, id, a)
    ensures Freed(a, w.agents[id]) && OnceMoved(a, w.agents[id]) && a.stateChangedAt == now
    ensures RecoverAgent(s, w, id, w.agents[id], now).0.agents == w.agents[id := a]
    ensures RecoverAgent(s, w, id, w.agents[id], now).1
  {
    var read := w.agents[id];
    if OnActiveCall(w, read) {
      var b, c := CancelEffect(s, w, read);
      var (w2, r) := TryReclaimAgent(CancelBoundCall(s, w, read), id, read, now);
      a := r.value;
      assert CallEnded(s, w, w2, read.currentCall.value, a, b, c);
    } else {
      a := TryReclaimAgent(w, id, read, now).1.value;
    }
  }

  lemma LogOutEffect(s: Settings, w: World, id: AgentId) returns (a: Agent)
    requires id in w.agents && w.agents[id].state != AgentState.Offline && BoundOk(w, id)
    ensures AgentStoodDown(s, w, LogOutSilent(s, w, id, w.agents[id]).0, id, a)
    ensures a.state == AgentState.Offline && a.lease == w.agents[id].lease && OnceMoved(a, w.agents[id])
    ensures LogOutSilent(s, w, id, w.agents[id]).0.agents == w.agents[id := a]
    ensures LogOutSilent(s, w, id, w.agents[id]).1
  {
    var read := w.agents[id];
    var w1 := CancelBoundCall(s, w, read);
    if OnActiveCall(w, read) {
      var b, c := CancelEffect(s, w, read);
      WonTransitionAgent(w1, id, AgentState.Offline, Recovery);
      var (w2, r) := TryTransitionAgent(w1, id, read.state, AgentState.Offline, Recovery, read.version);
      a := r.agent;
      assert CallEnded(s, w, w2, read.currentCall.value, a, b, c);
    } else {
      WonTransitionAgent(w, id, AgentState.Offline, Recovery);
      a := TryTransitionAgent(w, id, read.state, AgentState.Offline, Recovery, read.version).1.agent;
    }
  }

  // ---------- ending a stale call ----------

  lemma RecoverCallEffect(s: Settings, w: World, key: CallKey, read: Call, reports: map<CallKey, ProviderStatus>)
    returns (a: Agent, b: Borrower, c: Call)
    requires Active(w, key) && Linked(w, key) && CallConsistent(w.calls[key])
    ensures CallEnded(s, w, RecoverCall(s, w, key, read, reports).0, key, a, b, c)
    ensures c.state == (if read.providerCallId.Some? && key in reports && reports[key] == CompletedStatus then
                          CallState.Completed
                        else CallState.Failed)
    ensures Freed(a, w.agents[key.agent]) && OnceMoved(a, w.agents[key.agent])
    ensures RecoverCall(s, w, key, read, reports).1
  {
    ReleaseSources();
    var to := Reconcile(read, key, reports);
    WonTransitionCall(w, key, to);
    var (w1, moved) := TryTransitionCall(w, key, to);
    c := moved.value;
    WonReleaseAgent(w1, key.agent, c.worker, AgentState.Available, Recovery);
    var (w2, freed) := TryReleaseAgent(w1, key.agent, c.worker, AgentState.Available, Recovery);
    a := freed.value;
    WonReleaseBorrower(s, w2, key.borrower, c.worker, Retry);
    b := TryReleaseBorrower(s, w2, key.borrower, c.worker, Retry).1.value;
  }

  // ---------- ending a wrap-up ----------

  lemma FinishWrapUpEffect(w: World, id: AgentId, actor: Actor) returns (a: Agent)
    requires id in w.agents && w.agents[id].state == AgentState.WrapUp
    requires actor == Recovery || actor == WorkerTimer
    ensures AgentSet(w, FinishWrapUp(w, id, w.agents[id], actor).0, id, a)
    ensures var now := FinishWrapUp(w, id, w.agents[id], actor).0.now;
            a == MoveAgent(CloseInterval(w.agents[id], now), AgentState.Available, now)
    ensures FinishWrapUp(w, id, w.agents[id], actor).1
  {
    WonTransitionAgent(w, id, AgentState.Available, actor);
    a := TryTransitionAgent(w, id, AgentState.WrapUp, AgentState.Available, actor, w.agents[id].version).1.agent;
  }

  lemma FinishWrapUpKeepsInv(s: Settings, w: World, id: AgentId, actor: Actor)
    requires Inv(s, w) && id in w.agents && w.agents[id].state == AgentState.WrapUp
    requires actor == Recovery || actor == WorkerTimer
    ensures Inv(s, FinishWrapUp(w, id, w.agents[id], actor).0)
  {
    IdleHasNoCall(s, w, id);
    assert AgentOk(w, id);
    var a := FinishWrapUpEffect(w, id, actor);
    IdleAgentKeepsInv(s, w, FinishWrapUp(w, id, w.agents[id], actor).0, id);
  }
}
