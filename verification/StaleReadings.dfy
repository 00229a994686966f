/**
 * A recovery worker acting on a reading that something has happened since: exactly when what it then
 * does keeps every link.
 */
module StaleReadings {
  import opened Basics
  import opened AgentMachine
  import opened CallMachine
  import opened Documents
  import opened Store
  import opened Effects
  import opened Handlers
  import opened Linking
  import opened RecoveryKeepsLinks
  import opened Interleavings
  import opened AgentsInterleaved
  import opened InterleavingTheorems

  /** A reading of agent `id`, however old: the call it names, if any, is one of its own. */
  predicate ReadOf(id: AgentId, read: Agent) {
    read.currentCall.Some? ==> read.currentCall.value.agent == id
  }

  /** Only the agent changed, to `a`, while the call it is stored with is still open. */
  lemma UnseenCallIsOrphaned(s: Settings, w: World, w': World, id: AgentId, a: Agent)
    requires Inv(s, w) && id in w.agents && OnActiveCall(w, w.agents[id])
    requires w' == w.(agents := w.agents[id := a], now := w'.now, delays := w'.delays)
    requires a.state == AgentState.Available || a.state == AgentState.Offline
    ensures !Inv(s, w')
  {
    var key := w.agents[id].currentCall.value;
    InvGivesBoundOk(s, w, id);
    assert Active(w', key);
    assert !AgentServes(w'.agents[id], key, w'.calls[key]);
  }

  lemma ActiveBindsItsAgent(s: Settings, w: World, key: CallKey)
    requires Inv(s, w) && Active(w, key)
    ensures key.agent in w.agents && w.agents[key.agent].currentCall == Some(key)
  {
    assert Linked(w, key);
  }

  /** An agent of one call is on no other, so a reading that names another call names one that is over. */
  lemma OtherCallIsOver(s: Settings, w: World, id: AgentId, read: Agent)
    requires Inv(s, w) && id in w.agents && ReadOf(id, read) && read.currentCall != w.agents[id].currentCall
    ensures CancelBoundCall(s, w, read) == w
  {
    if read.currentCall.Some? && Active(w, read.currentCall.value) {
      ActiveBindsItsAgent(s, w, read.currentCall.value);
      assert false;
    }
  }

  /** Ending the call an agent is on counts its attempt and keeps every link, whatever becomes of the agent. */
  lemma CancellingKeepsInv(s: Settings, w: World, id: AgentId)
    requires Inv(s, w) && id in w.agents
    ensures var w' := CancelBoundCall(s, w, w.agents[id]);
            Inv(s, w') && w'.agents == w.agents && !OnActiveCall(w', w.agents[id])
  {
    var read := w.agents[id];
    if OnActiveCall(w, read) {
      InvGivesBoundOk(s, w, id);
      var key := read.currentCall.value;
      ActiveIsAlone(s, w, key);
      var b, c := CancelEffect(s, w, read);
      assert BorrowerOk(s, w.borrowers[key.borrower]);
      CancellingIsUnit(s, w, CancelBoundCall(s, w, read), key, b, c);
      UnitKeepsInv(s, w, CancelBoundCall(s, w, read), key);
    }
  }

  lemma CancellingIsUnit(s: Settings, w: World, w': World, key: CallKey, b: Borrower, c: Call)
    requires Active(w, key) && Linked(w, key) && CallOk(w, key) && IndexOk(w) && Alone(w, key.agent, key.borrower, key)
    requires BorrowerOk(s, w.borrowers[key.borrower]) && key.attempt == w.borrowers[key.borrower].attemptCount + 1
    requires w' == w.(borrowers := w.borrowers[key.borrower := b], calls := w.calls[key := c], now := w'.now,
                      delays := w'.delays)
    requires b == AfterRetry(w.borrowers[key.borrower], s.maxAttempts, s.backoffBase, w'.now)
    requires exists t :: MoveCall(w.calls[key], CallState.Cancelled, t) == Some(c)
    ensures Unit(s, w, w', key)
  {
    assert w.agents == w.agents[key.agent := w.agents[key.agent]];
    ReplacementIsUnit(s, w, w', key.agent, key.borrower, key);
  }

  /** What is left of a recovery once the call it knew of is dealt with: the agent stood down, or left alone. */
  lemma StandingDownKeepsInvIff(s: Settings, w: World, w': World, id: AgentId, a: Agent)
    requires Inv(s, w) && id in w.agents && StoodDown(a, w.agents[id])
    requires w' == w.(agents := w.agents[id := a], now := w'.now, delays := w'.delays)
    ensures Inv(s, w') <==> !OnActiveCall(w, w.agents[id])
  {
    if OnActiveCall(w, w.agents[id]) {
      UnseenCallIsOrphaned(s, w, w', id, a);
    } else {
      StandDownKeepsInv(s, w, w', id, a);
    }
  }

  /** The agent is on an open call that the reading does not name. */
  predicate Overlooks(w: World, id: AgentId, read: Agent) {
    id in w.agents && OnActiveCall(w, w.agents[id]) && read.currentCall != w.agents[id].currentCall
  }

  /** What a reading names is dealt with; what it overlooks is left. */
  lemma CancellingOnAReading(s: Settings, w: World, id: AgentId, read: Agent)
    requires Inv(s, w) && id in w.agents && ReadOf(id, read)
    ensures var w' := CancelBoundCall(s, w, read);
            Inv(s, w') && w'.agents == w.agents && (OnActiveCall(w', w.agents[id]) <==> Overlooks(w, id, read))
  {
    if read.currentCall == w.agents[id].currentCall {
      assert CancelBoundCall(s, w, read) == CancelBoundCall(s, w, w.agents[id]);
      CancellingKeepsInv(s, w, id);
    } else {
      OtherCallIsOver(s, w, id, read);
    }
  }

  /**
   * Recovering an agent on a reading of any age keeps every link exactly when it does not reclaim the agent
   * from an open call the reading does not name: all that can be overlooked is a call bound since.
   */
  lemma ReclaimKeepsInvIff(s: Settings, w: World, id: AgentId, read: Agent, now: Time)
    requires Inv(s, w) && id in w.agents && ReadOf(id, read)
    ensures Inv(s, RecoverAgent(s, w, id, read, now).0)
            <==> !(ReclaimAgent(w.agents[id], read, now).Some? && Overlooks(w, id, read))
  {
    CancellingOnAReading(s, w, id, read);
    var w1 := CancelBoundCall(s, w, read);
    var (w2, r) := TryReclaimAgent(w1, id, read, now);
    if r.Some? { StandingDownKeepsInvIff(s, w1, w2, id, r.value); }
  }

  /** Logging an agent out on a reading of any age: likewise, whether or not it has been heard from since. */
  lemma LogOutKeepsInvIff(s: Settings, w: World, id: AgentId, read: Agent)
    requires Inv(s, w) && id in w.agents && ReadOf(id, read) && read.state != AgentState.Offline
    ensures Inv(s, LogOutSilent(s, w, id, read).0)
            <==> !(w.agents[id].state == read.state && w.agents[id].version == read.version && Overlooks(w, id, read))
  {
    CancellingOnAReading(s, w, id, read);
    var w1 := CancelBoundCall(s, w, read);
    if w.agents[id].state == read.state && w.agents[id].version == read.version {
      WonTransitionAgent(w1, id, AgentState.Offline, Recovery);
      var (w2, r) := TryTransitionAgent(w1, id, read.state, AgentState.Offline, Recovery, read.version);
      StandingDownKeepsInvIff(s, w1, w2, id, r.agent);
    } else {
      LogOutMisses(s, w1, id, read);
    }
  }

  lemma LogOutMisses(s: Settings, w: World, id: AgentId, read: Agent)
    requires Inv(s, w) && id in w.agents && read.state != AgentState.Offline
    requires w.agents[id].state != read.state || w.agents[id].version != read.version
    ensures Inv(s, TryTransitionAgent(w, id, read.state, AgentState.Offline, Recovery, read.version).0)
  {
    ClockKeepsInv(s, w, TryTransitionAgent(w, id, read.state, AgentState.Offline, Recovery, read.version).0);
  }

  /** Reclaiming a borrower on a reading of any age keeps every link exactly when no open call holds it. */
  lemma BorrowerReclaimKeepsInvIff(s: Settings, w: World, id: BorrowerId, read: Borrower, now: Time)
    requires Inv(s, w) && id in w.borrowers
    ensures Inv(s, TryReclaimBorrower(w, id, read, now).0)
            <==> (ReclaimBorrower(w.borrowers[id], read, now).Some? ==> forall k :: Active(w, k) ==> k.borrower != id)
  {
    var (w', r) := TryReclaimBorrower(w, id, read, now);
    if r.None? {
    } else if k :| Active(w, k) && k.borrower == id {
      assert Active(w', k) && !Linked(w', k);
    } else {
      assert BorrowerOk(s, w.borrowers[id]);
      IdleBorrowerKeepsInv(s, w, w', id);
    }
  }

  /** Recovering a stale call on a reading of any age keeps every link: the store has the last word. */
  lemma CallRecoveryKeepsInv(
    s: Settings, w: World, key: CallKey, read: Call, reports: map<CallKey, ProviderStatus>
  )
    requires Inv(s, w) && key in w.calls
    ensures Inv(s, RecoverCall(s, w, key, read, reports).0)
  {
    assert CallOk(w, key);
    if w.calls[key].terminal {
      ClockKeepsInv(s, w, RecoverCall(s, w, key, read, reports).0);
    } else {
      ActiveIsAlone(s, w, key);
      var a, b, c := RecoverCallEffect(s, w, key, read, reports);
      CallEndedKeepsInv(s, w, RecoverCall(s, w, key, read, reports).0, key, a, b, c);
    }
  }

  /**
   * Heartbeats do not raise the version either: an agent that was silent when read and has been heard from
   * since is logged out all the same exactly when its state has not changed in between.
   */
  lemma HeardAgentIsLoggedOutIff(s: Settings, f: Fine, id: AgentId, read: Agent, cutoff: Time)
    requires Reached(s, f) && (id, read) in f.agentsRead && id in f.w.agents
    requires HeartbeatExpired(read, cutoff) && !HeartbeatExpired(f.w.agents[id], cutoff)
    ensures TryTransitionAgent(f.w, id, read.state, AgentState.Offline, Recovery, read.version).1.Moved?
            <==> SameVersioned(read, f.w.agents[id])
  {
    ReachedIsSound(s, f);
    assert AgentReadSound(f.w, (id, read).0, (id, read).1);
    if SameVersioned(read, f.w.agents[id]) { WonTransitionAgent(f.w, id, AgentState.Offline, Recovery); }
  }
}
