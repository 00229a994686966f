/**
 * What ties the three kinds of document together whenever no handler is under way, and the one
 * step lemma from which every handler's preservation of it follows.
 */
module Linking {
  import opened Basics
  import opened AgentMachine
  import opened CallMachine
  import opened Documents
  import opened Store

  // ---------- single documents ----------

  ghost predicate AgentOk(w: World, id: AgentId)
    requires id in w.agents
  {
    var a := w.agents[id];
    && a.state != AgentState.Reserved
    && (a.state == AgentState.Dialing || a.state == AgentState.Connected ==> a.lease.Some? && a.currentCall.Some?)
    && (a.state == AgentState.WrapUp ==> a.lease.None?)
    && (a.currentCall.Some? ==> a.currentCall.value in w.calls && a.currentCall.value.agent == id)
  }

  ghost predicate BorrowerOk(s: Settings, b: Borrower) {
    && b.status != BorrowerStatus.InCall
    && (b.status == BorrowerStatus.Reserved <==> b.lease.Some?)
    && (b.status == BorrowerStatus.Reserved || b.status == BorrowerStatus.Pending ==> b.attemptCount < s.maxAttempts)
    && b.attemptCount <= s.maxAttempts
  }

  ghost predicate CallOk(w: World, key: CallKey)
    requires key in w.calls
  {
    var c := w.calls[key];
    && CallConsistent(c)
    && c.rank >= 2
    && key.attempt >= 1
    && key.agent in w.agents && w.agents[key.agent].campaign == key.campaign
    && key.borrower in w.borrowers && w.borrowers[key.borrower].campaign == key.campaign
  }

  ghost predicate IndexOk(w: World) {
    && (forall r :: r in w.index ==>
          w.index[r] in w.calls && w.calls[w.index[r]].provider == r.provider
          && w.calls[w.index[r]].providerCallId == Some(r.id))
    && (forall k :: k in w.calls && w.calls[k].providerCallId.Some? ==>
          var r := ProviderRef(w.calls[k].provider, w.calls[k].providerCallId.value);
          r in w.index && w.index[r] == k)
  }

  // ---------- across documents ----------

  predicate Active(w: World, key: CallKey) {
    key in w.calls && !w.calls[key].terminal
  }

  /** The agent is on this call and in the state the call implies, held by the worker that placed it. */
  ghost predicate AgentServes(a: Agent, key: CallKey, c: Call) {
    && a.currentCall == Some(key)
    && Rank(c.state) >= 2 && a.state == AgentStateFor(c.state)
    && HeldBy(a.lease, c.worker)
  }

  /** The borrower is held by the same worker, on a lease no earlier than the agent's. */
  ghost predicate BorrowerHeldFor(b: Borrower, a: Agent, c: Call) {
    && b.status == BorrowerStatus.Reserved
    && HeldBy(b.lease, c.worker)
    && a.lease.Some? && a.lease.value.expiresAt <= b.lease.value.expiresAt
  }

  ghost predicate Linked(w: World, key: CallKey)
    requires key in w.calls
  {
    && key.agent in w.agents && key.borrower in w.borrowers
    && AgentServes(w.agents[key.agent], key, w.calls[key])
    && BorrowerHeldFor(w.borrowers[key.borrower], w.agents[key.agent], w.calls[key])
  }

  /** Attempts of a borrower's calls: finished ones fill 1..attemptCount, the active one comes next. */
  ghost predicate AttemptOk(w: World, key: CallKey)
    requires key in w.calls
  {
    && key.borrower in w.borrowers
    && if w.calls[key].terminal then key.attempt <= w.borrowers[key.borrower].attemptCount
       else key.attempt == w.borrowers[key.borrower].attemptCount + 1
  }

  ghost predicate Finished(w: World, b: BorrowerId, attempt: nat) {
    exists k :: k in w.calls && k.borrower == b && k.attempt == attempt && w.calls[k].terminal
  }

  ghost predicate AttemptsUnique(w: World) {
    forall k, k' :: k in w.calls && k' in w.calls && k.borrower == k'.borrower && k.attempt == k'.attempt ==> k == k'
  }

  ghost predicate AttemptsFilled(w: World) {
    forall b, i: nat :: b in w.borrowers && 1 <= i <= w.borrowers[b].attemptCount ==> Finished(w, b, i)
  }

  ghost predicate Inv(s: Settings, w: World) {
    && (forall id :: id in w.agents ==> AgentOk(w, id))
    && (forall b :: b in w.borrowers ==> BorrowerOk(s, w.borrowers[b]))
    && (forall k :: k in w.calls ==> CallOk(w, k) && AttemptOk(w, k))
    && (forall k :: Active(w, k) ==> Linked(w, k))
    && IndexOk(w)
    && AttemptsUnique(w)
    && AttemptsFilled(w)
  }

  // ---------- one unit of work ----------

  ghost predicate SameShape(w: World, w': World) {
    && w'.agents.Keys == w.agents.Keys
    && (forall x :: x in w.agents ==> w'.agents[x].campaign == w.agents[x].campaign)
    && w'.borrowers.Keys == w.borrowers.Keys
    && (forall x :: x in w.borrowers ==> w'.borrowers[x].campaign == w.borrowers[x].campaign)
  }

  ghost predicate OnlyCall(w: World, w': World, k: CallKey) {
    && w.calls.Keys <= w'.calls.Keys <= w.calls.Keys + {k}
    && (forall x :: x in w.calls && x != k ==> w'.calls[x] == w.calls[x])
  }

  /** The parties to every other active call are left alone. */
  ghost predicate OthersKept(w: World, w': World, k: CallKey)
    requires SameShape(w, w')
  {
    forall x :: Active(w, x) && x != k && x.agent in w.agents && x.borrower in w.borrowers ==>
      w'.agents[x.agent] == w.agents[x.agent] && w'.borrowers[x.borrower] == w.borrowers[x.borrower]
  }

  /** A call that ends adds one attempt to its borrower; nothing else moves a count. */
  ghost predicate AttemptsCounted(w: World, w': World, k: CallKey)
    requires SameShape(w, w')
  {
    && (forall x :: x in w.borrowers && (x != k.borrower || w'.calls == w.calls) ==>
          w'.borrowers[x].attemptCount == w.borrowers[x].attemptCount)
    && (w'.calls != w.calls && k.borrower in w.borrowers ==>
          && k in w'.calls
          && k.attempt == w.borrowers[k.borrower].attemptCount + 1
          && w'.borrowers[k.borrower].attemptCount == (if w'.calls[k].terminal then k.attempt else k.attempt - 1))
  }

  /** Everything that did change is again in order on its own. */
  ghost predicate ChangesOk(s: Settings, w: World, w': World, k: CallKey)
    requires SameShape(w, w')
  {
    && (forall x :: x in w.agents ==> w'.agents[x] == w.agents[x] || AgentOk(w', x))
    && (forall x :: x in w.borrowers ==> w'.borrowers[x] == w.borrowers[x] || BorrowerOk(s, w'.borrowers[x]))
    && (w'.calls != w.calls ==> k in w'.calls && CallOk(w', k))
    && (Active(w', k) ==> Linked(w', k))
    && IndexOk(w')
  }

  /** A new call is only placed for a borrower with no other call under way. */
  ghost predicate BorrowerFree(w: World, k: CallKey) {
    forall x :: Active(w, x) ==> x.borrower != k.borrower
  }

  ghost predicate Unit(s: Settings, w: World, w': World, k: CallKey) {
    && SameShape(w, w') && OnlyCall(w, w', k) && OthersKept(w, w', k) && AttemptsCounted(w, w', k)
    && ChangesOk(s, w, w', k)
    && (k in w'.calls && k !in w.calls ==> BorrowerFree(w, k))
    && (k in w.calls && w'.calls != w.calls ==> Active(w, k))
  }

  lemma UnitKeepsDocuments(s: Settings, w: World, w': World, k: CallKey)
    requires Inv(s, w) && Unit(s, w, w', k)
    ensures forall id :: id in w'.agents ==> AgentOk(w', id)
    ensures forall b :: b in w'.borrowers ==> BorrowerOk(s, w'.borrowers[b])
    ensures forall x :: x in w'.calls ==> CallOk(w', x)
  {
  }

  lemma UnitKeepsLinks(s: Settings, w: World, w': World, k: CallKey)
    requires Inv(s, w) && Unit(s, w, w', k)
    ensures forall x :: Active(w', x) ==> Linked(w', x)
  {
    forall x | Active(w', x) && x != k ensures Linked(w', x) {
      assert Active(w, x) && Linked(w, x);
    }
  }

  /** The other calls of the borrower whose call changes are all finished, with smaller attempts. */
  lemma OtherCallsAreOlder(w: World, k: CallKey, x: CallKey)
    requires AttemptsUnique(w)
    requires x in w.calls && x != k && x.borrower == k.borrower && AttemptOk(w, x)
    requires k.attempt == w.borrowers[k.borrower].attemptCount + 1
    requires if k in w.calls then Active(w, k) else BorrowerFree(w, k)
    ensures w.calls[x].terminal && x.attempt < k.attempt
  {
  }

  lemma CallKeepsItsAttempt(s: Settings, w: World, w': World, k: CallKey, x: CallKey)
    requires Inv(s, w) && Unit(s, w, w', k)
    requires x in w'.calls
    ensures AttemptOk(w', x)
  {
    if x != k || w'.calls == w.calls {
      assert x in w.calls && AttemptOk(w, x) && (w'.calls != w.calls ==> CallOk(w', k));
      if x.borrower == k.borrower && w'.calls != w.calls { OtherCallsAreOlder(w, k, x); }
    } else {
      assert CallOk(w', k);
    }
  }

  lemma AttemptsStayUnique(w: World, w': World, k: CallKey)
    requires AttemptsUnique(w) && OnlyCall(w, w', k)
    requires w'.calls == w.calls || forall z :: z in w.calls && z != k && z.borrower == k.borrower ==>
               z.attempt < k.attempt
    ensures AttemptsUnique(w')
  {
  }

  lemma UnitKeepsFilled(s: Settings, w: World, w': World, k: CallKey)
    requires Inv(s, w) && Unit(s, w, w', k)
    ensures AttemptsFilled(w')
  {
    forall b, i: nat | b in w'.borrowers && 1 <= i <= w'.borrowers[b].attemptCount ensures Finished(w', b, i) {
      if i <= w.borrowers[b].attemptCount {
        assert Finished(w, b, i);
        var x :| x in w.calls && x.borrower == b && x.attempt == i && w.calls[x].terminal;
        assert x != k || w'.calls == w.calls;
        assert x in w'.calls && w'.calls[x] == w.calls[x];
      } else {
        assert CallOk(w', k);
        assert k.borrower == b && k.attempt == i && w'.calls[k].terminal;
      }
    }
  }

  /** A unit of work leaves everything linked. */
  lemma UnitKeepsInv(s: Settings, w: World, w': World, k: CallKey)
    requires Inv(s, w) && Unit(s, w, w', k)
    ensures Inv(s, w')
  {
    UnitKeepsDocuments(s, w, w', k);
    UnitKeepsLinks(s, w, w', k);
    forall x | x in w'.calls ensures AttemptOk(w', x) {
      CallKeepsItsAttempt(s, w, w', k, x);
    }
    if w'.calls != w.calls {
      assert CallOk(w', k);
      forall z | z in w.calls && z != k && z.borrower == k.borrower ensures z.attempt < k.attempt {
        OtherCallsAreOlder(w, k, z);
      }
    }
    AttemptsStayUnique(w, w', k);
    UnitKeepsFilled(s, w, w', k);
  }

  /** No active call other than `k` involves agent `a` or borrower `b`. */
  ghost predicate Alone(w: World, a: AgentId, b: BorrowerId, k: CallKey) {
    forall x :: Active(w, x) && x != k ==> x.agent != a && x.borrower != b
  }

  /** `w'` is `w` with one agent, one borrower and at most one call replaced. */
  ghost predicate Replaced(w: World, w': World, a: AgentId, b: BorrowerId, k: CallKey) {
    && a in w.agents && w'.agents.Keys == w.agents.Keys
    && w'.agents == w.agents[a := w'.agents[a]] && w'.agents[a].campaign == w.agents[a].campaign
    && b in w.borrowers && w'.borrowers.Keys == w.borrowers.Keys
    && w'.borrowers == w.borrowers[b := w'.borrowers[b]] && w'.borrowers[b].campaign == w.borrowers[b].campaign
    && (w'.calls == w.calls || (k in w'.calls && w'.calls == w.calls[k := w'.calls[k]]))
  }

  /** The condition on the replaced documents themselves. */
  ghost predicate ReplacementOk(s: Settings, w: World, w': World, a: AgentId, b: BorrowerId, k: CallKey)
    requires Replaced(w, w', a, b, k)
  {
    && AgentOk(w', a)
    && BorrowerOk(s, w'.borrowers[b])
    && (Active(w', k) ==> Linked(w', k))
    && IndexOk(w')
    && if w'.calls == w.calls then w'.borrowers[b].attemptCount == w.borrowers[b].attemptCount
       else
         && k.agent == a && k.borrower == b && CallOk(w', k)
         && k.attempt == w.borrowers[b].attemptCount + 1
         && w'.borrowers[b].attemptCount == (if w'.calls[k].terminal then k.attempt else k.attempt - 1)
         && (k in w.calls ==> Active(w, k))
  }

  lemma ReplacementIsUnit(s: Settings, w: World, w': World, a: AgentId, b: BorrowerId, k: CallKey)
    requires Replaced(w, w', a, b, k) && ReplacementOk(s, w, w', a, b, k) && Alone(w, a, b, k)
    ensures Unit(s, w, w', k)
  {
  }

  function UnusedKey(a: AgentId): CallKey {
    CallKey(0, a, 0, 0)
  }

  /** `w'` is `w` with one idle agent replaced. */
  ghost predicate IdleAgentReplaced(w: World, w': World, a: AgentId) {
    && a in w.agents && a in w'.agents && w'.agents[a].campaign == w.agents[a].campaign
    && w' == w.(agents := w.agents[a := w'.agents[a]], now := w'.now, delays := w'.delays)
    && AgentOk(w', a)
    && forall x :: Active(w, x) ==> x.agent != a
  }

  lemma IdleAgentIsUnit(s: Settings, w: World, w': World, a: AgentId)
    requires IdleAgentReplaced(w, w', a) && IndexOk(w)
    ensures Unit(s, w, w', UnusedKey(a))
  {
  }

  lemma IdleAgentKeepsInv(s: Settings, w: World, w': World, a: AgentId)
    requires Inv(s, w) && IdleAgentReplaced(w, w', a)
    ensures Inv(s, w')
  {
    IdleAgentIsUnit(s, w, w', a);
    UnitKeepsInv(s, w, w', UnusedKey(a));
  }

  /** An agent that is not on a call has no active call. */
  lemma IdleHasNoCall(s: Settings, w: World, a: AgentId)
    requires Inv(s, w) && a in w.agents
    requires w.agents[a].state != AgentState.Dialing && w.agents[a].state != AgentState.Connected
    ensures forall x :: Active(w, x) ==> x.agent != a
  {
  }

  lemma ClockKeepsInv(s: Settings, w: World, w': World)
    requires Inv(s, w) && w' == w.(now := w'.now, delays := w'.delays, events := w'.events)
    ensures Inv(s, w')
  {
    assert forall id :: id in w.agents ==> AgentOk(w, id) ==> AgentOk(w', id);
    assert forall k :: k in w.calls ==> CallOk(w, k) && AttemptOk(w, k) ==> CallOk(w', k) && AttemptOk(w', k);
    forall x | Active(w', x) ensures Linked(w', x) {
      assert Active(w, x) && Linked(w, x);
    }
    forall b, i: nat | b in w'.borrowers && 1 <= i <= w'.borrowers[b].attemptCount ensures Finished(w', b, i) {
      assert Finished(w, b, i);
    }
  }

  /** The parties to an active call are party to no other. */
  lemma ActiveIsAlone(s: Settings, w: World, k: CallKey)
    requires Inv(s, w) && Active(w, k)
    ensures Linked(w, k) && CallOk(w, k)
    ensures k.attempt == w.borrowers[k.borrower].attemptCount + 1
    ensures Alone(w, k.agent, k.borrower, k)
  {
  }

  /** `w'` is `w` with the borrower of no active call replaced, its attempts as they were. */
  ghost predicate IdleBorrowerReplaced(s: Settings, w: World, w': World, b: BorrowerId) {
    && b in w.borrowers && b in w'.borrowers && w'.borrowers[b].campaign == w.borrowers[b].campaign
    && w' == w.(borrowers := w.borrowers[b := w'.borrowers[b]], now := w'.now, delays := w'.delays)
    && BorrowerOk(s, w'.borrowers[b]) && w'.borrowers[b].attemptCount == w.borrowers[b].attemptCount
    && forall x :: Active(w, x) ==> x.borrower != b
  }

  lemma IdleBorrowerIsUnit(s: Settings, w: World, w': World, b: BorrowerId)
    requires IdleBorrowerReplaced(s, w, w', b) && IndexOk(w)
    ensures Unit(s, w, w', CallKey(0, 0, b, 0))
  {
  }

  lemma IdleBorrowerKeepsInv(s: Settings, w: World, w': World, b: BorrowerId)
    requires Inv(s, w) && IdleBorrowerReplaced(s, w, w', b)
    ensures Inv(s, w')
  {
    IdleBorrowerIsUnit(s, w, w', b);
    UnitKeepsInv(s, w, w', CallKey(0, 0, b, 0));
  }
}
