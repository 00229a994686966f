/**
 * A call that has ended while its borrower still waits to be let go of: a worker stopped there for good,
 * and two recovery runs that overlap there.
 */
module HalfEndings {
  import opened Basics
  import opened AgentMachine
  import opened CallMachine
  import opened Documents
  import opened Store
  import opened Effects
  import opened Handlers
  import opened Linking
  import opened RecoveryKeepsLinks
  import opened SweepsKeepLinks
  import opened RecoveryFixpoint
  import opened DialResidue
  import opened CrashedDials

  // ---------- a linked store without one of its calls ----------

  function Idle(a: Agent): Agent {
    a.(state := AgentState.Available, lease := None, currentCall := None)
  }

  function Unclaimed(b: Borrower): Borrower {
    b.(status := BorrowerStatus.Pending, lease := None)
  }

  /** The store as if the open call `k` had never been placed. */
  function Without(w: World, k: CallKey): World
    requires k.agent in w.agents && k.borrower in w.borrowers
  {
    w.(agents := w.agents[k.agent := Idle(w.agents[k.agent])],
       borrowers := w.borrowers[k.borrower := Unclaimed(w.borrowers[k.borrower])],
       calls := w.calls - {k},
       index := map r | r in w.index && w.index[r] != k :: w.index[r])
  }

  lemma WithoutKeepsDocuments(s: Settings, w: World, k: CallKey)
    requires Inv(s, w) && Active(w, k) && Linked(w, k)
    ensures var y := Without(w, k);
            && (forall id :: id in y.agents ==> AgentOk(y, id))
            && (forall b :: b in y.borrowers ==> BorrowerOk(s, y.borrowers[b]))
            && (forall z :: z in y.calls ==> CallOk(y, z))
  {
    var y := Without(w, k);
    forall id | id in y.agents ensures AgentOk(y, id) {
      assert AgentOk(w, id);
    }
    forall z | z in y.calls ensures CallOk(y, z) {
      assert CallOk(w, z);
    }
  }

  lemma WithoutKeepsLinks(s: Settings, w: World, k: CallKey)
    requires Inv(s, w) && Active(w, k) && Linked(w, k) && Alone(w, k.agent, k.borrower, k)
    ensures var y := Without(w, k);
            forall z :: Active(y, z) ==> Linked(y, z)
  {
    var y := Without(w, k);
    forall z | Active(y, z) ensures Linked(y, z) {
      assert Active(w, z) && Linked(w, z);
    }
  }

  lemma WithoutKeepsAttempts(s: Settings, w: World, k: CallKey)
    requires Inv(s, w) && Active(w, k) && Linked(w, k)
    ensures var y := Without(w, k);
            AttemptsUnique(y) && AttemptsFilled(y) && forall z :: z in y.calls ==> AttemptOk(y, z)
  {
    var y := Without(w, k);
    forall z | z in y.calls ensures AttemptOk(y, z) {
      assert AttemptOk(w, z);
    }
    forall b, i: nat | b in y.borrowers && 1 <= i <= y.borrowers[b].attemptCount ensures Finished(y, b, i) {
      assert Finished(w, b, i);
      var z :| z in w.calls && z.borrower == b && z.attempt == i && w.calls[z].terminal;
      assert z in y.calls;
    }
  }

  lemma WithoutKeepsIndex(w: World, k: CallKey)
    requires IndexOk(w) && k.agent in w.agents && k.borrower in w.borrowers
    ensures IndexOk(Without(w, k))
  {
  }

  lemma WithoutKeepsInv(s: Settings, w: World, k: CallKey)
    requires Inv(s, w) && Active(w, k) && Linked(w, k) && Alone(w, k.agent, k.borrower, k)
    ensures Inv(s, Without(w, k))
  {
    WithoutKeepsDocuments(s, w, k);
    WithoutKeepsLinks(s, w, k);
    WithoutKeepsAttempts(s, w, k);
    WithoutKeepsIndex(w, k);
  }

  // ---------- the call over, the borrower still held ----------

  /** `x` is `w` with the call `k` ended and its agent perhaps let go of, but its borrower not. */
  predicate HalfEnded(w: World, x: World, k: CallKey) {
    && k in w.calls && k in x.calls && x.calls == w.calls[k := x.calls[k]]
    && x.calls[k].terminal && CallConsistent(x.calls[k]) && x.calls[k].worker == w.calls[k].worker
    && x.calls[k].provider == w.calls[k].provider && x.calls[k].providerCallId == w.calls[k].providerCallId
    && k.agent in w.agents && k.agent in x.agents && x.agents == w.agents[k.agent := x.agents[k.agent]]
    && (x.agents[k.agent] == w.agents[k.agent] || LetGo(x.agents[k.agent], w.agents[k.agent], AgentState.Available)
        || LetGo(x.agents[k.agent], w.agents[k.agent], AgentState.WrapUp))
    && x.borrowers == w.borrowers && x.index == w.index
  }

  lemma HalfEndedIsBeside(w: World, x: World, k: CallKey)
    requires HalfEnded(w, x, k) && k.borrower in w.borrowers && Alone(w, k.agent, k.borrower, k)
    requires CallOk(w, k) && k.attempt == w.borrowers[k.borrower].attemptCount + 1
    ensures Beside(x, Without(w, k), k)
  {
  }

  lemma HalfEndedIsLeftover(s: Settings, w: World, x: World, k: CallKey)
    requires HalfEnded(w, x, k) && Linked(w, k) && CallOk(w, k) && IndexOk(w)
    requires BorrowerOk(s, w.borrowers[k.borrower]) && k.attempt == w.borrowers[k.borrower].attemptCount + 1
    ensures k.agent in x.agents && k.borrower in x.borrowers && Leftover(s, x, k)
  {
    ReleaseSources();
    assert IndexOk(x);
  }

  lemma HalfEndedIsLinkedBut(s: Settings, w: World, x: World, k: CallKey)
    requires Inv(s, w) && Active(w, k) && HalfEnded(w, x, k)
    ensures LinkedBut(s, x, k)
  {
    ActiveIsAlone(s, w, k);
    WithoutKeepsInv(s, w, k);
    assert BorrowerOk(s, w.borrowers[k.borrower]);
    HalfEndedIsBeside(w, x, k);
    HalfEndedIsLeftover(s, w, x, k);
    assert Residue(s, x, Without(w, k), k);
  }

  lemma HalfEndedIsAbandoned(s: Settings, w: World, x: World, k: CallKey, now: Time)
    requires Active(w, k) && Linked(w, k) && CallConsistent(w.calls[k])
    requires HalfEnded(w, x, k) && Expired(w.agents[k.agent].lease, now)
    ensures Abandoned(s, x, k, now)
  {
    ReleaseSources();
  }

  /** One run of the sweeps on it. */
  lemma HalfEndingSwept(s: Settings, w: World, x: World, k: CallKey, now: Time, input: SweepInput)
    requires Inv(s, w) && Active(w, k) && HalfEnded(w, x, k)
    requires k.agent in w.agents && Expired(w.agents[k.agent].lease, now)
    requires OrdersOk(x, input) && BacklogOf(s, x, now).Fits(s.sweepLimit)
    ensures var x' := SweepsAt(s, x, now, input).0;
            LinkedBut(s, x', k) && Cleared(x', k) && k in x'.calls && BorrowerSwept(x, x', k, now)
  {
    HalfEndedIsLinkedBut(s, w, x, k);
    ActiveIsAlone(s, w, k);
    HalfEndedIsAbandoned(s, w, x, k, now);
    ResidueIsConsistent(s, x, k);
    var g := RunByStages(s, x, now, input);
    StagesClear(s, x, k, now, input.reports, g);
  }

  lemma OneRunAfterAHalfEnding(s: Settings, w: World, x: World, k: CallKey, now: Time, input: SweepInput)
    requires Inv(s, w) && Active(w, k) && HalfEnded(w, x, k)
    requires k.agent in w.agents && Expired(w.agents[k.agent].lease, now)
    requires OrdersOk(x, input) && BacklogOf(s, x, now).Fits(s.sweepLimit)
    ensures var x' := SweepsAt(s, x, now, input).0;
            Exclusive(s, x') && !Inv(s, x')
  {
    HalfEndingSwept(s, w, x, k, now, input);
    var x' := SweepsAt(s, x, now, input).0;
    ClearedIsExclusive(s, x', k);
    ClearedIsLinkedIff(s, x', k);
  }

  // ---------- two recovery runs that overlap ----------

  /** The first write of a recovery that ends the call. */
  function EndedStore(w: World, k: CallKey, to: CallState): World {
    TryTransitionCall(w, k, to).0
  }

  /** The rest of a reclaim that cancelled the call `k`, whose worker is `worker`, on the reading `read`. */
  function FinishReclaim(s: Settings, w: World, k: CallKey, worker: WorkerId, read: Agent, now: Time): World {
    TryReclaimAgent(TryReleaseBorrower(s, w, k.borrower, worker, Retry).0, k.agent, read, now).0
  }

  lemma ReclaimInParts(s: Settings, w: World, k: CallKey, now: Time)
    requires Active(w, k) && CallConsistent(w.calls[k]) && k.agent in w.agents
    requires w.agents[k.agent].currentCall == Some(k)
    ensures RecoverAgent(s, w, k.agent, w.agents[k.agent], now).0
            == FinishReclaim(s, EndedStore(w, k, CallState.Cancelled), k, w.calls[k].worker, w.agents[k.agent], now)
  {
    WonTransitionCall(w, k, CallState.Cancelled);
  }

  lemma EndedIsHalfEnded(w: World, k: CallKey, to: CallState)
    requires Active(w, k) && CallConsistent(w.calls[k]) && IsTerminal(to) && k.agent in w.agents
    ensures HalfEnded(w, EndedStore(w, k, to), k)
  {
    WonTransitionCall(w, k, to);
    assert w.agents == w.agents[k.agent := w.agents[k.agent]];
  }

  /** An agent that rests is not reclaimed on a reading that had it on a call. */
  lemma RestingIsNotReclaimed(w: World, id: AgentId, read: Agent, now: Time)
    requires id in w.agents && Resting(w.agents[id]) && !Resting(read.(lease := None))
    ensures ClockOnly(w, TryReclaimAgent(w, id, read, now).0)
  {
    ReleaseSources();
  }

  /** The borrower still held: the attempt is counted after all, and everything is linked. */
  lemma CountingRestoresLinks(s: Settings, x: World, k: CallKey, worker: WorkerId)
    requires LinkedBut(s, x, k) && Cleared(x, k) && k in x.calls && k.borrower in x.borrowers
    requires HeldBy(x.borrowers[k.borrower].lease, worker)
    ensures Inv(s, TryReleaseBorrower(s, x, k.borrower, worker, Retry).0)
  {
    var y :| Residue(s, x, y, k);
    CountingIsUnit(s, x, y, k, worker);
    UnitKeepsInv(s, y, TryReleaseBorrower(s, x, k.borrower, worker, Retry).0, k);
  }

  lemma CountingIsUnit(s: Settings, x: World, y: World, k: CallKey, worker: WorkerId)
    requires Beside(x, y, k) && Leftover(s, x, k) && Cleared(x, k) && k in x.calls
    requires HeldBy(x.borrowers[k.borrower].lease, worker)
    ensures Unit(s, y, TryReleaseBorrower(s, x, k.borrower, worker, Retry).0, k)
  {
    WonReleaseBorrower(s, x, k.borrower, worker, Retry);
    var (x', r) := TryReleaseBorrower(s, x, k.borrower, worker, Retry);
    CountedIsUnit(s, x, y, k, x', r.value);
  }

  lemma CountedIsUnit(s: Settings, x: World, y: World, k: CallKey, x': World, b: Borrower)
    requires Beside(x, y, k) && Leftover(s, x, k) && Cleared(x, k) && k in x.calls
    requires BorrowerSet(x, x', k.borrower, b) && x.borrowers[k.borrower].status == BorrowerStatus.Reserved
    requires exists t :: b == AfterRetry(x.borrowers[k.borrower], s.maxAttempts, s.backoffBase, t)
    ensures Unit(s, y, x', k)
  {
    CountedIsReplaced(x, y, k, x', b);
    IndexIsKept(x, x');
    ReplacementIsUnit(s, y, x', k.agent, k.borrower, k);
  }

  lemma CountedIsReplaced(x: World, y: World, k: CallKey, x': World, b: Borrower)
    requires Beside(x, y, k) && k in x.calls && BorrowerSet(x, x', k.borrower, b)
    requires x.agents[k.agent].campaign == k.campaign && b.campaign == k.campaign
    ensures Replaced(y, x', k.agent, k.borrower, k)
  {
    assert x'.agents == y.agents[k.agent := x'.agents[k.agent]];
    assert x'.borrowers == y.borrowers[k.borrower := b];
    assert x'.calls == y.calls[k := x'.calls[k]];
  }

  lemma IndexIsKept(w: World, w': World)
    requires IndexOk(w) && w'.calls == w.calls && w'.index == w.index
    ensures IndexOk(w')
  {
  }

  /** A recovery that goes on after another worker's whole run of sweeps has left the store `x`. */
  lemma GoingOn(s: Settings, x: World, k: CallKey, worker: WorkerId, read: Agent, later: Time)
    requires LinkedBut(s, x, k) && Cleared(x, k) && k in x.calls && !Resting(read.(lease := None))
    requires k.borrower in x.borrowers
    requires var b := x.borrowers[k.borrower]; b.lease.None? || HeldBy(b.lease, worker)
    ensures var end := FinishReclaim(s, x, k, worker, read, later);
            Exclusive(s, end) && (Inv(s, end) <==> x.borrowers[k.borrower].lease.Some?)
  {
    var t := TryReleaseBorrower(s, x, k.borrower, worker, Retry).0;
    if x.borrowers[k.borrower].lease.Some? {
      CountingRestoresLinks(s, x, k, worker);
      RestedAfterCounting(s, x, k, worker, read, later);
      ClockKeepsInv(s, t, FinishReclaim(s, x, k, worker, read, later));
      LinkedIsExclusive(s, FinishReclaim(s, x, k, worker, read, later));
    } else {
      StillUncounted(s, x, k, worker, read, later);
    }
  }

  lemma RestedAfterCounting(s: Settings, x: World, k: CallKey, worker: WorkerId, read: Agent, later: Time)
    requires Cleared(x, k) && !Resting(read.(lease := None))
    ensures ClockOnly(TryReleaseBorrower(s, x, k.borrower, worker, Retry).0,
                      FinishReclaim(s, x, k, worker, read, later))
  {
    RestingIsNotReclaimed(TryReleaseBorrower(s, x, k.borrower, worker, Retry).0, k.agent, read, later);
  }

  lemma StillUncounted(s: Settings, x: World, k: CallKey, worker: WorkerId, read: Agent, later: Time)
    requires LinkedBut(s, x, k) && Cleared(x, k) && k in x.calls && !Resting(read.(lease := None))
    requires k.borrower in x.borrowers && x.borrowers[k.borrower].lease.None?
    ensures var end := FinishReclaim(s, x, k, worker, read, later);
            Exclusive(s, end) && !Inv(s, end)
  {
    RestedAfterCounting(s, x, k, worker, read, later);
    var end := FinishReclaim(s, x, k, worker, read, later);
    assert ClockOnly(x, end);
    ClearedIsExclusive(s, x, k);
    ClearedIsLinkedIff(s, x, k);
    ClockKeepsExclusive(s, x, end);
    if Inv(s, end) { ClockKeepsInv(s, end, x); }
  }

  lemma ClockKeepsExclusive(s: Settings, w: World, w': World)
    requires Exclusive(s, w) && ClockOnly(w, w')
    ensures Exclusive(s, w')
  {
    forall id | id in w'.agents ensures AgentOk(w', id) {
      assert AgentOk(w, id);
    }
    forall z | Active(w', z) ensures Linked(w', z) && Alone(w', z.agent, z.borrower, z) {
      assert Active(w, z);
      assert Linked(w, z) && Alone(w, z.agent, z.borrower, z);
      assert forall q :: Active(w', q) ==> Active(w, q);
    }
  }

  lemma OtherRunLeaves(s: Settings, w: World, k: CallKey, now: Time, input: SweepInput)
    requires Inv(s, w) && Active(w, k) && k.agent in w.agents && AgentLeaseExpired(w.agents[k.agent], now)
    requires var x := EndedStore(w, k, CallState.Cancelled);
             OrdersOk(x, input) && BacklogOf(s, x, now).Fits(s.sweepLimit)
    ensures var x := SweepsAt(s, EndedStore(w, k, CallState.Cancelled), now, input).0;
            && LinkedBut(s, x, k) && Cleared(x, k) && k in x.calls
            && k.borrower in w.borrowers && k.borrower in x.borrowers
            && if BorrowerLeaseExpired(w.borrowers[k.borrower], now) then x.borrowers[k.borrower].lease.None?
               else HeldBy(x.borrowers[k.borrower].lease, w.calls[k].worker)
  {
    ActiveIsAlone(s, w, k);
    EndedIsHalfEnded(w, k, CallState.Cancelled);
    HalfEndingSwept(s, w, EndedStore(w, k, CallState.Cancelled), k, now, input);
  }

  /**
   * A recovery worker has cancelled a call and not yet released its borrower when a second one runs all its
   * sweeps, with room for what it finds; then the first goes on. No two open calls share an agent or a
   * borrower afterwards. But the attempt is counted exactly when the borrower's lease was still good for the
   * second worker: otherwise that one has put the borrower back to pending, and neither counts the attempt.
   */
  lemma TwoRunsOverlap(s: Settings, w: World, k: CallKey, now: Time, input: SweepInput, later: Time)
    requires Inv(s, w) && Active(w, k) && k.agent in w.agents && AgentLeaseExpired(w.agents[k.agent], now)
    requires var x := EndedStore(w, k, CallState.Cancelled);
             OrdersOk(x, input) && BacklogOf(s, x, now).Fits(s.sweepLimit)
    ensures var x := SweepsAt(s, EndedStore(w, k, CallState.Cancelled), now, input).0;
            var end := FinishReclaim(s, x, k, w.calls[k].worker, w.agents[k.agent], later);
            && k.borrower in w.borrowers && Exclusive(s, end)
            && (Inv(s, end) <==> !BorrowerLeaseExpired(w.borrowers[k.borrower], now))
  {
    OtherRunLeaves(s, w, k, now, input);
    ServingIsNotResting(s, w, k);
    GoingOn(s, SweepsAt(s, EndedStore(w, k, CallState.Cancelled), now, input).0, k, w.calls[k].worker,
            w.agents[k.agent], later);
  }

  lemma ServingIsNotResting(s: Settings, w: World, k: CallKey)
    requires Inv(s, w) && Active(w, k) && k.agent in w.agents
    ensures !Resting(w.agents[k.agent].(lease := None))
  {
    ActiveIsAlone(s, w, k);
  }
}
