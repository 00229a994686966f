/** Each of the sweeps, over all its candidates: what it keeps of the links. */
module SweepsKeepLinks {
  import opened Basics
  import opened AgentMachine
  import opened CallMachine
  import opened Documents
  import opened Store
  import opened Effects
  import opened Handlers
  import opened Linking
  import opened RecoveryKeepsLinks

  /** The copies a sweep read of the agents it is about to treat are still what is stored. */
  ghost predicate AgentsFresh(w: World, ids: seq<AgentId>, read: map<AgentId, Agent>) {
    forall x :: x in ids ==> x in read && x in w.agents && w.agents[x] == read[x]
  }

  ghost predicate OthersSame(w: World, w': World, ids: seq<AgentId>) {
    w'.agents.Keys == w.agents.Keys && forall x :: x in w.agents && x !in ids ==> w'.agents[x] == w.agents[x]
  }

  lemma FreshOnward(w: World, w1: World, ids: seq<AgentId>, read: map<AgentId, Agent>)
    requires ids != [] && Distinct(ids) && AgentsFresh(w, ids, read) && OthersSame(w, w1, [ids[0]])
    ensures Distinct(ids[1..]) && AgentsFresh(w1, ids[1..], read)
  {
  }

  /** A borrower sweep keeps every link exactly when it takes no borrower from an active call. */
  lemma {:induction false} BorrowerSweepKeepsInv(
    s: Settings, w: World, ids: seq<BorrowerId>, read: map<BorrowerId, Borrower>, now: Time, done: nat
  )
    requires Inv(s, w) && Distinct(ids)
    requires forall x :: x in ids ==>
               x in read && x in w.borrowers && w.borrowers[x] == read[x] && BorrowerLeaseExpired(read[x], now)
    ensures Inv(s, BorrowerSweep(w, ids, read, now, done).0) <==> forall k :: Active(w, k) ==> k.borrower !in ids
    decreases |ids|
  {
    if ids == [] {
    } else {
      var b := ids[0];
      assert BorrowerOk(s, w.borrowers[b]);
      var (w1, r) := TryReclaimBorrower(w, b, read[b], now);
      var done' := if r.Some? then done + 1 else done;
      if k :| Active(w, k) && k.borrower == b {
        BorrowerSweepFrame(w1, ids[1..], read, now, done');
        var w' := BorrowerSweep(w1, ids[1..], read, now, done').0;
        assert !Linked(w', k);
        assert Active(w', k);
      } else {
        IdleBorrowerKeepsInv(s, w, w1, b);
        BorrowerSweepKeepsInv(s, w1, ids[1..], read, now, done');
        assert forall k :: Active(w, k) <==> Active(w1, k);
      }
    }
  }

  lemma {:induction false} BorrowerSweepFrame(
    w: World, ids: seq<BorrowerId>, read: map<BorrowerId, Borrower>, now: Time, done: nat
  )
    requires forall x :: x in ids ==> x in read
    ensures var w' := BorrowerSweep(w, ids, read, now, done).0;
            w' == w.(borrowers := w'.borrowers) && w'.borrowers.Keys == w.borrowers.Keys
            && forall x :: x in w.borrowers && x !in ids ==> w'.borrowers[x] == w.borrowers[x]
    decreases |ids|
  {
    if ids == [] {
    } else {
      var (w1, r) := TryReclaimBorrower(w, ids[0], read[ids[0]], now);
      BorrowerSweepFrame(w1, ids[1..], read, now, if r.Some? then done + 1 else done);
    }
  }

  lemma RecoverCallKeepsInv(s: Settings, w: World, key: CallKey, reports: map<CallKey, ProviderStatus>)
    requires Inv(s, w) && Active(w, key)
    ensures Inv(s, RecoverCall(s, w, key, w.calls[key], reports).0)
  {
    ActiveIsAlone(s, w, key);
    var a, b, c := RecoverCallEffect(s, w, key, w.calls[key], reports);
    CallEndedKeepsInv(s, w, RecoverCall(s, w, key, w.calls[key], reports).0, key, a, b, c);
  }

  lemma RecoverCallFrame(s: Settings, w: World, key: CallKey, read: Call, reports: map<CallKey, ProviderStatus>)
    ensures var w1 := RecoverCall(s, w, key, read, reports).0;
            forall x :: x in w.calls && x != key ==> x in w1.calls && w1.calls[x] == w.calls[x]
  {
    var (w1, finished) := TryTransitionCall(w, key, Reconcile(read, key, reports));
    if finished.Some? { ReleaseAgentFrame(w1, key.agent, finished.value.worker, AgentState.Available, Recovery); }
  }

  lemma {:induction false} CallSweepKeepsInv(
    s: Settings, w: World, keys: seq<CallKey>, read: map<CallKey, Call>, reports: map<CallKey, ProviderStatus>,
    done: nat
  )
    requires Inv(s, w) && Distinct(keys)
    requires forall x :: x in keys ==> x in read && x in w.calls && w.calls[x] == read[x] && !read[x].terminal
    ensures Inv(s, CallSweep(s, w, keys, read, reports, done).0)
    decreases |keys|
  {
    if keys == [] {
    } else {
      RecoverCallKeepsInv(s, w, keys[0], reports);
      RecoverCallFrame(s, w, keys[0], read[keys[0]], reports);
      var (w1, ok) := RecoverCall(s, w, keys[0], read[keys[0]], reports);
      CallSweepKeepsInv(s, w1, keys[1..], read, reports, if ok then done + 1 else done);
    }
  }

  lemma {:induction false} HeartbeatSweepKeepsInv(
    s: Settings, w: World, ids: seq<AgentId>, read: map<AgentId, Agent>, done: nat
  )
    requires Inv(s, w) && Distinct(ids) && AgentsFresh(w, ids, read)
    requires forall x :: x in ids ==> read[x].state != AgentState.Offline
    ensures Inv(s, HeartbeatSweep(s, w, ids, read, done).0)
    decreases |ids|
  {
    if ids == [] {
    } else {
      InvGivesBoundOk(s, w, ids[0]);
      var a := LogOutEffect(s, w, ids[0]);
      var (w1, ok) := LogOutSilent(s, w, ids[0], read[ids[0]]);
      StandDownKeepsInv(s, w, w1, ids[0], a);
      HeartbeatSweepKeepsInv(s, w1, ids[1..], read, if ok then done + 1 else done);
    }
  }

  lemma {:induction false} WrapUpSweepKeepsInv(
    s: Settings, w: World, ids: seq<AgentId>, read: map<AgentId, Agent>, actor: Actor, done: nat
  )
    requires Inv(s, w) && Distinct(ids) && AgentsFresh(w, ids, read)
    requires forall x :: x in ids ==> read[x].state == AgentState.WrapUp
    requires actor == Recovery || actor == WorkerTimer
    ensures Inv(s, WrapUpSweep(w, ids, read, actor, done).0)
    decreases |ids|
  {
    if ids == [] {
    } else {
      FinishWrapUpKeepsInv(s, w, ids[0], actor);
      var a := FinishWrapUpEffect(w, ids[0], actor);
      var (w1, ok) := FinishWrapUp(w, ids[0], read[ids[0]], actor);
      WrapUpSweepKeepsInv(s, w1, ids[1..], read, actor, if ok then done + 1 else done);
    }
  }

  /** A query order that lists each document once. */
  predicate Lists<T(==)>(order: seq<T>, ids: set<T>) {
    Distinct(order) && forall x :: x in ids ==> x in order
  }

  predicate OrdersOk(w: World, input: SweepInput) {
    && Lists(input.expired, w.agents.Keys)
    && Lists(input.borrowers, w.borrowers.Keys)
    && Lists(input.calls, w.calls.Keys)
    && Lists(input.silent, w.agents.Keys)
    && Lists(input.wrapUps, w.agents.Keys)
  }

  /** A borrower's lease outlasts its agent's: where the agent's has not expired, neither has the borrower's. */
  lemma BorrowersOutlastAgents(s: Settings, w: World, k: CallKey, now: Time)
    requires Inv(s, w) && Active(w, k) && k.agent !in ExpiredAgents(w, now)
    ensures k.borrower !in ExpiredBorrowers(w, now)
  {
    ReleaseSources();
    assert Linked(w, k) && CallOk(w, k);
  }

  lemma PickedStaleCalls(w: World, cutoff: Time, order: seq<CallKey>, limit: nat)
    requires Distinct(order)
    ensures var keys := Pick(StaleCalls(w, cutoff), order, limit);
            Distinct(keys) && forall x :: x in keys ==> x in w.calls && !w.calls[x].terminal
  {
  }

  lemma StaleSweepKeepsInv(s: Settings, w: World, now: Time, input: SweepInput)
    requires Inv(s, w) && Distinct(input.calls)
    ensures Inv(s, SweepStaleCalls(s, w, now, input).0)
  {
    PickedStaleCalls(w, now - s.staleTimeout, input.calls, s.sweepLimit);
    var keys := Pick(StaleCalls(w, now - s.staleTimeout), input.calls, s.sweepLimit);
    CallSweepKeepsInv(s, w, keys, w.calls, input.reports, 0);
  }

  lemma SilentSweepKeepsInv(s: Settings, w: World, now: Time, input: SweepInput)
    requires Inv(s, w) && Distinct(input.silent)
    ensures Inv(s, SweepSilentAgents(s, w, now, input).0)
  {
    var silent := SilentAgents(w, now - s.heartbeatTimeout);
    PickIsDistinct(silent, input.silent, s.sweepLimit);
    HeartbeatSweepKeepsInv(s, w, Pick(silent, input.silent, s.sweepLimit), w.agents, 0);
  }

  lemma StuckSweepKeepsInv(s: Settings, w: World, now: Time, input: SweepInput)
    requires Inv(s, w) && Distinct(input.wrapUps)
    ensures Inv(s, SweepStuckWrapUps(s, w, now, input).0)
  {
    var stuck := FinishedWrapUps(w, now - StuckWrapUpAge(s));
    PickIsDistinct(stuck, input.wrapUps, s.sweepLimit);
    WrapUpSweepKeepsInv(s, w, Pick(stuck, input.wrapUps, s.sweepLimit), w.agents, Recovery, 0);
  }
}
