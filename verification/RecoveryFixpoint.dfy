/**
 * Recovery on an arbitrary store, linked or not: at a fixed time the five backlogs only shrink, a run
 * with room for them empties all five, and a run that finds them empty changes nothing.
 */
module RecoveryFixpoint {
  import opened Basics
  import opened AgentMachine
  import opened CallMachine
  import opened Documents
  import opened Store
  import opened Effects
  import opened Handlers
  import opened SweepsKeepLinks

  datatype Backlog = Backlog(
    agents: set<AgentId>, borrowers: set<BorrowerId>, calls: set<CallKey>, silent: set<AgentId>, wrapUps: set<AgentId>)
  {
    predicate Within(that: Backlog) {
      agents <= that.agents && borrowers <= that.borrowers && calls <= that.calls && silent <= that.silent
      && wrapUps <= that.wrapUps
    }

    predicate Empty() {
      agents == {} && borrowers == {} && calls == {} && silent == {} && wrapUps == {}
    }

    predicate Fits(limit: nat) {
      |agents| <= limit && |borrowers| <= limit && |calls| <= limit && |silent| <= limit && |wrapUps| <= limit
    }
  }

  function BacklogOf(s: Settings, w: World, now: Time): Backlog {
    Backlog(ExpiredAgents(w, now), ExpiredBorrowers(w, now), StaleCalls(w, now - s.staleTimeout),
            SilentAgents(w, now - s.heartbeatTimeout), FinishedWrapUps(w, now - StuckWrapUpAge(s)))
  }

  predicate CallsConsistent(w: World) {
    forall k :: k in w.calls ==> CallConsistent(w.calls[k])
  }

  predicate SameKeys(w: World, w': World) {
    w'.agents.Keys == w.agents.Keys && w'.borrowers.Keys == w.borrowers.Keys && w'.calls.Keys == w.calls.Keys
  }

  /** No document came or went, and none joined a backlog. */
  predicate NoWorse(s: Settings, w: World, w': World, now: Time) {
    SameKeys(w, w') && BacklogOf(s, w', now).Within(BacklogOf(s, w, now)) && CallsConsistent(w')
  }

  lemma NoWorseThrough(s: Settings, w: World, w1: World, w2: World, now: Time)
    requires NoWorse(s, w, w1, now) && NoWorse(s, w1, w2, now)
    ensures NoWorse(s, w, w2, now)
  {
  }

  // ---------- the writes recovery makes ----------

  lemma EndingACall(s: Settings, w: World, key: CallKey, to: CallState, now: Time)
    requires CallsConsistent(w) && IsTerminal(to)
    ensures NoWorse(s, w, TryTransitionCall(w, key, to).0, now)
    ensures TryTransitionCall(w, key, to).0.agents == w.agents
  {
  }

  lemma ReleasingABorrower(s: Settings, w: World, id: BorrowerId, worker: WorkerId, outcome: ReleaseOutcome, now: Time)
    requires CallsConsistent(w)
    ensures NoWorse(s, w, TryReleaseBorrower(s, w, id, worker, outcome).0, now)
    ensures TryReleaseBorrower(s, w, id, worker, outcome).0.agents == w.agents
    ensures TryReleaseBorrower(s, w, id, worker, outcome).0.calls == w.calls
  {
  }

  /** An agent that was online is now free, holding nothing, or offline. */
  predicate AgentRelieved(w: World, w': World, id: AgentId, a: Agent) {
    && id in w.agents && w.agents[id].state != AgentState.Offline
    && w' == w.(agents := w.agents[id := a], now := w'.now, delays := w'.delays)
    && a.lastHeartbeat == w.agents[id].lastHeartbeat
    && (a.state == AgentState.Offline || a.state == AgentState.Available)
  }

  lemma RelievingAnAgent(s: Settings, w: World, w': World, id: AgentId, a: Agent, now: Time)
    requires CallsConsistent(w) && AgentRelieved(w, w', id, a)
    ensures NoWorse(s, w, w', now)
    ensures id !in ExpiredAgents(w', now) && id !in FinishedWrapUps(w', now - StuckWrapUpAge(s))
    ensures a.state == AgentState.Offline ==> id !in SilentAgents(w', now - s.heartbeatTimeout)
  {
  }

  lemma FreeingAnAgent(s: Settings, w: World, id: AgentId, worker: WorkerId, now: Time)
    requires CallsConsistent(w)
    ensures var w' := TryReleaseAgent(w, id, worker, AgentState.Available, Recovery).0;
            NoWorse(s, w, w', now) && w'.calls == w.calls
  {
    ReleaseSources();
    var (w', r) := TryReleaseAgent(w, id, worker, AgentState.Available, Recovery);
    if r.Some? { RelievingAnAgent(s, w, w', id, r.value, now); }
  }

  lemma Cancelling(s: Settings, w: World, read: Agent, now: Time)
    requires CallsConsistent(w)
    ensures NoWorse(s, w, CancelBoundCall(s, w, read), now)
    ensures CancelBoundCall(s, w, read).agents == w.agents
  {
    if read.currentCall.Some? {
      var key := read.currentCall.value;
      EndingACall(s, w, key, CallState.Cancelled, now);
      var (w1, cancelled) := TryTransitionCall(w, key, CallState.Cancelled);
      if cancelled.Some? {
        ReleasingABorrower(s, w1, key.borrower, cancelled.value.worker, Retry, now);
        NoWorseThrough(s, w, w1, TryReleaseBorrower(s, w1, key.borrower, cancelled.value.worker, Retry).0, now);
      }
    }
  }

  // ---------- one candidate of each sweep ----------

  lemma RecoveringAnAgent(s: Settings, w: World, id: AgentId, now: Time)
    requires CallsConsistent(w) && id in w.agents && AgentLeaseExpired(w.agents[id], now)
    ensures var (w', ok) := RecoverAgent(s, w, id, w.agents[id], now);
            ok && NoWorse(s, w, w', now) && id !in ExpiredAgents(w', now)
            && forall x :: x in w.agents && x != id ==> w'.agents[x] == w.agents[x]
  {
    ReleaseSources();
    Cancelling(s, w, w.agents[id], now);
    var w1 := CancelBoundCall(s, w, w.agents[id]);
    var (w2, r) := TryReclaimAgent(w1, id, w.agents[id], now);
    RelievingAnAgent(s, w1, w2, id, r.value, now);
    NoWorseThrough(s, w, w1, w2, now);
  }

  lemma ReclaimingABorrower(s: Settings, w: World, id: BorrowerId, now: Time)
    requires CallsConsistent(w) && id in w.borrowers && BorrowerLeaseExpired(w.borrowers[id], now)
    ensures var (w', r) := TryReclaimBorrower(w, id, w.borrowers[id], now);
            r.Some? && NoWorse(s, w, w', now) && id !in ExpiredBorrowers(w', now)
            && forall x :: x in w.borrowers && x != id ==> w'.borrowers[x] == w.borrowers[x]
  {
  }

  lemma RecoveringACall(s: Settings, w: World, key: CallKey, reports: map<CallKey, ProviderStatus>, now: Time)
    requires CallsConsistent(w) && key in w.calls && !w.calls[key].terminal
    ensures var (w', ok) := RecoverCall(s, w, key, w.calls[key], reports);
            ok && NoWorse(s, w, w', now) && key !in StaleCalls(w', now - s.staleTimeout)
            && w'.calls == w.calls[key := w'.calls[key]]
  {
    var to := Reconcile(w.calls[key], key, reports);
    WonTransitionCall(w, key, to);
    EndingACall(s, w, key, to, now);
    var (w1, moved) := TryTransitionCall(w, key, to);
    var worker := moved.value.worker;
    FreeingAnAgent(s, w1, key.agent, worker, now);
    var w2 := TryReleaseAgent(w1, key.agent, worker, AgentState.Available, Recovery).0;
    NoWorseThrough(s, w, w1, w2, now);
    ReleasingABorrower(s, w2, key.borrower, worker, Retry, now);
    NoWorseThrough(s, w, w2, TryReleaseBorrower(s, w2, key.borrower, worker, Retry).0, now);
  }

  lemma LoggingOutAnAgent(s: Settings, w: World, id: AgentId, now: Time)
    requires CallsConsistent(w) && id in w.agents && w.agents[id].state != AgentState.Offline
    ensures var (w', ok) := LogOutSilent(s, w, id, w.agents[id]);
            ok && NoWorse(s, w, w', now) && id !in SilentAgents(w', now - s.heartbeatTimeout)
            && forall x :: x in w.agents && x != id ==> w'.agents[x] == w.agents[x]
  {
    Cancelling(s, w, w.agents[id], now);
    var w1 := CancelBoundCall(s, w, w.agents[id]);
    WonTransitionAgent(w1, id, AgentState.Offline, Recovery);
    var w2 := LogOutSilent(s, w, id, w.agents[id]).0;
    RelievingAnAgent(s, w1, w2, id, w2.agents[id], now);
    NoWorseThrough(s, w, w1, w2, now);
  }

  lemma FinishingAWrapUp(s: Settings, w: World, id: AgentId, now: Time)
    requires CallsConsistent(w) && id in w.agents && w.agents[id].state == AgentState.WrapUp
    ensures var (w', ok) := FinishWrapUp(w, id, w.agents[id], Recovery);
            ok && NoWorse(s, w, w', now) && id !in FinishedWrapUps(w', now - StuckWrapUpAge(s))
            && forall x :: x in w.agents && x != id ==> w'.agents[x] == w.agents[x]
  {
    WonTransitionAgent(w, id, AgentState.Available, Recovery);
    var w' := FinishWrapUp(w, id, w.agents[id], Recovery).0;
    RelievingAnAgent(s, w, w', id, w'.agents[id], now);
  }

  // ---------- whole sweeps: every candidate is treated, and counted ----------

  lemma {:induction false} AgentSweepTreatsAll(
    s: Settings, w: World, ids: seq<AgentId>, read: map<AgentId, Agent>, now: Time, done: nat
  )
    requires CallsConsistent(w) && Distinct(ids) && AgentsFresh(w, ids, read)
    requires forall x :: x in ids ==> AgentLeaseExpired(read[x], now)
    ensures var (w', n) := AgentSweep(s, w, ids, read, now, done);
            NoWorse(s, w, w', now) && n == done + |ids| && forall x :: x in ids ==> x !in ExpiredAgents(w', now)
    decreases |ids|
  {
    if ids == [] {
    } else {
      RecoveringAnAgent(s, w, ids[0], now);
      var w1 := RecoverAgent(s, w, ids[0], read[ids[0]], now).0;
      AgentSweepTreatsAll(s, w1, ids[1..], read, now, done + 1);
      var w' := AgentSweep(s, w1, ids[1..], read, now, done + 1).0;
      NoWorseThrough(s, w, w1, w', now);
      forall x | x in ids ensures x !in ExpiredAgents(w', now) {
        if x != ids[0] { assert x in ids[1..]; }
      }
    }
  }

  lemma {:induction false} BorrowerSweepTreatsAll(
    s: Settings, w: World, ids: seq<BorrowerId>, read: map<BorrowerId, Borrower>, now: Time, done: nat
  )
    requires CallsConsistent(w) && Distinct(ids)
    requires forall x :: x in ids ==>
               x in read && x in w.borrowers && w.borrowers[x] == read[x] && BorrowerLeaseExpired(read[x], now)
    ensures var (w', n) := BorrowerSweep(w, ids, read, now, done);
            NoWorse(s, w, w', now) && n == done + |ids| && forall x :: x in ids ==> x !in ExpiredBorrowers(w', now)
    decreases |ids|
  {
    if ids == [] {
    } else {
      ReclaimingABorrower(s, w, ids[0], now);
      var w1 := TryReclaimBorrower(w, ids[0], read[ids[0]], now).0;
      BorrowerSweepTreatsAll(s, w1, ids[1..], read, now, done + 1);
      var w' := BorrowerSweep(w1, ids[1..], read, now, done + 1).0;
      NoWorseThrough(s, w, w1, w', now);
      forall x | x in ids ensures x !in ExpiredBorrowers(w', now) {
        if x != ids[0] { assert x in ids[1..]; }
      }
    }
  }

  predicate CallsFresh(w: World, keys: seq<CallKey>, read: map<CallKey, Call>) {
    forall x :: x in keys ==> x in read && x in w.calls && w.calls[x] == read[x] && !read[x].terminal
  }

  lemma RestStaysFresh(w: World, w1: World, keys: seq<CallKey>, read: map<CallKey, Call>)
    requires keys != [] && Distinct(keys) && CallsFresh(w, keys, read)
    requires keys[0] in w1.calls && w1.calls == w.calls[keys[0] := w1.calls[keys[0]]]
    ensures Distinct(keys[1..]) && CallsFresh(w1, keys[1..], read)
  {
  }

  lemma {:induction false} CallSweepIsNoWorse(
    s: Settings, w: World, keys: seq<CallKey>, read: map<CallKey, Call>, reports: map<CallKey, ProviderStatus>,
    now: Time, done: nat
  )
    requires CallsConsistent(w) && Distinct(keys) && CallsFresh(w, keys, read)
    ensures var (w', n) := CallSweep(s, w, keys, read, reports, done);
            NoWorse(s, w, w', now) && n == done + |keys|
    decreases |keys|
  {
    if keys == [] {
    } else {
      RecoveringACall(s, w, keys[0], reports, now);
      var w1 := RecoverCall(s, w, keys[0], read[keys[0]], reports).0;
      RestStaysFresh(w, w1, keys, read);
      CallSweepIsNoWorse(s, w1, keys[1..], read, reports, now, done + 1);
      NoWorseThrough(s, w, w1, CallSweep(s, w1, keys[1..], read, reports, done + 1).0, now);
    }
  }

  lemma NoneJoins(s: Settings, w: World, w': World, now: Time, key: CallKey)
    requires NoWorse(s, w, w', now) && key !in StaleCalls(w, now - s.staleTimeout)
    ensures key !in StaleCalls(w', now - s.staleTimeout)
  {
  }

  lemma TreatedStaysTreated(
    s: Settings, w1: World, keys: seq<CallKey>, read: map<CallKey, Call>, reports: map<CallKey, ProviderStatus>,
    now: Time, done: nat, key: CallKey
  )
    requires CallsConsistent(w1) && Distinct(keys) && CallsFresh(w1, keys, read)
    requires key !in StaleCalls(w1, now - s.staleTimeout)
    ensures key !in StaleCalls(CallSweep(s, w1, keys, read, reports, done).0, now - s.staleTimeout)
  {
    CallSweepIsNoWorse(s, w1, keys, read, reports, now, done);
    NoneJoins(s, w1, CallSweep(s, w1, keys, read, reports, done).0, now, key);
  }

  lemma {:induction false} CallSweepTreatsAll(
    s: Settings, w: World, keys: seq<CallKey>, read: map<CallKey, Call>, reports: map<CallKey, ProviderStatus>,
    now: Time, done: nat, key: CallKey
  )
    requires CallsConsistent(w) && Distinct(keys) && CallsFresh(w, keys, read) && key in keys
    ensures key !in StaleCalls(CallSweep(s, w, keys, read, reports, done).0, now - s.staleTimeout)
    decreases |keys|
  {
    RecoveringACall(s, w, keys[0], reports, now);
    var w1 := RecoverCall(s, w, keys[0], read[keys[0]], reports).0;
    RestStaysFresh(w, w1, keys, read);
    if key == keys[0] {
      TreatedStaysTreated(s, w1, keys[1..], read, reports, now, done + 1, key);
    } else {
      CallSweepTreatsAll(s, w1, keys[1..], read, reports, now, done + 1, key);
    }
  }

  lemma FirstStaysHeard(s: Settings, w1: World, w': World, now: Time, ids: seq<AgentId>)
    requires ids != [] && NoWorse(s, w1, w', now) && ids[0] !in SilentAgents(w1, now - s.heartbeatTimeout)
    requires forall x :: x in ids[1..] ==> x !in SilentAgents(w', now - s.heartbeatTimeout)
    ensures forall x :: x in ids ==> x !in SilentAgents(w', now - s.heartbeatTimeout)
  {
    forall x | x in ids ensures x !in SilentAgents(w', now - s.heartbeatTimeout) {
      if x != ids[0] { assert x in ids[1..]; }
    }
  }

  lemma {:induction false} HeartbeatSweepTreatsAll(
    s: Settings, w: World, ids: seq<AgentId>, read: map<AgentId, Agent>, now: Time, done: nat
  )
    requires CallsConsistent(w) && Distinct(ids) && AgentsFresh(w, ids, read)
    requires forall x :: x in ids ==> read[x].state != AgentState.Offline
    ensures var (w', n) := HeartbeatSweep(s, w, ids, read, done);
            NoWorse(s, w, w', now) && n == done + |ids| && forall x :: x in ids ==>
              x !in SilentAgents(w', now - s.heartbeatTimeout)
    decreases |ids|
  {
    if ids == [] {
    } else {
      LoggingOutAnAgent(s, w, ids[0], now);
      var w1 := LogOutSilent(s, w, ids[0], read[ids[0]]).0;
      FreshOnward(w, w1, ids, read);
      HeartbeatSweepTreatsAll(s, w1, ids[1..], read, now, done + 1);
      var w' := HeartbeatSweep(s, w1, ids[1..], read, done + 1).0;
      NoWorseThrough(s, w, w1, w', now);
      FirstStaysHeard(s, w1, w', now, ids);
    }
  }

  lemma {:induction false} WrapUpSweepTreatsAll(
    s: Settings, w: World, ids: seq<AgentId>, read: map<AgentId, Agent>, now: Time, done: nat
  )
    requires CallsConsistent(w) && Distinct(ids) && AgentsFresh(w, ids, read)
    requires forall x :: x in ids ==> read[x].state == AgentState.WrapUp
    ensures var (w', n) := WrapUpSweep(w, ids, read, Recovery, done);
            NoWorse(s, w, w', now) && n == done + |ids|
            && forall x :: x in ids ==> x !in FinishedWrapUps(w', now - StuckWrapUpAge(s))
    decreases |ids|
  {
    if ids == [] {
    } else {
      FinishingAWrapUp(s, w, ids[0], now);
      var w1 := FinishWrapUp(w, ids[0], read[ids[0]], Recovery).0;
      WrapUpSweepTreatsAll(s, w1, ids[1..], read, now, done + 1);
      var w' := WrapUpSweep(w1, ids[1..], read, Recovery, done + 1).0;
      NoWorseThrough(s, w, w1, w', now);
      forall x | x in ids ensures x !in FinishedWrapUps(w', now - StuckWrapUpAge(s)) {
        if x != ids[0] { assert x in ids[1..]; }
      }
    }
  }

  // ---------- how much each sweep removes ----------

  function Left(size: nat, limit: nat): nat {
    if size <= limit then 0 else size - limit
  }

  lemma TreatedLeave<T>(before: set<T>, after: set<T>, order: seq<T>, limit: nat)
    requires Lists(order, before) && after <= before
    requires forall x :: x in Pick(before, order, limit) ==> x !in after
    ensures |after| <= Left(|before|, limit)
    ensures |Pick(before, order, limit)| == Min(limit, |before|)
  {
    var picked := Pick(before, order, limit);
    PickIsFull(before, order, limit);
    PickIsDistinct(before, order, limit);
    DistinctHasItsLength(picked);
    SubsetIsNoLarger(after, before - Elements(picked));
    assert |before - Elements(picked)| == |before| - |before * Elements(picked)|;
    assert before * Elements(picked) == Elements(picked);
  }

  lemma AgentSweepLeaves(s: Settings, w: World, now: Time, input: SweepInput)
    requires CallsConsistent(w) && Lists(input.expired, w.agents.Keys)
    ensures var (w', n) := SweepExpiredAgents(s, w, now, input);
            && NoWorse(s, w, w', now) && n == Min(s.sweepLimit, |ExpiredAgents(w, now)|)
            && |ExpiredAgents(w', now)| <= Left(|ExpiredAgents(w, now)|, s.sweepLimit)
  {
    var before := ExpiredAgents(w, now);
    var ids := Pick(before, input.expired, s.sweepLimit);
    PickIsDistinct(before, input.expired, s.sweepLimit);
    AgentSweepTreatsAll(s, w, ids, w.agents, now, 0);
    var w' := SweepExpiredAgents(s, w, now, input).0;
    TreatedLeave(before, ExpiredAgents(w', now), input.expired, s.sweepLimit);
  }

  lemma BorrowerSweepLeaves(s: Settings, w: World, now: Time, input: SweepInput)
    requires CallsConsistent(w) && Lists(input.borrowers, w.borrowers.Keys)
    ensures var (w', n) := SweepExpiredBorrowers(s, w, now, input);
            && NoWorse(s, w, w', now) && n == Min(s.sweepLimit, |ExpiredBorrowers(w, now)|)
            && |ExpiredBorrowers(w', now)| <= Left(|ExpiredBorrowers(w, now)|, s.sweepLimit)
  {
    var before := ExpiredBorrowers(w, now);
    var ids := Pick(before, input.borrowers, s.sweepLimit);
    PickIsDistinct(before, input.borrowers, s.sweepLimit);
    BorrowerSweepTreatsAll(s, w, ids, w.borrowers, now, 0);
    var w' := SweepExpiredBorrowers(s, w, now, input).0;
    TreatedLeave(before, ExpiredBorrowers(w', now), input.borrowers, s.sweepLimit);
  }

  lemma CallSweepLeaves(s: Settings, w: World, now: Time, input: SweepInput)
    requires CallsConsistent(w) && Lists(input.calls, w.calls.Keys)
    ensures var cutoff := now - s.staleTimeout;
            var (w', n) := SweepStaleCalls(s, w, now, input);
            && NoWorse(s, w, w', now) && n == Min(s.sweepLimit, |StaleCalls(w, cutoff)|)
            && |StaleCalls(w', cutoff)| <= Left(|StaleCalls(w, cutoff)|, s.sweepLimit)
  {
    var before := StaleCalls(w, now - s.staleTimeout);
    var keys := Pick(before, input.calls, s.sweepLimit);
    PickedStaleCalls(w, now - s.staleTimeout, input.calls, s.sweepLimit);
    CallSweepIsNoWorse(s, w, keys, w.calls, input.reports, now, 0);
    var after := StaleCalls(SweepStaleCalls(s, w, now, input).0, now - s.staleTimeout);
    forall x | x in keys ensures x !in after {
      CallSweepTreatsAll(s, w, keys, w.calls, input.reports, now, 0, x);
    }
    TreatedLeave(before, after, input.calls, s.sweepLimit);
  }

  lemma HeartbeatSweepLeaves(s: Settings, w: World, now: Time, input: SweepInput)
    requires CallsConsistent(w) && Lists(input.silent, w.agents.Keys)
    ensures var cutoff := now - s.heartbeatTimeout;
            var (w', n) := SweepSilentAgents(s, w, now, input);
            && NoWorse(s, w, w', now) && n == Min(s.sweepLimit, |SilentAgents(w, cutoff)|)
            && |SilentAgents(w', cutoff)| <= Left(|SilentAgents(w, cutoff)|, s.sweepLimit)
  {
    var before := SilentAgents(w, now - s.heartbeatTimeout);
    var ids := Pick(before, input.silent, s.sweepLimit);
    PickIsDistinct(before, input.silent, s.sweepLimit);
    HeartbeatSweepTreatsAll(s, w, ids, w.agents, now, 0);
    var w' := SweepSilentAgents(s, w, now, input).0;
    TreatedLeave(before, SilentAgents(w', now - s.heartbeatTimeout), input.silent, s.sweepLimit);
  }

  lemma WrapUpSweepLeaves(s: Settings, w: World, now: Time, input: SweepInput)
    requires CallsConsistent(w) && Lists(input.wrapUps, w.agents.Keys)
    ensures var cutoff := now - StuckWrapUpAge(s);
            var (w', n) := SweepStuckWrapUps(s, w, now, input);
            && NoWorse(s, w, w', now) && n == Min(s.sweepLimit, |FinishedWrapUps(w, cutoff)|)
            && |FinishedWrapUps(w', cutoff)| <= Left(|FinishedWrapUps(w, cutoff)|, s.sweepLimit)
  {
    var before := FinishedWrapUps(w, now - StuckWrapUpAge(s));
    var ids := Pick(before, input.wrapUps, s.sweepLimit);
    PickIsDistinct(before, input.wrapUps, s.sweepLimit);
    WrapUpSweepTreatsAll(s, w, ids, w.agents, now, 0);
    var w' := SweepStuckWrapUps(s, w, now, input).0;
    TreatedLeave(before, FinishedWrapUps(w', now - StuckWrapUpAge(s)), input.wrapUps, s.sweepLimit);
  }

  // ---------- runs ----------

  /** Every backlog of `b'` is at most what is left of that of `b` after removing `limit`. */
  predicate Reduced(b: Backlog, b': Backlog, limit: nat) {
    && |b'.agents| <= Left(|b.agents|, limit) && |b'.borrowers| <= Left(|b.borrowers|, limit)
    && |b'.calls| <= Left(|b.calls|, limit) && |b'.silent| <= Left(|b.silent|, limit)
    && |b'.wrapUps| <= Left(|b.wrapUps|, limit)
  }

  predicate NoLarger(b: Backlog, b': Backlog) {
    && |b'.agents| <= |b.agents| && |b'.borrowers| <= |b.borrowers| && |b'.calls| <= |b.calls|
    && |b'.silent| <= |b.silent| && |b'.wrapUps| <= |b.wrapUps|
  }

  lemma WithinIsNoLarger(b: Backlog, b': Backlog)
    requires b'.Within(b)
    ensures NoLarger(b, b')
  {
    SubsetIsNoLarger(b'.agents, b.agents);
    SubsetIsNoLarger(b'.borrowers, b.borrowers);
    SubsetIsNoLarger(b'.calls, b.calls);
    SubsetIsNoLarger(b'.silent, b.silent);
    SubsetIsNoLarger(b'.wrapUps, b.wrapUps);
  }

  lemma StepIsNoLarger(s: Settings, w: World, w1: World, w2: World, now: Time)
    requires NoWorse(s, w, w1, now) && NoWorse(s, w1, w2, now)
    ensures NoWorse(s, w, w2, now)
    ensures NoLarger(BacklogOf(s, w1, now), BacklogOf(s, w2, now))
  {
    WithinIsNoLarger(BacklogOf(s, w1, now), BacklogOf(s, w2, now));
  }

  lemma NothingIsNoWorse(s: Settings, w: World, now: Time)
    requires CallsConsistent(w)
    ensures NoWorse(s, w, w, now)
  {
  }

  lemma FirstSweepsReduce(s: Settings, w: World, now: Time, input: SweepInput)
    requires CallsConsistent(w) && OrdersOk(w, input)
    ensures var w2 := SweepExpiredBorrowers(s, SweepExpiredAgents(s, w, now, input).0, now, input).0;
            var b, b2 := BacklogOf(s, w, now), BacklogOf(s, w2, now);
            NoWorse(s, w, w2, now) && NoLarger(b, b2)
            && |b2.agents| <= Left(|b.agents|, s.sweepLimit) && |b2.borrowers| <= Left(|b.borrowers|, s.sweepLimit)
  {
    NothingIsNoWorse(s, w, now);
    AgentSweepLeaves(s, w, now, input);
    var w1 := SweepExpiredAgents(s, w, now, input).0;
    StepIsNoLarger(s, w, w, w1, now);
    BorrowerSweepLeaves(s, w1, now, input);
    StepIsNoLarger(s, w, w1, SweepExpiredBorrowers(s, w1, now, input).0, now);
  }

  lemma StaleSweepReduces(s: Settings, w: World, now: Time, input: SweepInput)
    requires CallsConsistent(w) && Lists(input.calls, w.calls.Keys)
    ensures var w3 := SweepStaleCalls(s, w, now, input).0;
            var b, b3 := BacklogOf(s, w, now), BacklogOf(s, w3, now);
            NoWorse(s, w, w3, now) && NoLarger(b, b3) && |b3.calls| <= Left(|b.calls|, s.sweepLimit)
  {
    CallSweepLeaves(s, w, now, input);
    WithinIsNoLarger(BacklogOf(s, w, now), BacklogOf(s, SweepStaleCalls(s, w, now, input).0, now));
  }

  lemma SilentSweepReduces(s: Settings, w: World, now: Time, input: SweepInput)
    requires CallsConsistent(w) && Lists(input.silent, w.agents.Keys)
    ensures var w4 := SweepSilentAgents(s, w, now, input).0;
            var b, b4 := BacklogOf(s, w, now), BacklogOf(s, w4, now);
            NoWorse(s, w, w4, now) && NoLarger(b, b4) && |b4.silent| <= Left(|b.silent|, s.sweepLimit)
  {
    HeartbeatSweepLeaves(s, w, now, input);
    WithinIsNoLarger(BacklogOf(s, w, now), BacklogOf(s, SweepSilentAgents(s, w, now, input).0, now));
  }

  lemma MiddleSweepsReduce(s: Settings, w: World, now: Time, input: SweepInput)
    requires CallsConsistent(w) && OrdersOk(w, input)
    ensures var w4 := SweepSilentAgents(s, SweepStaleCalls(s, w, now, input).0, now, input).0;
            var b, b4 := BacklogOf(s, w, now), BacklogOf(s, w4, now);
            NoWorse(s, w, w4, now) && NoLarger(b, b4)
            && |b4.calls| <= Left(|b.calls|, s.sweepLimit) && |b4.silent| <= Left(|b.silent|, s.sweepLimit)
  {
    StaleSweepReduces(s, w, now, input);
    var w3 := SweepStaleCalls(s, w, now, input).0;
    SilentSweepReduces(s, w3, now, input);
    NoWorseThrough(s, w, w3, SweepSilentAgents(s, w3, now, input).0, now);
  }

  function FourSweeps(s: Settings, w: World, now: Time, input: SweepInput): World {
    var w2 := SweepExpiredBorrowers(s, SweepExpiredAgents(s, w, now, input).0, now, input).0;
    SweepSilentAgents(s, SweepStaleCalls(s, w2, now, input).0, now, input).0
  }

  lemma FourSweepsReduce(s: Settings, w: World, now: Time, input: SweepInput)
    requires CallsConsistent(w) && OrdersOk(w, input)
    ensures var w4 := FourSweeps(s, w, now, input);
            var b, b4 := BacklogOf(s, w, now), BacklogOf(s, w4, now);
            NoWorse(s, w, w4, now) && NoLarger(b, b4)
            && |b4.agents| <= Left(|b.agents|, s.sweepLimit) && |b4.borrowers| <= Left(|b.borrowers|, s.sweepLimit)
            && |b4.calls| <= Left(|b.calls|, s.sweepLimit) && |b4.silent| <= Left(|b.silent|, s.sweepLimit)
  {
    FirstSweepsReduce(s, w, now, input);
    var w2 := SweepExpiredBorrowers(s, SweepExpiredAgents(s, w, now, input).0, now, input).0;
    MiddleSweepsReduce(s, w2, now, input);
    NoWorseThrough(s, w, w2, FourSweeps(s, w, now, input), now);
  }

  lemma LastSweepReduces(s: Settings, w: World, now: Time, input: SweepInput)
    requires CallsConsistent(w) && OrdersOk(w, input)
    ensures var w5 := SweepStuckWrapUps(s, w, now, input).0;
            var b, b5 := BacklogOf(s, w, now), BacklogOf(s, w5, now);
            NoWorse(s, w, w5, now) && NoLarger(b, b5) && |b5.wrapUps| <= Left(|b.wrapUps|, s.sweepLimit)
  {
    WrapUpSweepLeaves(s, w, now, input);
    WithinIsNoLarger(BacklogOf(s, w, now), BacklogOf(s, SweepStuckWrapUps(s, w, now, input).0, now));
  }

  /** One run takes up to `sweepLimit` off every backlog, and adds to none. */
  lemma SweepsReduce(s: Settings, w: World, now: Time, input: SweepInput)
    requires CallsConsistent(w) && OrdersOk(w, input)
    ensures NoWorse(s, w, SweepsAt(s, w, now, input).0, now)
    ensures Reduced(BacklogOf(s, w, now), BacklogOf(s, SweepsAt(s, w, now, input).0, now), s.sweepLimit)
  {
    FourSweepsReduce(s, w, now, input);
    var w4 := FourSweeps(s, w, now, input);
    LastSweepReduces(s, w4, now, input);
    NoWorseThrough(s, w, w4, SweepStuckWrapUps(s, w4, now, input).0, now);
  }

  lemma EmptyIsFixed(s: Settings, w: World, now: Time, input: SweepInput)
    requires BacklogOf(s, w, now).Empty()
    ensures SweepsAt(s, w, now, input) == (w, Counts(0, 0, 0, 0, 0))
  {
    PickFromNothing<AgentId>(input.expired, s.sweepLimit);
    PickFromNothing<BorrowerId>(input.borrowers, s.sweepLimit);
    PickFromNothing<CallKey>(input.calls, s.sweepLimit);
    PickFromNothing<AgentId>(input.silent, s.sweepLimit);
    PickFromNothing<AgentId>(input.wrapUps, s.sweepLimit);
  }

  lemma {:induction false} PickFromNothing<T>(order: seq<T>, limit: nat)
    ensures Pick({}, order, limit) == []
  {
    if order == [] || limit == 0 {
    } else {
      PickFromNothing(order[1..], limit);
    }
  }

  /** With room for every candidate, one run empties all five backlogs, and a second changes nothing. */
  lemma OneRunIsEnough(s: Settings, w: World, now: Time, input: SweepInput, again: SweepInput)
    requires CallsConsistent(w) && OrdersOk(w, input)
    requires BacklogOf(s, w, now).Fits(s.sweepLimit)
    ensures var w' := SweepsAt(s, w, now, input).0;
            BacklogOf(s, w', now).Empty() && SweepsAt(s, w', now, again) == (w', Counts(0, 0, 0, 0, 0))
  {
    SweepsReduce(s, w, now, input);
    var w' := SweepsAt(s, w, now, input).0;
    EmptyIsFixed(s, w', now, again);
  }

  function SweepRuns(s: Settings, w: World, now: Time, inputs: seq<SweepInput>): World
    decreases |inputs|
  {
    if inputs == [] then w else SweepRuns(s, SweepsAt(s, w, now, inputs[0]).0, now, inputs[1..])
  }

  /** As many runs as the limit goes into the largest backlog empty every backlog. */
  lemma {:induction false} EnoughRunsEmptyEverything(s: Settings, w: World, now: Time, inputs: seq<SweepInput>)
    requires CallsConsistent(w) && forall i :: 0 <= i < |inputs| ==> OrdersOk(w, inputs[i])
    requires BacklogOf(s, w, now).Fits(|inputs| * s.sweepLimit)
    ensures BacklogOf(s, SweepRuns(s, w, now, inputs), now).Empty()
    decreases |inputs|
  {
    if inputs == [] {
    } else {
      SweepsReduce(s, w, now, inputs[0]);
      var w1 := SweepsAt(s, w, now, inputs[0]).0;
      assert |inputs| * s.sweepLimit == (|inputs| - 1) * s.sweepLimit + s.sweepLimit;
      EnoughRunsEmptyEverything(s, w1, now, inputs[1..]);
    }
  }
}
