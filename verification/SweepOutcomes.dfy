/** What one run of the sweeps, with room for what it finds, makes of every agent, borrower and call. */
module SweepOutcomes {
  import opened Basics
  import opened AgentMachine
  import opened CallMachine
  import opened Documents
  import opened Store
  import opened Effects
  import opened Handlers
  import opened Linking
  import opened RecoveryKeepsLinks
  import opened SweepsKeepLinks
  import opened LimitedSweeps
  import opened RecoveryFixpoint

  // ---------- a retry, spelled out ----------

  /** `base`, doubled `n` times. */
  function Doubled(base: nat, n: nat): nat {
    if n == 0 then base else 2 * Doubled(base, n - 1)
  }

  /** `b'` is `b` with one attempt more, made at `t`: out of attempts, or pending after a wait that doubles. */
  predicate RetriedAt(s: Settings, b: Borrower, b': Borrower, t: Time) {
    && b'.campaign == b.campaign && b'.version == b.version + 1 && b'.lease.None?
    && b'.attemptCount == b.attemptCount + 1 && b'.lastAttemptAt == Some(t)
    && b'.nextEligibleAt == t + Doubled(s.backoffBase, b.attemptCount)
    && b'.status == (if b.attemptCount + 1 < s.maxAttempts then BorrowerStatus.Pending else BorrowerStatus.Exhausted)
  }

  ghost predicate Retried(s: Settings, b: Borrower, b': Borrower) {
    exists t :: RetriedAt(s, b, b', t)
  }

  lemma {:induction false} WaitDoubles(base: nat, n: nat)
    ensures Backoff(base, n + 1) == Doubled(base, n)
  {
    if n == 0 {
    } else {
      WaitDoubles(base, n - 1);
      assert Pow2(n) == 2 * Pow2(n - 1);
    }
  }

  lemma RetryIsExact(s: Settings, b: Borrower, t: Time)
    ensures RetriedAt(s, b, AfterRetry(b, s.maxAttempts, s.backoffBase, t), t)
  {
    WaitDoubles(s.backoffBase, b.attemptCount);
  }

  // ---------- what a sweep does to those it treats ----------

  /** Why a sweep treats an agent: its lease has expired, its call is stale, or it is silent. */
  datatype Cause = Expiry(now: Time) | Staleness(reports: map<CallKey, ProviderStatus>) | Silence

  predicate AgentDone(cause: Cause, a: Agent, a': Agent) {
    a'.campaign == a.campaign && OnceMoved(a', a)
    && match cause
       case Expiry(now) =>
         a'.state == AgentState.Available && a'.stateChangedAt == now && a'.lease.None? && a'.currentCall.None?
       case Staleness(_) => a'.state == AgentState.Available && a'.lease.None? && a'.currentCall.None?
       case Silence => a'.state == AgentState.Offline && a'.lease == a.lease && a'.currentCall == a.currentCall
  }

  /** A stale call ends as its provider says, and as failed if the provider does not say that it completed. */
  predicate CallDone(cause: Cause, key: CallKey, c: Call, c': Call) {
    c'.terminal
    && match cause
       case Staleness(reports) =>
         if c.providerCallId.Some? && key in reports && reports[key] == CompletedStatus then
           c'.state == CallState.Completed
         else c'.state == CallState.Failed
       case _ => c'.state == CallState.Cancelled
  }

  /** The borrower is in an open call of one of these agents. */
  ghost predicate OnCallOf(w: World, b: BorrowerId, ids: set<AgentId>) {
    exists k :: Active(w, k) && k.agent in ids && k.borrower == b
  }

  /** From `w` to `w'` these agents are treated, their open calls ended and those borrowers retried; nobody else is. */
  ghost predicate Treated(s: Settings, cause: Cause, w: World, w': World, ids: set<AgentId>) {
    && w'.agents.Keys == w.agents.Keys && w'.borrowers.Keys == w.borrowers.Keys && w'.calls.Keys == w.calls.Keys
    && (forall id :: id in w.agents ==>
          if id in ids then AgentDone(cause, w.agents[id], w'.agents[id]) else w'.agents[id] == w.agents[id])
    && (forall k :: k in w.calls ==>
          if Active(w, k) && k.agent in ids then CallDone(cause, k, w.calls[k], w'.calls[k])
          else w'.calls[k] == w.calls[k])
    && (forall b :: b in w.borrowers ==>
          if OnCallOf(w, b, ids) then Retried(s, w.borrowers[b], w'.borrowers[b])
          else w'.borrowers[b] == w.borrowers[b])
  }

  /** The same, in one piece. */
  ghost predicate Treats(s: Settings, cause: Cause, w: World, w': World, ids: set<AgentId>) {
    exists those :: those == ids && Treated(s, cause, w, w', those)
  }

  lemma NobodyTreated(s: Settings, cause: Cause, w: World)
    ensures Treated(s, cause, w, w, {})
  {
  }

  /** One agent first and the others after it are all of them together. */
  lemma TreatedTogether(
    s: Settings, cause: Cause, w: World, w1: World, w2: World, id: AgentId, rest: set<AgentId>
  )
    requires Inv(s, w) && id !in rest && Treated(s, cause, w, w1, {id}) && Treated(s, cause, w1, w2, rest)
    ensures Treated(s, cause, w, w2, {id} + rest)
  {
    forall k | k in w.calls
      ensures if Active(w, k) && k.agent in {id} + rest then CallDone(cause, k, w.calls[k], w2.calls[k])
              else w2.calls[k] == w.calls[k]
    {
    }
    forall b | b in w.borrowers
      ensures if OnCallOf(w, b, {id} + rest) then Retried(s, w.borrowers[b], w2.borrowers[b])
              else w2.borrowers[b] == w.borrowers[b]
    {
      OnOneOrTheOther(s, cause, w, w1, id, rest, b);
    }
  }

  lemma OnOneOrTheOther(s: Settings, cause: Cause, w: World, w1: World, id: AgentId, rest: set<AgentId>, b: BorrowerId)
    requires Inv(s, w) && id !in rest && Treated(s, cause, w, w1, {id})
    ensures OnCallOf(w, b, {id} + rest) <==> OnCallOf(w, b, {id}) || OnCallOf(w1, b, rest)
    ensures OnCallOf(w, b, {id}) ==> !OnCallOf(w1, b, rest)
  {
    OpenCallsLeft(s, cause, w, w1, {id});
    OnceAmong(w, w1, id, rest, b);
    if k :| Active(w, k) && k.agent in {id} && k.borrower == b {
      ActiveIsAlone(s, w, k);
      NotAgain(w, w1, k, rest);
    }
  }

  lemma OpenCallsLeft(s: Settings, cause: Cause, w: World, w': World, ids: set<AgentId>)
    requires Treated(s, cause, w, w', ids)
    ensures forall k :: Active(w', k) <==> Active(w, k) && k.agent !in ids
  {
  }

  lemma OnceAmong(w: World, w1: World, id: AgentId, rest: set<AgentId>, b: BorrowerId)
    requires id !in rest && forall k :: Active(w1, k) <==> Active(w, k) && k.agent !in {id}
    ensures OnCallOf(w, b, {id} + rest) <==> OnCallOf(w, b, {id}) || OnCallOf(w1, b, rest)
  {
    if OnCallOf(w, b, {id} + rest) {
      var k :| Active(w, k) && k.agent in {id} + rest && k.borrower == b;
      assert k.agent == id || Active(w1, k);
    }
  }

  lemma NotAgain(w: World, w1: World, k: CallKey, rest: set<AgentId>)
    requires Alone(w, k.agent, k.borrower, k) && k.agent !in rest
    requires forall z :: Active(w1, z) ==> Active(w, z)
    ensures !OnCallOf(w1, k.borrower, rest)
  {
  }

  // ---------- agents whose lease has expired, and silent ones ----------

  lemma StoodDownIsTreated(s: Settings, cause: Cause, w: World, w': World, id: AgentId, a: Agent)
    requires Inv(s, w) && AgentStoodDown(s, w, w', id, a) && !cause.Staleness? && AgentDone(cause, w.agents[id], a)
    requires w'.agents == w.agents[id := a]
    ensures Treated(s, cause, w, w', {id})
  {
    if OnActiveCall(w, w.agents[id]) {
      var key := w.agents[id].currentCall.value;
      ActiveIsAlone(s, w, key);
      var b, c :| CallEnded(s, w, w', key, a, b, c);
      CallEndedIsTreated(s, cause, w, w', key, a, b, c);
    } else {
      NoOpenCall(s, w, id);
      IdleIsTreated(s, cause, w, w', id, a);
    }
  }

  lemma IdleIsTreated(s: Settings, cause: Cause, w: World, w': World, id: AgentId, a: Agent)
    requires id in w.agents && AgentDone(cause, w.agents[id], a) && (forall k :: Active(w, k) ==> k.agent != id)
    requires forall b :: !OnCallOf(w, b, {id})
    requires w' == w.(agents := w.agents[id := a], now := w'.now, delays := w'.delays)
    ensures Treated(s, cause, w, w', {id})
  {
  }

  lemma NoOpenCall(s: Settings, w: World, id: AgentId)
    requires Inv(s, w) && id in w.agents && !OnActiveCall(w, w.agents[id])
    ensures forall k :: Active(w, k) ==> k.agent != id
    ensures forall b :: !OnCallOf(w, b, {id})
  {
    forall k | Active(w, k) ensures k.agent != id {
      assert Linked(w, k);
    }
  }

  lemma CallEndedIsTreated(s: Settings, cause: Cause, w: World, w': World, key: CallKey, a: Agent, b: Borrower, c: Call)
    requires Active(w, key) && Alone(w, key.agent, key.borrower, key) && CallEnded(s, w, w', key, a, b, c)
    requires AgentDone(cause, w.agents[key.agent], a) && CallDone(cause, key, w.calls[key], c)
    ensures Treated(s, cause, w, w', {key.agent})
  {
    var t :| b == AfterRetry(w.borrowers[key.borrower], s.maxAttempts, s.backoffBase, t);
    RetryIsExact(s, w.borrowers[key.borrower], t);
    assert OnCallOf(w, key.borrower, {key.agent});
  }

  lemma RecoveredIsTreated(s: Settings, w: World, id: AgentId, now: Time)
    requires Inv(s, w) && id in w.agents && AgentLeaseExpired(w.agents[id], now)
    ensures var w' := RecoverAgent(s, w, id, w.agents[id], now).0;
            Inv(s, w') && OthersSame(w, w', [id]) && Treated(s, Expiry(now), w, w', {id})
  {
    InvGivesBoundOk(s, w, id);
    var a := RecoverAgentEffect(s, w, id, now);
    var w' := RecoverAgent(s, w, id, w.agents[id], now).0;
    StandDownKeepsInv(s, w, w', id, a);
    StoodDownIsTreated(s, Expiry(now), w, w', id, a);
  }

  lemma LoggedOutIsTreated(s: Settings, w: World, id: AgentId)
    requires Inv(s, w) && id in w.agents && w.agents[id].state != AgentState.Offline
    ensures var w' := LogOutSilent(s, w, id, w.agents[id]).0;
            Inv(s, w') && OthersSame(w, w', [id]) && Treated(s, Silence, w, w', {id})
  {
    InvGivesBoundOk(s, w, id);
    var a := LogOutEffect(s, w, id);
    var w' := LogOutSilent(s, w, id, w.agents[id]).0;
    StandDownKeepsInv(s, w, w', id, a);
    StoodDownIsTreated(s, Silence, w, w', id, a);
  }

  lemma RecoveredCallIsTreated(s: Settings, w: World, key: CallKey, reports: map<CallKey, ProviderStatus>)
    requires Inv(s, w) && Active(w, key)
    ensures var w' := RecoverCall(s, w, key, w.calls[key], reports).0;
            Inv(s, w') && Treated(s, Staleness(reports), w, w', {key.agent})
  {
    ActiveIsAlone(s, w, key);
    var a, b, c := RecoverCallEffect(s, w, key, w.calls[key], reports);
    var w' := RecoverCall(s, w, key, w.calls[key], reports).0;
    CallEndedKeepsInv(s, w, w', key, a, b, c);
    CallEndedIsTreated(s, Staleness(reports), w, w', key, a, b, c);
  }

  // ---------- the five sweeps ----------

  function Those(ids: seq<AgentId>): set<AgentId> {
    set id | id in ids
  }

  lemma OneAndTheRest(ids: seq<AgentId>)
    requires ids != [] && Distinct(ids)
    ensures Those(ids) == {ids[0]} + Those(ids[1..]) && ids[0] !in Those(ids[1..])
  {
  }

  lemma {:induction false} AgentSweepTreats(
    s: Settings, w: World, ids: seq<AgentId>, read: map<AgentId, Agent>, now: Time, done: nat
  )
    requires Inv(s, w) && Distinct(ids) && AgentsFresh(w, ids, read)
    requires forall id :: id in ids ==> AgentLeaseExpired(read[id], now)
    ensures var w' := AgentSweep(s, w, ids, read, now, done).0;
            Inv(s, w') && Treated(s, Expiry(now), w, w', Those(ids))
    decreases |ids|
  {
    if ids == [] {
      NobodyTreated(s, Expiry(now), w);
      assert Those(ids) == {};
    } else {
      RecoveredIsTreated(s, w, ids[0], now);
      var (w1, ok) := RecoverAgent(s, w, ids[0], read[ids[0]], now);
      FreshOnward(w, w1, ids, read);
      var done' := if ok then done + 1 else done;
      AgentSweepTreats(s, w1, ids[1..], read, now, done');
      OneAndTheRest(ids);
      TreatedTogether(s, Expiry(now), w, w1, AgentSweep(s, w1, ids[1..], read, now, done').0,
                      ids[0], Those(ids[1..]));
    }
  }

  lemma {:induction false} HeartbeatSweepTreats(
    s: Settings, w: World, ids: seq<AgentId>, read: map<AgentId, Agent>, done: nat
  )
    requires Inv(s, w) && Distinct(ids) && AgentsFresh(w, ids, read)
    requires forall id :: id in ids ==> read[id].state != AgentState.Offline
    ensures var w' := HeartbeatSweep(s, w, ids, read, done).0;
            Inv(s, w') && Treated(s, Silence, w, w', Those(ids))
    decreases |ids|
  {
    if ids == [] {
      NobodyTreated(s, Silence, w);
      assert Those(ids) == {};
    } else {
      LoggedOutIsTreated(s, w, ids[0]);
      var (w1, ok) := LogOutSilent(s, w, ids[0], read[ids[0]]);
      FreshOnward(w, w1, ids, read);
      var done' := if ok then done + 1 else done;
      HeartbeatSweepTreats(s, w1, ids[1..], read, done');
      OneAndTheRest(ids);
      TreatedTogether(s, Silence, w, w1, HeartbeatSweep(s, w1, ids[1..], read, done').0,
                      ids[0], Those(ids[1..]));
    }
  }

  function AgentsOf(keys: seq<CallKey>): seq<AgentId> {
    seq(|keys|, i requires 0 <= i < |keys| => keys[i].agent)
  }

  /** Open calls have agents of their own. */
  lemma AgentsAreDistinct(s: Settings, w: World, keys: seq<CallKey>, read: map<CallKey, Call>)
    requires Inv(s, w) && Distinct(keys) && CallsFresh(w, keys, read)
    ensures Distinct(AgentsOf(keys))
  {
    forall i, j | 0 <= i < j < |keys| ensures keys[i].agent != keys[j].agent {
      assert keys[i] in keys && keys[j] in keys && keys[i] != keys[j];
      ActiveIsAlone(s, w, keys[i]);
      assert Active(w, keys[j]);
    }
  }

  lemma OneCallAndTheRest(s: Settings, w: World, keys: seq<CallKey>, read: map<CallKey, Call>)
    requires Inv(s, w) && keys != [] && Distinct(keys) && CallsFresh(w, keys, read)
    ensures Those(AgentsOf(keys)) == {keys[0].agent} + Those(AgentsOf(keys[1..]))
    ensures keys[0].agent !in Those(AgentsOf(keys[1..]))
  {
    AgentsAreDistinct(s, w, keys, read);
    assert AgentsOf(keys)[1..] == AgentsOf(keys[1..]);
    OneAndTheRest(AgentsOf(keys));
  }

  lemma RestIsFresh(
    s: Settings, w: World, keys: seq<CallKey>, read: map<CallKey, Call>, reports: map<CallKey, ProviderStatus>
  )
    requires keys != [] && Distinct(keys) && CallsFresh(w, keys, read)
    ensures Distinct(keys[1..])
    ensures CallsFresh(RecoverCall(s, w, keys[0], read[keys[0]], reports).0, keys[1..], read)
  {
    RecoverCallFrame(s, w, keys[0], read[keys[0]], reports);
    var w1 := RecoverCall(s, w, keys[0], read[keys[0]], reports).0;
    forall k | k in keys[1..] ensures k in read && k in w1.calls && w1.calls[k] == read[k] && !read[k].terminal {
      assert k in keys && k != keys[0];
    }
  }

  lemma {:induction false} CallSweepTreats(
    s: Settings, w: World, keys: seq<CallKey>, read: map<CallKey, Call>, reports: map<CallKey, ProviderStatus>,
    done: nat
  )
    requires Inv(s, w) && Distinct(keys) && CallsFresh(w, keys, read)
    ensures var w' := CallSweep(s, w, keys, read, reports, done).0;
            Inv(s, w') && Treated(s, Staleness(reports), w, w', Those(AgentsOf(keys)))
    decreases |keys|
  {
    if keys == [] {
      NobodyTreated(s, Staleness(reports), w);
      assert (Those(AgentsOf(keys))) == {};
    } else {
      var (w1, ok) := RecoverCall(s, w, keys[0], read[keys[0]], reports);
      RecoveredCallIsTreated(s, w, keys[0], reports);
      RestIsFresh(s, w, keys, read, reports);
      var done' := if ok then done + 1 else done;
      CallSweepTreats(s, w1, keys[1..], read, reports, done');
      OneCallAndTheRest(s, w, keys, read);
      TreatedTogether(s, Staleness(reports), w, w1, CallSweep(s, w1, keys[1..], read, reports, done').0,
                      keys[0].agent, Those(AgentsOf(keys[1..])));
    }
  }

  // ---------- with room for what each sweep finds ----------

  lemma PickedAll<T>(matching: set<T>, order: seq<T>, limit: nat)
    requires Distinct(order) && (forall x :: x in matching ==> x in order) && |matching| <= limit
    ensures Distinct(Pick(matching, order, limit))
    ensures forall x :: x in Pick(matching, order, limit) <==> x in matching
  {
    PickIsDistinct(matching, order, limit);
    PickIsFull(matching, order, limit);
  }

  lemma ExpiredAreTreated(s: Settings, w: World, now: Time, input: SweepInput)
    requires Inv(s, w) && OrdersOk(w, input) && |ExpiredAgents(w, now)| <= s.sweepLimit
    ensures Treats(s, Expiry(now), w, SweepExpiredAgents(s, w, now, input).0, ExpiredAgents(w, now))
  {
    PickedAll(ExpiredAgents(w, now), input.expired, s.sweepLimit);
    var ids := PickedAgents(s, w, now, input);
    AgentSweepTreats(s, w, ids, w.agents, now, 0);
    assert Those(ids) == ExpiredAgents(w, now);
  }

  /** The borrower is back to pending and eligible at once; no attempt is counted. */
  predicate TakenBack(b: Borrower, b': Borrower, now: Time) {
    b' == b.(status := BorrowerStatus.Pending, nextEligibleAt := now, lease := None, version := b.version + 1)
  }

  ghost predicate BorrowersTaken(w: World, w': World, now: Time, ids: set<BorrowerId>) {
    && w' == w.(borrowers := w'.borrowers) && w'.borrowers.Keys == w.borrowers.Keys
    && forall b :: b in w.borrowers ==>
         if b in ids then TakenBack(w.borrowers[b], w'.borrowers[b], now) else w'.borrowers[b] == w.borrowers[b]
  }

  lemma {:induction false} BorrowerSweepTakes(
    w: World, ids: seq<BorrowerId>, read: map<BorrowerId, Borrower>, now: Time, done: nat
  )
    requires Distinct(ids)
    requires forall b :: b in ids ==>
               b in read && b in w.borrowers && w.borrowers[b] == read[b] && BorrowerLeaseExpired(read[b], now)
    ensures BorrowersTaken(w, BorrowerSweep(w, ids, read, now, done).0, now, set b | b in ids)
    decreases |ids|
  {
    if ids == [] {
    } else {
      var (w1, r) := TryReclaimBorrower(w, ids[0], read[ids[0]], now);
      BorrowerSweepTakes(w1, ids[1..], read, now, if r.Some? then done + 1 else done);
    }
  }

  lemma ExpiredHoldsAreTaken(s: Settings, w: World, now: Time, input: SweepInput)
    requires OrdersOk(w, input) && |ExpiredBorrowers(w, now)| <= s.sweepLimit
    ensures BorrowersTaken(w, SweepExpiredBorrowers(s, w, now, input).0, now, ExpiredBorrowers(w, now))
  {
    PickedAll(ExpiredBorrowers(w, now), input.borrowers, s.sweepLimit);
    var ids := Pick(ExpiredBorrowers(w, now), input.borrowers, s.sweepLimit);
    BorrowerSweepTakes(w, ids, w.borrowers, now, 0);
    assert (set b | b in ids) == ExpiredBorrowers(w, now);
  }

  function AgentsOnStale(w: World, cutoff: Time): set<AgentId> {
    set k | k in StaleCalls(w, cutoff) :: k.agent
  }

  lemma StaleAreTreated(s: Settings, w: World, now: Time, input: SweepInput)
    requires Inv(s, w) && OrdersOk(w, input) && |StaleCalls(w, now - s.staleTimeout)| <= s.sweepLimit
    ensures Treats(s, Staleness(input.reports), w, SweepStaleCalls(s, w, now, input).0,
                   AgentsOnStale(w, now - s.staleTimeout))
  {
    var stale := StaleCalls(w, now - s.staleTimeout);
    PickedAll(stale, input.calls, s.sweepLimit);
    CallsInTreated(s, w, stale, Pick(stale, input.calls, s.sweepLimit), input.reports);
  }

  lemma CallsInTreated(
    s: Settings, w: World, stale: set<CallKey>, keys: seq<CallKey>, reports: map<CallKey, ProviderStatus>
  )
    requires Inv(s, w) && Distinct(keys)
    requires (forall k :: k in keys <==> k in stale) && forall k :: k in stale ==> Active(w, k)
    ensures Treats(s, Staleness(reports), w, CallSweep(s, w, keys, w.calls, reports, 0).0,
                   set k | k in stale :: k.agent)
  {
    CallSweepTreats(s, w, keys, w.calls, reports, 0);
    AgentsOfThose(keys, stale);
  }

  lemma AgentsOfThose(keys: seq<CallKey>, stale: set<CallKey>)
    requires forall k :: k in keys <==> k in stale
    ensures Those(AgentsOf(keys)) == set k | k in stale :: k.agent
  {
    forall id | id in (set k | k in stale :: k.agent) ensures id in Those(AgentsOf(keys)) {
      var k :| k in stale && k.agent == id;
      var i :| 0 <= i < |keys| && keys[i] == k;
      assert AgentsOf(keys)[i] == id;
    }
  }

  lemma SilentAreTreated(s: Settings, w: World, now: Time, input: SweepInput)
    requires Inv(s, w) && OrdersOk(w, input) && |SilentAgents(w, now - s.heartbeatTimeout)| <= s.sweepLimit
    ensures Treats(s, Silence, w, SweepSilentAgents(s, w, now, input).0, SilentAgents(w, now - s.heartbeatTimeout))
  {
    var silent := SilentAgents(w, now - s.heartbeatTimeout);
    PickedAll(silent, input.silent, s.sweepLimit);
    AgentsInSilence(s, w, silent, Pick(silent, input.silent, s.sweepLimit));
  }

  lemma AgentsInSilence(s: Settings, w: World, silent: set<AgentId>, ids: seq<AgentId>)
    requires Inv(s, w) && Distinct(ids) && (forall id :: id in ids <==> id in silent)
    requires forall id :: id in silent ==> id in w.agents && w.agents[id].state != AgentState.Offline
    ensures Treats(s, Silence, w, HeartbeatSweep(s, w, ids, w.agents, 0).0, silent)
  {
    HeartbeatSweepTreats(s, w, ids, w.agents, 0);
    assert Those(ids) == silent;
  }

  predicate WrapUpDone(a: Agent, a': Agent) {
    OnceMoved(a', a) && a'.state == AgentState.Available && a'.lease == a.lease && a'.currentCall == a.currentCall
    && a'.campaign == a.campaign
  }

  ghost predicate WrapUpsEnded(w: World, w': World, ids: set<AgentId>) {
    && w'.calls == w.calls && w'.borrowers == w.borrowers && w'.agents.Keys == w.agents.Keys
    && forall id :: id in w.agents ==>
         if id in ids then WrapUpDone(w.agents[id], w'.agents[id]) else w'.agents[id] == w.agents[id]
  }

  lemma {:induction false} WrapUpSweepEnds(
    w: World, ids: seq<AgentId>, read: map<AgentId, Agent>, actor: Actor, done: nat
  )
    requires actor == Recovery || actor == WorkerTimer
    requires Distinct(ids) && AgentsFresh(w, ids, read)
    requires forall id :: id in ids ==> read[id].state == AgentState.WrapUp
    ensures WrapUpsEnded(w, WrapUpSweep(w, ids, read, actor, done).0, Those(ids))
    decreases |ids|
  {
    if ids == [] {
    } else {
      var (w1, ok) := FinishWrapUp(w, ids[0], read[ids[0]], actor);
      var done' := if ok then done + 1 else done;
      WrapUpIsEnded(w, ids[0], actor, w1);
      FreshOnward(w, w1, ids, read);
      WrapUpSweepEnds(w1, ids[1..], read, actor, done');
      OneAndTheRest(ids);
      WrapUpsTogether(w, w1, WrapUpSweep(w1, ids[1..], read, actor, done').0, ids[0], Those(ids[1..]));
    }
  }

  lemma WrapUpIsEnded(w: World, id: AgentId, actor: Actor, w': World)
    requires id in w.agents && w.agents[id].state == AgentState.WrapUp && (actor == Recovery || actor == WorkerTimer)
    requires w' == FinishWrapUp(w, id, w.agents[id], actor).0
    ensures WrapUpsEnded(w, w', {id}) && OthersSame(w, w', [id])
  {
    var a := FinishWrapUpEffect(w, id, actor);
  }

  lemma WrapUpsTogether(w: World, w1: World, w2: World, id: AgentId, rest: set<AgentId>)
    requires WrapUpsEnded(w, w1, {id}) && WrapUpsEnded(w1, w2, rest) && id !in rest
    ensures WrapUpsEnded(w, w2, {id} + rest)
  {
  }

  lemma StuckAreEnded(s: Settings, w: World, now: Time, input: SweepInput)
    requires OrdersOk(w, input) && |FinishedWrapUps(w, now - StuckWrapUpAge(s))| <= s.sweepLimit
    ensures WrapUpsEnded(w, SweepStuckWrapUps(s, w, now, input).0, FinishedWrapUps(w, now - StuckWrapUpAge(s)))
  {
    var stuck := FinishedWrapUps(w, now - StuckWrapUpAge(s));
    PickedAll(stuck, input.wrapUps, s.sweepLimit);
    var ids := Pick(stuck, input.wrapUps, s.sweepLimit);
    WrapUpSweepEnds(w, ids, w.agents, Recovery, 0);
    assert Those(ids) == stuck;
  }

  // ---------- a whole run ----------

  /** The stores between the five sweeps, and the one after them. */
  datatype Five = Five(x1: World, x2: World, x3: World, x4: World, x5: World)

  ghost predicate InStages(s: Settings, w: World, now: Time, reports: map<CallKey, ProviderStatus>, g: Five) {
    && Treats(s, Expiry(now), w, g.x1, ExpiredAgents(w, now))
    && BorrowersTaken(g.x1, g.x2, now, ExpiredBorrowers(g.x1, now))
    && Treats(s, Staleness(reports), g.x2, g.x3, AgentsOnStale(g.x2, now - s.staleTimeout))
    && Treats(s, Silence, g.x3, g.x4, SilentAgents(g.x3, now - s.heartbeatTimeout))
    && WrapUpsEnded(g.x4, g.x5, FinishedWrapUps(g.x4, now - StuckWrapUpAge(s)))
  }

  lemma TakingKeepsInv(s: Settings, w: World, now: Time, input: SweepInput)
    requires Inv(s, w) && ExpiredAgents(w, now) == {} && Distinct(input.borrowers)
    ensures Inv(s, SweepExpiredBorrowers(s, w, now, input).0)
  {
    PickIsDistinct(ExpiredBorrowers(w, now), input.borrowers, s.sweepLimit);
    var held := Pick(ExpiredBorrowers(w, now), input.borrowers, s.sweepLimit);
    forall k | Active(w, k) ensures k.borrower !in held {
      BorrowersOutlastAgents(s, w, k, now);
    }
    BorrowerSweepKeepsInv(s, w, held, w.borrowers, now, 0);
  }

  lemma Consistent(s: Settings, w: World)
    requires Inv(s, w)
    ensures CallsConsistent(w)
  {
    forall k | k in w.calls ensures CallConsistent(w.calls[k]) {
      assert CallOk(w, k);
    }
  }

  lemma FirstTwoStages(s: Settings, w: World, now: Time, input: SweepInput) returns (x1: World, x2: World)
    requires Inv(s, w) && OrdersOk(w, input) && BacklogOf(s, w, now).Fits(s.sweepLimit)
    ensures SweepExpiredAgents(s, w, now, input) == (x1, |ExpiredAgents(w, now)|)
    ensures SweepExpiredBorrowers(s, x1, now, input) == (x2, |ExpiredBorrowers(x1, now)|)
    ensures Treats(s, Expiry(now), w, x1, ExpiredAgents(w, now))
    ensures BorrowersTaken(x1, x2, now, ExpiredBorrowers(x1, now))
    ensures Inv(s, x2) && OrdersOk(x2, input) && BacklogOf(s, x2, now).Fits(s.sweepLimit)
  {
    x1 := SweepExpiredAgents(s, w, now, input).0;
    x2 := SweepExpiredBorrowers(s, x1, now, input).0;
    Consistent(s, w);
    ExpiredAreTreated(s, w, now, input);
    AgentStep(s, w, now, input);
    AgentSweepLeaves(s, w, now, input);
    SubsetIsNoLarger(ExpiredBorrowers(x1, now), ExpiredBorrowers(w, now));
    ExpiredHoldsAreTaken(s, x1, now, input);
    BorrowerSweepLeaves(s, x1, now, input);
    TakingKeepsInv(s, x1, now, input);
    NoWorseThrough(s, w, x1, x2, now);
    BacklogShrinks(s, w, x2, now);
  }

  lemma ThirdStage(s: Settings, w: World, now: Time, input: SweepInput) returns (x3: World)
    requires Inv(s, w) && OrdersOk(w, input) && BacklogOf(s, w, now).Fits(s.sweepLimit)
    ensures SweepStaleCalls(s, w, now, input) == (x3, |StaleCalls(w, now - s.staleTimeout)|)
    ensures Treats(s, Staleness(input.reports), w, x3, AgentsOnStale(w, now - s.staleTimeout))
    ensures Inv(s, x3) && OrdersOk(x3, input) && BacklogOf(s, x3, now).Fits(s.sweepLimit)
  {
    Consistent(s, w);
    StaleAreTreated(s, w, now, input);
    StaleSweepKeepsInv(s, w, now, input);
    CallSweepLeaves(s, w, now, input);
    x3 := SweepStaleCalls(s, w, now, input).0;
    BacklogShrinks(s, w, x3, now);
  }

  lemma FourthStage(s: Settings, w: World, now: Time, input: SweepInput) returns (x4: World)
    requires Inv(s, w) && OrdersOk(w, input) && BacklogOf(s, w, now).Fits(s.sweepLimit)
    ensures SweepSilentAgents(s, w, now, input) == (x4, |SilentAgents(w, now - s.heartbeatTimeout)|)
    ensures Treats(s, Silence, w, x4, SilentAgents(w, now - s.heartbeatTimeout))
    ensures Inv(s, x4) && OrdersOk(x4, input) && BacklogOf(s, x4, now).Fits(s.sweepLimit)
  {
    Consistent(s, w);
    SilentAreTreated(s, w, now, input);
    SilentSweepKeepsInv(s, w, now, input);
    HeartbeatSweepLeaves(s, w, now, input);
    x4 := SweepSilentAgents(s, w, now, input).0;
    BacklogShrinks(s, w, x4, now);
  }

  lemma FifthStage(s: Settings, w: World, now: Time, input: SweepInput) returns (x5: World)
    requires Inv(s, w) && OrdersOk(w, input) && BacklogOf(s, w, now).Fits(s.sweepLimit)
    ensures SweepStuckWrapUps(s, w, now, input) == (x5, |FinishedWrapUps(w, now - StuckWrapUpAge(s))|)
    ensures WrapUpsEnded(w, x5, FinishedWrapUps(w, now - StuckWrapUpAge(s)))
  {
    Consistent(s, w);
    StuckAreEnded(s, w, now, input);
    WrapUpSweepLeaves(s, w, now, input);
    x5 := SweepStuckWrapUps(s, w, now, input).0;
  }

  lemma LastStages(s: Settings, w: World, now: Time, input: SweepInput) returns (x3: World, x4: World, x5: World)
    requires Inv(s, w) && OrdersOk(w, input) && BacklogOf(s, w, now).Fits(s.sweepLimit)
    ensures SweepStaleCalls(s, w, now, input) == (x3, |StaleCalls(w, now - s.staleTimeout)|)
    ensures SweepSilentAgents(s, x3, now, input) == (x4, |SilentAgents(x3, now - s.heartbeatTimeout)|)
    ensures SweepStuckWrapUps(s, x4, now, input) == (x5, |FinishedWrapUps(x4, now - StuckWrapUpAge(s))|)
    ensures Treats(s, Staleness(input.reports), w, x3, AgentsOnStale(w, now - s.staleTimeout))
    ensures Treats(s, Silence, x3, x4, SilentAgents(x3, now - s.heartbeatTimeout))
    ensures WrapUpsEnded(x4, x5, FinishedWrapUps(x4, now - StuckWrapUpAge(s)))
  {
    x3 := ThirdStage(s, w, now, input);
    x4 := FourthStage(s, x3, now, input);
    x5 := FifthStage(s, x4, now, input);
  }

  lemma StagesInTurn(s: Settings, w: World, now: Time, input: SweepInput) returns (g: Five)
    requires Inv(s, w) && OrdersOk(w, input) && BacklogOf(s, w, now).Fits(s.sweepLimit)
    ensures InStages(s, w, now, input.reports, g)
    ensures SweepExpiredAgents(s, w, now, input) == (g.x1, |ExpiredAgents(w, now)|)
    ensures SweepExpiredBorrowers(s, g.x1, now, input) == (g.x2, |ExpiredBorrowers(g.x1, now)|)
    ensures SweepStaleCalls(s, g.x2, now, input) == (g.x3, |StaleCalls(g.x2, now - s.staleTimeout)|)
    ensures SweepSilentAgents(s, g.x3, now, input) == (g.x4, |SilentAgents(g.x3, now - s.heartbeatTimeout)|)
    ensures SweepStuckWrapUps(s, g.x4, now, input) == (g.x5, |FinishedWrapUps(g.x4, now - StuckWrapUpAge(s))|)
  {
    var x1, x2 := FirstTwoStages(s, w, now, input);
    var x3, x4, x5 := LastStages(s, x2, now, input);
    g := Five(x1, x2, x3, x4, x5);
  }

  lemma RunInStages(s: Settings, w: World, now: Time, input: SweepInput) returns (g: Five)
    requires Inv(s, w) && OrdersOk(w, input) && BacklogOf(s, w, now).Fits(s.sweepLimit)
    ensures InStages(s, w, now, input.reports, g)
    ensures SweepsAt(s, w, now, input)
            == (g.x5,
                Counts(|ExpiredAgents(w, now)|, |ExpiredBorrowers(g.x1, now)|, |StaleCalls(g.x2, now - s.staleTimeout)|,
                       |SilentAgents(g.x3, now - s.heartbeatTimeout)|,
                       |FinishedWrapUps(g.x4, now - StuckWrapUpAge(s))|))
  {
    g := StagesInTurn(s, w, now, input);
    OneAfterAnother(s, w, now, input, g, |ExpiredAgents(w, now)|, |ExpiredBorrowers(g.x1, now)|,
                    |StaleCalls(g.x2, now - s.staleTimeout)|, |SilentAgents(g.x3, now - s.heartbeatTimeout)|,
                    |FinishedWrapUps(g.x4, now - StuckWrapUpAge(s))|);
  }

  lemma OneAfterAnother(
    s: Settings, w: World, now: Time, input: SweepInput, g: Five, n1: nat, n2: nat, n3: nat, n4: nat, n5: nat
  )
    requires SweepExpiredAgents(s, w, now, input) == (g.x1, n1)
    requires SweepExpiredBorrowers(s, g.x1, now, input) == (g.x2, n2)
    requires SweepStaleCalls(s, g.x2, now, input) == (g.x3, n3)
    requires SweepSilentAgents(s, g.x3, now, input) == (g.x4, n4)
    requires SweepStuckWrapUps(s, g.x4, now, input) == (g.x5, n5)
    ensures SweepsAt(s, w, now, input) == (g.x5, Counts(n1, n2, n3, n4, n5))
  {
  }

  lemma BacklogShrinks(s: Settings, w: World, w': World, now: Time)
    requires NoWorse(s, w, w', now) && BacklogOf(s, w, now).Fits(s.sweepLimit)
    ensures BacklogOf(s, w', now).Fits(s.sweepLimit)
  {
    var b, b' := BacklogOf(s, w, now), BacklogOf(s, w', now);
    SubsetIsNoLarger(b'.agents, b.agents);
    SubsetIsNoLarger(b'.borrowers, b.borrowers);
    SubsetIsNoLarger(b'.calls, b.calls);
    SubsetIsNoLarger(b'.silent, b.silent);
    SubsetIsNoLarger(b'.wrapUps, b.wrapUps);
  }

  // ---------- what becomes of each document ----------

  /** The agent's lease has run out while it is reserved, on a call or in wrap-up. */
  predicate RanOut(a: Agent, now: Time) {
    a.state != AgentState.Offline && a.state != AgentState.Available && a.state != AgentState.Paused
    && a.lease.Some? && a.lease.value.expiresAt < now
  }

  predicate Unheard(a: Agent, cutoff: Time) {
    a.state != AgentState.Offline && a.lastHeartbeat.Some? && a.lastHeartbeat.value < cutoff
  }

  lemma RanOutIsExpired(w: World, now: Time)
    ensures forall id :: id in ExpiredAgents(w, now) <==> id in w.agents && RanOut(w.agents[id], now)
  {
    ReleaseSources();
  }

  /** An open call of `w` that has not been written to since the cutoff, its agent's lease still good. */
  predicate LeftStale(s: Settings, w: World, k: CallKey, now: Time) {
    Active(w, k) && k.agent in w.agents && !RanOut(w.agents[k.agent], now)
    && w.calls[k].updatedAt < now - s.staleTimeout
  }

  /** An open call that the run ends. */
  predicate EndedByRun(s: Settings, w: World, k: CallKey, now: Time) {
    Active(w, k) && k.agent in w.agents
    && (RanOut(w.agents[k.agent], now) || w.calls[k].updatedAt < now - s.staleTimeout
        || Unheard(w.agents[k.agent], now - s.heartbeatTimeout))
  }

  /** What a run makes of call `k`: its agent's lease comes first, then what its provider says, then silence. */
  predicate CallAfterRun(
    s: Settings, w: World, now: Time, reports: map<CallKey, ProviderStatus>, k: CallKey, c': Call
  )
    requires k in w.calls && k.agent in w.agents
  {
    var c, a := w.calls[k], w.agents[k.agent];
    if c.terminal then c' == c
    else if RanOut(a, now) then c'.state == CallState.Cancelled && c'.terminal
    else if c.updatedAt < now - s.staleTimeout then
      c'.terminal
      && (c'.state == CallState.Completed
          <==> c.providerCallId.Some? && k in reports && reports[k] == CompletedStatus)
      && (c'.state == CallState.Completed || c'.state == CallState.Failed)
    else if Unheard(a, now - s.heartbeatTimeout) then c'.state == CallState.Cancelled && c'.terminal
    else c' == c
  }

  lemma OpenAfterExpiry(s: Settings, w: World, now: Time, reports: map<CallKey, ProviderStatus>, g: Five, k: CallKey)
    requires Inv(s, w) && InStages(s, w, now, reports, g) && k in w.calls && k.agent in w.agents
    ensures k in g.x2.calls
    ensures if Active(w, k) && RanOut(w.agents[k.agent], now) then
              g.x2.calls[k].state == CallState.Cancelled && g.x2.calls[k].terminal
            else g.x2.calls[k] == w.calls[k]
    ensures k.agent in g.x2.agents
    ensures !RanOut(w.agents[k.agent], now) ==> g.x2.agents[k.agent] == w.agents[k.agent]
  {
    RanOutIsExpired(w, now);
    var ids :| ids == ExpiredAgents(w, now) && Treated(s, Expiry(now), w, g.x1, ids);
  }

  /** No call is open after the first two sweeps that was not before, and each agent is still on one at most. */
  lemma OneStaleEach(s: Settings, w: World, now: Time, reports: map<CallKey, ProviderStatus>, g: Five, k: CallKey)
    requires Inv(s, w) && InStages(s, w, now, reports, g) && Active(g.x2, k)
    ensures k.agent in AgentsOnStale(g.x2, now - s.staleTimeout) <==> g.x2.calls[k].updatedAt < now - s.staleTimeout
  {
    StillOpen(s, w, now, reports, g);
    ActiveIsAlone(s, w, k);
    if k.agent in AgentsOnStale(g.x2, now - s.staleTimeout) {
      var z :| z in StaleCalls(g.x2, now - s.staleTimeout) && z.agent == k.agent;
      assert Active(g.x2, z);
    }
  }

  lemma StillOpen(s: Settings, w: World, now: Time, reports: map<CallKey, ProviderStatus>, g: Five)
    requires InStages(s, w, now, reports, g)
    ensures forall k :: Active(g.x2, k) <==> Active(w, k) && k.agent !in ExpiredAgents(w, now)
    ensures g.x2.calls.Keys == w.calls.Keys
  {
    var ids :| ids == ExpiredAgents(w, now) && Treated(s, Expiry(now), w, g.x1, ids);
    OpenCallsLeft(s, Expiry(now), w, g.x1, ids);
  }

  lemma StaleSweepOnCall(
    s: Settings, x: World, x': World, reports: map<CallKey, ProviderStatus>, ids: set<AgentId>, k: CallKey
  )
    requires Treats(s, Staleness(reports), x, x', ids) && k in x.calls
    ensures k in x'.calls
    ensures if Active(x, k) && k.agent in ids then CallDone(Staleness(reports), k, x.calls[k], x'.calls[k])
            else x'.calls[k] == x.calls[k]
    ensures k.agent in x.agents && k.agent !in ids ==>
              k.agent in x'.agents && x'.agents[k.agent] == x.agents[k.agent]
  {
    var those :| those == ids && Treated(s, Staleness(reports), x, x', those);
  }

  lemma SilenceSweepOnCall(s: Settings, x: World, x': World, ids: set<AgentId>, k: CallKey)
    requires Treats(s, Silence, x, x', ids) && k in x.calls
    ensures k in x'.calls
    ensures if Active(x, k) && k.agent in ids then CallDone(Silence, k, x.calls[k], x'.calls[k])
            else x'.calls[k] == x.calls[k]
  {
    var those :| those == ids && Treated(s, Silence, x, x', those);
  }

  /** A stale call ends as its provider says; a run gets to it unless its agent's lease has run out. */
  lemma CallsAfterARun(s: Settings, w: World, now: Time, input: SweepInput, k: CallKey)
    requires Inv(s, w) && OrdersOk(w, input) && BacklogOf(s, w, now).Fits(s.sweepLimit) && k in w.calls
    ensures k.agent in w.agents
    ensures var w' := SweepsAt(s, w, now, input).0;
            k in w'.calls && CallAfterRun(s, w, now, input.reports, k, w'.calls[k])
  {
    assert CallOk(w, k);
    var g := RunInStages(s, w, now, input);
    OneCallThrough(s, w, now, input.reports, g, k);
  }

  lemma OneCallThrough(s: Settings, w: World, now: Time, reports: map<CallKey, ProviderStatus>, g: Five, k: CallKey)
    requires Inv(s, w) && InStages(s, w, now, reports, g) && k in w.calls && k.agent in w.agents
    ensures k in g.x5.calls && CallAfterRun(s, w, now, reports, k, g.x5.calls[k])
  {
    OpenAfterExpiry(s, w, now, reports, g, k);
    if Active(g.x2, k) { OneStaleEach(s, w, now, reports, g, k); }
    StaleSweepOnCall(s, g.x2, g.x3, reports, AgentsOnStale(g.x2, now - s.staleTimeout), k);
    SilenceSweepOnCall(s, g.x3, g.x4, SilentAgents(g.x3, now - s.heartbeatTimeout), k);
    OneCallPieced(s, w, now, reports, k, g.x2.calls[k], g.x3.calls[k], g.x4.calls[k],
                  k.agent in AgentsOnStale(g.x2, now - s.staleTimeout),
                  k.agent in SilentAgents(g.x3, now - s.heartbeatTimeout));
  }

  lemma OneCallPieced(
    s: Settings, w: World, now: Time, reports: map<CallKey, ProviderStatus>, k: CallKey, c2: Call, c3: Call, c4: Call,
    stale: bool, silent: bool
  )
    requires k in w.calls && k.agent in w.agents
    requires if Active(w, k) && RanOut(w.agents[k.agent], now) then c2.state == CallState.Cancelled && c2.terminal
             else c2 == w.calls[k]
    requires !c2.terminal ==> (stale <==> c2.updatedAt < now - s.staleTimeout)
    requires if !c2.terminal && stale then CallDone(Staleness(reports), k, c2, c3) else c3 == c2
    requires !c2.terminal && !stale ==> (silent <==> Unheard(w.agents[k.agent], now - s.heartbeatTimeout))
    requires if !c3.terminal && silent then CallDone(Silence, k, c3, c4) else c4 == c3
    ensures CallAfterRun(s, w, now, reports, k, c4)
  {
  }

  // ---------- agents ----------

  ghost predicate OnStaleCall(s: Settings, w: World, id: AgentId, now: Time) {
    exists k :: LeftStale(s, w, k, now) && k.agent == id
  }

  predicate AtRest(a: Agent) {
    a.state == AgentState.Available && a.lease.None? && a.currentCall.None?
  }

  /** What a run makes of an agent: silence has the last word, and a wrap-up is ended after three times its length. */
  ghost predicate AgentAfterRun(s: Settings, w: World, now: Time, id: AgentId, a': Agent)
    requires id in w.agents
  {
    var a := w.agents[id];
    if Unheard(a, now - s.heartbeatTimeout) then a'.state == AgentState.Offline
    else if RanOut(a, now) || OnStaleCall(s, w, id, now) then AtRest(a')
    else if a.state == AgentState.WrapUp && a.stateChangedAt <= now - 3 * s.wrapUp then
      WrapUpDone(a, a')
    else a' == a
  }

  lemma TreatedAgent(s: Settings, cause: Cause, x: World, x': World, ids: set<AgentId>, id: AgentId)
    requires Treats(s, cause, x, x', ids) && id in x.agents
    ensures id in x'.agents
    ensures if id in ids then AgentDone(cause, x.agents[id], x'.agents[id]) else x'.agents[id] == x.agents[id]
  {
    var those :| those == ids && Treated(s, cause, x, x', those);
  }

  lemma StaleAgentIs(s: Settings, w: World, now: Time, reports: map<CallKey, ProviderStatus>, g: Five, id: AgentId)
    requires Inv(s, w) && InStages(s, w, now, reports, g)
    ensures id in AgentsOnStale(g.x2, now - s.staleTimeout) <==> OnStaleCall(s, w, id, now)
  {
    StillOpen(s, w, now, reports, g);
    RanOutIsExpired(w, now);
    forall k | Active(w, k) ensures k.agent in w.agents && LeftStale(s, w, k, now)
                                    == (k in StaleCalls(g.x2, now - s.staleTimeout)) {
      assert CallOk(w, k);
      OpenAfterExpiry(s, w, now, reports, g, k);
    }
    if OnStaleCall(s, w, id, now) {
      var k :| LeftStale(s, w, k, now) && k.agent == id;
      assert k in StaleCalls(g.x2, now - s.staleTimeout);
    }
    if id in AgentsOnStale(g.x2, now - s.staleTimeout) {
      var k :| k in StaleCalls(g.x2, now - s.staleTimeout) && k.agent == id;
      assert Active(g.x2, k) && Active(w, k);
    }
  }

  lemma AgentsAfterARun(s: Settings, w: World, now: Time, input: SweepInput, id: AgentId)
    requires Inv(s, w) && OrdersOk(w, input) && BacklogOf(s, w, now).Fits(s.sweepLimit) && id in w.agents
    ensures var w' := SweepsAt(s, w, now, input).0;
            id in w'.agents && AgentAfterRun(s, w, now, id, w'.agents[id])
  {
    var g := RunInStages(s, w, now, input);
    OneAgentThrough(s, w, now, input.reports, g, id);
  }

  lemma OneAgentThrough(s: Settings, w: World, now: Time, reports: map<CallKey, ProviderStatus>, g: Five, id: AgentId)
    requires Inv(s, w) && InStages(s, w, now, reports, g) && id in w.agents
    ensures id in g.x5.agents && AgentAfterRun(s, w, now, id, g.x5.agents[id])
  {
    StaleAgentIs(s, w, now, reports, g, id);
    OnCallIsBusy(s, w, now, id);
    OneAgentInStages(s, w, now, reports, g, id, OnStaleCall(s, w, id, now));
    OneAgentPieced(s, w, now, id, g.x2.agents[id], g.x3.agents[id], g.x4.agents[id], g.x5.agents[id], reports);
  }

  lemma OnCallIsBusy(s: Settings, w: World, now: Time, id: AgentId)
    requires Inv(s, w) && id in w.agents
    ensures OnStaleCall(s, w, id, now) ==> w.agents[id].state != AgentState.Offline
  {
    if k :| LeftStale(s, w, k, now) && k.agent == id {
      ActiveIsAlone(s, w, k);
    }
  }

  lemma OneAgentInStages(
    s: Settings, w: World, now: Time, reports: map<CallKey, ProviderStatus>, g: Five, id: AgentId, stale: bool
  )
    requires InStages(s, w, now, reports, g) && id in w.agents
    requires stale <==> id in AgentsOnStale(g.x2, now - s.staleTimeout)
    ensures id in g.x2.agents && id in g.x3.agents && id in g.x4.agents && id in g.x5.agents
    ensures var a, a2, a3 := w.agents[id], g.x2.agents[id], g.x3.agents[id];
            var a4, a5 := g.x4.agents[id], g.x5.agents[id];
            && (if RanOut(a, now) then AgentDone(Expiry(now), a, a2) else a2 == a)
            && (if stale then AgentDone(Staleness(reports), a2, a3) else a3 == a2)
            && (if HeartbeatExpired(a3, now - s.heartbeatTimeout) then AgentDone(Silence, a3, a4) else a4 == a3)
            && (if WrapUpFinished(a4, now - StuckWrapUpAge(s)) then WrapUpDone(a4, a5) else a5 == a4)
  {
    RanOutIsExpired(w, now);
    TreatedAgent(s, Expiry(now), w, g.x1, ExpiredAgents(w, now), id);
    TreatedAgent(s, Staleness(reports), g.x2, g.x3, AgentsOnStale(g.x2, now - s.staleTimeout), id);
    TreatedAgent(s, Silence, g.x3, g.x4, SilentAgents(g.x3, now - s.heartbeatTimeout), id);
  }

  lemma OneAgentPieced(
    s: Settings, w: World, now: Time, id: AgentId, a2: Agent, a3: Agent, a4: Agent, a5: Agent,
    reports: map<CallKey, ProviderStatus>
  )
    requires id in w.agents
    requires if RanOut(w.agents[id], now) then AgentDone(Expiry(now), w.agents[id], a2) else a2 == w.agents[id]
    requires if OnStaleCall(s, w, id, now) then AgentDone(Staleness(reports), a2, a3) else a3 == a2
    requires if HeartbeatExpired(a3, now - s.heartbeatTimeout) then AgentDone(Silence, a3, a4) else a4 == a3
    requires if WrapUpFinished(a4, now - StuckWrapUpAge(s)) then WrapUpDone(a4, a5) else a5 == a4
    requires OnStaleCall(s, w, id, now) ==> w.agents[id].state != AgentState.Offline
    ensures AgentAfterRun(s, w, now, id, a5)
  {
  }

  // ---------- borrowers ----------

  /** What a run makes of a borrower: an attempt more if its call was ended, and its hold taken back if it ran out. */
  ghost predicate BorrowerAfterRun(s: Settings, w: World, now: Time, b: BorrowerId, b': Borrower)
    requires b in w.borrowers
  {
    var was := w.borrowers[b];
    if exists k :: EndedByRun(s, w, k, now) && k.borrower == b then Retried(s, was, b')
    else if was.lease.Some? && was.lease.value.expiresAt < now then TakenBack(was, b', now)
    else b' == was
  }

  lemma TreatedBorrower(s: Settings, cause: Cause, x: World, x': World, ids: set<AgentId>, b: BorrowerId)
    requires Treats(s, cause, x, x', ids) && b in x.borrowers
    ensures b in x'.borrowers
    ensures if OnCallOf(x, b, ids) then Retried(s, x.borrowers[b], x'.borrowers[b])
            else x'.borrowers[b] == x.borrowers[b]
  {
    var those :| those == ids && Treated(s, cause, x, x', those);
  }

  lemma OneBorrowerInStages(
    s: Settings, w: World, now: Time, reports: map<CallKey, ProviderStatus>, g: Five, b: BorrowerId
  )
    requires InStages(s, w, now, reports, g) && b in w.borrowers
    ensures b in g.x1.borrowers && b in g.x2.borrowers && b in g.x3.borrowers && b in g.x5.borrowers
    ensures var b0, b1, b2 := w.borrowers[b], g.x1.borrowers[b], g.x2.borrowers[b];
            var b3, b5 := g.x3.borrowers[b], g.x5.borrowers[b];
            && (if OnCallOf(w, b, ExpiredAgents(w, now)) then Retried(s, b0, b1) else b1 == b0)
            && (if BorrowerLeaseExpired(b1, now) then TakenBack(b1, b2, now) else b2 == b1)
            && (if OnCallOf(g.x2, b, AgentsOnStale(g.x2, now - s.staleTimeout)) then Retried(s, b2, b3) else b3 == b2)
            && (if OnCallOf(g.x3, b, SilentAgents(g.x3, now - s.heartbeatTimeout)) then Retried(s, b3, b5)
                else b5 == b3)
  {
    TreatedBorrower(s, Expiry(now), w, g.x1, ExpiredAgents(w, now), b);
    TreatedBorrower(s, Staleness(reports), g.x2, g.x3, AgentsOnStale(g.x2, now - s.staleTimeout), b);
    TreatedBorrower(s, Silence, g.x3, g.x4, SilentAgents(g.x3, now - s.heartbeatTimeout), b);
  }

  /** The open calls after three sweeps are those before whose agent's lease is good and that are not stale. */
  lemma OpenAfterStale(s: Settings, w: World, now: Time, reports: map<CallKey, ProviderStatus>, g: Five, k: CallKey)
    requires Inv(s, w) && InStages(s, w, now, reports, g) && k in w.calls && k.agent in w.agents
    ensures Active(g.x2, k) <==> Active(w, k) && !RanOut(w.agents[k.agent], now)
    ensures Active(g.x2, k) ==>
              (k.agent in AgentsOnStale(g.x2, now - s.staleTimeout) <==> LeftStale(s, w, k, now))
    ensures Active(g.x3, k) <==> Active(g.x2, k) && !LeftStale(s, w, k, now)
    ensures Active(g.x3, k) ==> k.agent in g.x3.agents && g.x3.agents[k.agent] == w.agents[k.agent]
  {
    OpenAfterExpiry(s, w, now, reports, g, k);
    if Active(g.x2, k) { OneStaleEach(s, w, now, reports, g, k); }
    StaleSweepOnCall(s, g.x2, g.x3, reports, AgentsOnStale(g.x2, now - s.staleTimeout), k);
  }

  ghost predicate NoneOpenWith(w: World, b: BorrowerId) {
    forall k :: Active(w, k) ==> k.borrower != b
  }

  ghost predicate SoleOpenWith(w: World, b: BorrowerId, k: CallKey) {
    k.borrower == b && forall z :: Active(w, z) && z.borrower == b ==> z == k
  }

  lemma OnlyClosing(s: Settings, w: World, now: Time, reports: map<CallKey, ProviderStatus>, g: Five)
    requires InStages(s, w, now, reports, g)
    ensures forall k :: Active(g.x2, k) ==> Active(w, k)
    ensures forall k :: Active(g.x3, k) ==> Active(g.x2, k)
  {
    StillOpen(s, w, now, reports, g);
    TreatingOnlyCloses(s, Staleness(reports), g.x2, g.x3, AgentsOnStale(g.x2, now - s.staleTimeout));
  }

  lemma TreatingOnlyCloses(s: Settings, cause: Cause, x: World, x': World, ids: set<AgentId>)
    requires Treats(s, cause, x, x', ids)
    ensures forall k :: Active(x', k) ==> Active(x, k)
  {
    var those :| those == ids && Treated(s, cause, x, x', those);
    OpenCallsLeft(s, cause, x, x', those);
  }

  lemma SoleIsOnCall(x: World, b: BorrowerId, k: CallKey, ids: set<AgentId>)
    requires SoleOpenWith(x, b, k)
    ensures OnCallOf(x, b, ids) <==> Active(x, k) && k.agent in ids
  {
  }

  lemma FreeBorrowerThrough(
    s: Settings, w: World, now: Time, reports: map<CallKey, ProviderStatus>, g: Five, b: BorrowerId
  )
    requires Inv(s, w) && InStages(s, w, now, reports, g) && b in w.borrowers && NoneOpenWith(w, b)
    ensures b in g.x5.borrowers && BorrowerAfterRun(s, w, now, b, g.x5.borrowers[b])
  {
    OnlyClosing(s, w, now, reports, g);
    OneBorrowerInStages(s, w, now, reports, g, b);
    assert BorrowerOk(s, w.borrowers[b]);
  }

  lemma HeldBorrowerThrough(
    s: Settings, w: World, now: Time, reports: map<CallKey, ProviderStatus>, g: Five, b: BorrowerId, k: CallKey
  )
    requires Inv(s, w) && InStages(s, w, now, reports, g) && b in w.borrowers
    requires Active(w, k) && SoleOpenWith(w, b, k)
    ensures b in g.x5.borrowers && BorrowerAfterRun(s, w, now, b, g.x5.borrowers[b])
  {
    assert CallOk(w, k);
    HeldBorrowerInStages(s, w, now, reports, g, b, k);
    OneBorrowerInStages(s, w, now, reports, g, b);
    HoldIsGood(s, w, now, k);
    EndedIffByRun(s, w, now, b, k);
    OneBorrowerPieced(s, w, now, b, k, g.x1.borrowers[b], g.x2.borrowers[b], g.x3.borrowers[b], g.x5.borrowers[b]);
  }

  lemma HeldBorrowerInStages(
    s: Settings, w: World, now: Time, reports: map<CallKey, ProviderStatus>, g: Five, b: BorrowerId, k: CallKey
  )
    requires Inv(s, w) && InStages(s, w, now, reports, g)
    requires Active(w, k) && SoleOpenWith(w, b, k) && k.agent in w.agents
    ensures OnCallOf(w, b, ExpiredAgents(w, now)) <==> RanOut(w.agents[k.agent], now)
    ensures OnCallOf(g.x2, b, AgentsOnStale(g.x2, now - s.staleTimeout)) <==> LeftStale(s, w, k, now)
    ensures OnCallOf(g.x3, b, SilentAgents(g.x3, now - s.heartbeatTimeout))
            <==> !RanOut(w.agents[k.agent], now) && !LeftStale(s, w, k, now)
                 && Unheard(w.agents[k.agent], now - s.heartbeatTimeout)
  {
    OnlyClosing(s, w, now, reports, g);
    OpenAfterStale(s, w, now, reports, g, k);
    RanOutIsExpired(w, now);
    SoleIsOnCall(w, b, k, ExpiredAgents(w, now));
    SoleIsOnCall(g.x2, b, k, AgentsOnStale(g.x2, now - s.staleTimeout));
    SoleIsOnCall(g.x3, b, k, SilentAgents(g.x3, now - s.heartbeatTimeout));
  }

  lemma HoldIsGood(s: Settings, w: World, now: Time, k: CallKey)
    requires Inv(s, w) && Active(w, k)
    ensures k.agent in w.agents && k.borrower in w.borrowers && w.borrowers[k.borrower].lease.Some?
    ensures !RanOut(w.agents[k.agent], now) ==>
              !BorrowerLeaseExpired(w.borrowers[k.borrower], now)
              && w.borrowers[k.borrower].lease.value.expiresAt >= now
  {
    ActiveIsAlone(s, w, k);
    RanOutIsExpired(w, now);
    if !RanOut(w.agents[k.agent], now) { BorrowersOutlastAgents(s, w, k, now); }
  }

  lemma EndedIffByRun(s: Settings, w: World, now: Time, b: BorrowerId, k: CallKey)
    requires Active(w, k) && SoleOpenWith(w, b, k)
    ensures (exists z :: EndedByRun(s, w, z, now) && z.borrower == b) <==> EndedByRun(s, w, k, now)
  {
  }

  lemma OneBorrowerPieced(
    s: Settings, w: World, now: Time, b: BorrowerId, k: CallKey, b1: Borrower, b2: Borrower, b3: Borrower, b5: Borrower
  )
    requires b in w.borrowers && Active(w, k) && k.agent in w.agents && k.borrower == b
    requires (exists z :: EndedByRun(s, w, z, now) && z.borrower == b) <==> EndedByRun(s, w, k, now)
    requires var ranOut := RanOut(w.agents[k.agent], now);
             && (if ranOut then Retried(s, w.borrowers[b], b1) else b1 == w.borrowers[b])
             && (if BorrowerLeaseExpired(b1, now) then TakenBack(b1, b2, now) else b2 == b1)
             && (if LeftStale(s, w, k, now) then Retried(s, b2, b3) else b3 == b2)
             && (if !ranOut && !LeftStale(s, w, k, now) && Unheard(w.agents[k.agent], now - s.heartbeatTimeout) then
                   Retried(s, b3, b5)
                 else b5 == b3)
    requires w.borrowers[b].lease.Some?
    requires !RanOut(w.agents[k.agent], now) ==>
               !BorrowerLeaseExpired(w.borrowers[b], now) && w.borrowers[b].lease.value.expiresAt >= now
    ensures BorrowerAfterRun(s, w, now, b, b5)
  {
  }

  lemma BorrowersAfterARun(s: Settings, w: World, now: Time, input: SweepInput, b: BorrowerId)
    requires Inv(s, w) && OrdersOk(w, input) && BacklogOf(s, w, now).Fits(s.sweepLimit) && b in w.borrowers
    ensures var w' := SweepsAt(s, w, now, input).0;
            b in w'.borrowers && BorrowerAfterRun(s, w, now, b, w'.borrowers[b])
  {
    var g := RunInStages(s, w, now, input);
    if k :| Active(w, k) && k.borrower == b {
      ActiveIsAlone(s, w, k);
      HeldBorrowerThrough(s, w, now, input.reports, g, b, k);
    } else {
      FreeBorrowerThrough(s, w, now, input.reports, g, b);
    }
  }

  // ---------- counts ----------

  lemma ExpiredHoldIs(s: Settings, w: World, now: Time, reports: map<CallKey, ProviderStatus>, g: Five, b: BorrowerId)
    requires Inv(s, w) && InStages(s, w, now, reports, g) && b in w.borrowers
    ensures b in g.x1.borrowers
    ensures BorrowerLeaseExpired(g.x1.borrowers[b], now)
            <==> w.borrowers[b].lease.Some? && w.borrowers[b].lease.value.expiresAt < now
                 && !OnCallOf(w, b, ExpiredAgents(w, now))
  {
    TreatedBorrower(s, Expiry(now), w, g.x1, ExpiredAgents(w, now), b);
    assert BorrowerOk(s, w.borrowers[b]);
  }

  lemma StaleCallIs(s: Settings, w: World, now: Time, reports: map<CallKey, ProviderStatus>, g: Five, k: CallKey)
    requires Inv(s, w) && InStages(s, w, now, reports, g)
    ensures k in StaleCalls(g.x2, now - s.staleTimeout) <==> LeftStale(s, w, k, now)
  {
    StillOpen(s, w, now, reports, g);
    RanOutIsExpired(w, now);
    if Active(w, k) {
      assert CallOk(w, k);
      OpenAfterExpiry(s, w, now, reports, g, k);
    }
  }

  lemma SilentAgentIs(s: Settings, w: World, now: Time, reports: map<CallKey, ProviderStatus>, g: Five, id: AgentId)
    requires Inv(s, w) && InStages(s, w, now, reports, g) && id in w.agents
    ensures id in SilentAgents(g.x3, now - s.heartbeatTimeout) <==> Unheard(w.agents[id], now - s.heartbeatTimeout)
    ensures id in FinishedWrapUps(g.x4, now - StuckWrapUpAge(s))
            <==> w.agents[id].state == AgentState.WrapUp && w.agents[id].stateChangedAt <= now - 3 * s.wrapUp
                 && !Unheard(w.agents[id], now - s.heartbeatTimeout)
  {
    StaleAgentIs(s, w, now, reports, g, id);
    OnCallIsBusy(s, w, now, id);
    OneAgentInStages(s, w, now, reports, g, id, OnStaleCall(s, w, id, now));
    WrappingUpIsFree(s, w, now, id);
    SilentAgentPieced(s, w, now, reports, id, g.x2.agents[id], g.x3.agents[id], g.x4.agents[id]);
  }

  lemma SilentAgentPieced(
    s: Settings, w: World, now: Time, reports: map<CallKey, ProviderStatus>, id: AgentId, a2: Agent, a3: Agent,
    a4: Agent
  )
    requires id in w.agents
    requires if RanOut(w.agents[id], now) then AgentDone(Expiry(now), w.agents[id], a2) else a2 == w.agents[id]
    requires if OnStaleCall(s, w, id, now) then AgentDone(Staleness(reports), a2, a3) else a3 == a2
    requires if HeartbeatExpired(a3, now - s.heartbeatTimeout) then AgentDone(Silence, a3, a4) else a4 == a3
    requires OnStaleCall(s, w, id, now) ==> w.agents[id].state != AgentState.Offline
    requires w.agents[id].state == AgentState.WrapUp ==> !RanOut(w.agents[id], now) && !OnStaleCall(s, w, id, now)
    ensures HeartbeatExpired(a3, now - s.heartbeatTimeout) <==> Unheard(w.agents[id], now - s.heartbeatTimeout)
    ensures WrapUpFinished(a4, now - StuckWrapUpAge(s))
            <==> w.agents[id].state == AgentState.WrapUp && w.agents[id].stateChangedAt <= now - 3 * s.wrapUp
                 && !Unheard(w.agents[id], now - s.heartbeatTimeout)
  {
  }

  lemma WrappingUpIsFree(s: Settings, w: World, now: Time, id: AgentId)
    requires Inv(s, w) && id in w.agents
    ensures w.agents[id].state == AgentState.WrapUp ==> !RanOut(w.agents[id], now) && !OnStaleCall(s, w, id, now)
  {
    assert AgentOk(w, id);
    if k :| LeftStale(s, w, k, now) && k.agent == id {
      ActiveIsAlone(s, w, k);
    }
  }

  /** What a run finds, on the store before it. */
  ghost function FoundByRun(s: Settings, w: World, now: Time): Counts {
    Counts(|AgentsRunOut(w, now)|, |HoldsRunOut(w, now)|, |CallsLeftStale(s, w, now)|, |AgentsUnheard(s, w, now)|,
           |WrapUpsOverdue(s, w, now)|)
  }

  function AgentsRunOut(w: World, now: Time): set<AgentId> {
    set id | id in w.agents && RanOut(w.agents[id], now)
  }

  /** Those on an open call whose agent's lease has run out are let go of with the agent. */
  ghost function HoldsRunOut(w: World, now: Time): set<BorrowerId> {
    set b | b in w.borrowers && w.borrowers[b].lease.Some? && w.borrowers[b].lease.value.expiresAt < now
            && !OnCallOf(w, b, AgentsRunOut(w, now))
  }

  function CallsLeftStale(s: Settings, w: World, now: Time): set<CallKey> {
    set k | k in w.calls && LeftStale(s, w, k, now)
  }

  function AgentsUnheard(s: Settings, w: World, now: Time): set<AgentId> {
    set id | id in w.agents && Unheard(w.agents[id], now - s.heartbeatTimeout)
  }

  function WrapUpsOverdue(s: Settings, w: World, now: Time): set<AgentId> {
    set id | id in w.agents && w.agents[id].state == AgentState.WrapUp
             && w.agents[id].stateChangedAt <= now - 3 * s.wrapUp && id !in AgentsUnheard(s, w, now)
  }

  lemma SameKeysInStages(s: Settings, w: World, now: Time, reports: map<CallKey, ProviderStatus>, g: Five)
    requires InStages(s, w, now, reports, g)
    ensures g.x1.borrowers.Keys == w.borrowers.Keys && g.x2.calls.Keys == w.calls.Keys
    ensures g.x3.agents.Keys == w.agents.Keys && g.x4.agents.Keys == w.agents.Keys
  {
    var first :| first == ExpiredAgents(w, now) && Treated(s, Expiry(now), w, g.x1, first);
    KeysTreated(s, Staleness(reports), g.x2, g.x3, AgentsOnStale(g.x2, now - s.staleTimeout));
    KeysTreated(s, Silence, g.x3, g.x4, SilentAgents(g.x3, now - s.heartbeatTimeout));
  }

  lemma KeysTreated(s: Settings, cause: Cause, x: World, x': World, ids: set<AgentId>)
    requires Treats(s, cause, x, x', ids)
    ensures x'.agents.Keys == x.agents.Keys
  {
    var those :| those == ids && Treated(s, cause, x, x', those);
  }

  /** The counts a run reports are the sizes of what it finds: each agent, hold and call once. */
  lemma RunCounts(s: Settings, w: World, now: Time, input: SweepInput)
    requires Inv(s, w) && OrdersOk(w, input) && BacklogOf(s, w, now).Fits(s.sweepLimit)
    ensures SweepsAt(s, w, now, input).1 == FoundByRun(s, w, now)
  {
    var g := RunInStages(s, w, now, input);
    FoundInStages(s, w, now, input.reports, g);
  }

  lemma FoundInStages(s: Settings, w: World, now: Time, reports: map<CallKey, ProviderStatus>, g: Five)
    requires Inv(s, w) && InStages(s, w, now, reports, g)
    ensures Counts(|ExpiredAgents(w, now)|, |ExpiredBorrowers(g.x1, now)|, |StaleCalls(g.x2, now - s.staleTimeout)|,
                   |SilentAgents(g.x3, now - s.heartbeatTimeout)|,
                   |FinishedWrapUps(g.x4, now - StuckWrapUpAge(s))|)
            == FoundByRun(s, w, now)
  {
    SameKeysInStages(s, w, now, reports, g);
    AgentsRanOut(w, now);
    HoldsFound(s, w, now, reports, g);
    CallsFound(s, w, now, reports, g);
    AgentsFound(s, w, now, reports, g);
    WrapUpsFound(s, w, now, reports, g);
  }

  lemma AgentsRanOut(w: World, now: Time)
    ensures ExpiredAgents(w, now) == AgentsRunOut(w, now)
  {
    RanOutIsExpired(w, now);
  }

  lemma HoldsFound(s: Settings, w: World, now: Time, reports: map<CallKey, ProviderStatus>, g: Five)
    requires Inv(s, w) && InStages(s, w, now, reports, g) && g.x1.borrowers.Keys == w.borrowers.Keys
    ensures ExpiredBorrowers(g.x1, now) == HoldsRunOut(w, now)
  {
    AgentsRanOut(w, now);
    forall b | b in w.borrowers
      ensures b in ExpiredBorrowers(g.x1, now)
              <==> w.borrowers[b].lease.Some? && w.borrowers[b].lease.value.expiresAt < now
                   && !OnCallOf(w, b, ExpiredAgents(w, now))
    {
      ExpiredHoldIs(s, w, now, reports, g, b);
    }
  }

  lemma CallsFound(s: Settings, w: World, now: Time, reports: map<CallKey, ProviderStatus>, g: Five)
    requires Inv(s, w) && InStages(s, w, now, reports, g) && g.x2.calls.Keys == w.calls.Keys
    ensures StaleCalls(g.x2, now - s.staleTimeout) == CallsLeftStale(s, w, now)
  {
    forall k | k in w.calls ensures k in StaleCalls(g.x2, now - s.staleTimeout) <==> LeftStale(s, w, k, now) {
      StaleCallIs(s, w, now, reports, g, k);
    }
  }

  lemma AgentsFound(s: Settings, w: World, now: Time, reports: map<CallKey, ProviderStatus>, g: Five)
    requires Inv(s, w) && InStages(s, w, now, reports, g) && g.x3.agents.Keys == w.agents.Keys
    ensures SilentAgents(g.x3, now - s.heartbeatTimeout) == AgentsUnheard(s, w, now)
  {
    forall id | id in w.agents
      ensures id in SilentAgents(g.x3, now - s.heartbeatTimeout)
              <==> Unheard(w.agents[id], now - s.heartbeatTimeout)
    {
      SilentAgentIs(s, w, now, reports, g, id);
    }
  }

  lemma WrapUpsFound(s: Settings, w: World, now: Time, reports: map<CallKey, ProviderStatus>, g: Five)
    requires Inv(s, w) && InStages(s, w, now, reports, g) && g.x4.agents.Keys == w.agents.Keys
    ensures FinishedWrapUps(g.x4, now - StuckWrapUpAge(s)) == WrapUpsOverdue(s, w, now)
  {
    forall id | id in w.agents
      ensures id in FinishedWrapUps(g.x4, now - StuckWrapUpAge(s)) <==> id in WrapUpsOverdue(s, w, now)
    {
      SilentAgentIs(s, w, now, reports, g, id);
    }
  }

  // ---------- whatever the limit ----------

  lemma TreatedCall(s: Settings, cause: Cause, x: World, x': World, ids: set<AgentId>, k: CallKey)
    requires Treated(s, cause, x, x', ids) && k in x.calls
    ensures k in x'.calls
    ensures if Active(x, k) && k.agent in ids then CallDone(cause, k, x.calls[k], x'.calls[k])
            else x'.calls[k] == x.calls[k]
  {
  }

  lemma AgentSweepOnCall(s: Settings, w: World, ids: seq<AgentId>, now: Time, k: CallKey)
    requires Inv(s, w) && Distinct(ids) && k in w.calls
    requires forall id :: id in ids ==> id in w.agents && AgentLeaseExpired(w.agents[id], now)
    ensures var x := AgentSweep(s, w, ids, w.agents, now, 0).0;
            k in x.calls && (Active(x, k) ==> x.calls[k] == w.calls[k])
  {
    AgentSweepTreats(s, w, ids, w.agents, now, 0);
    TreatedCall(s, Expiry(now), w, AgentSweep(s, w, ids, w.agents, now, 0).0, Those(ids), k);
  }

  lemma CallsThroughLeaseSweeps(s: Settings, w: World, now: Time, input: SweepInput, k: CallKey)
    requires Inv(s, w) && OrdersDistinct(input) && k in w.calls
    ensures var x := SweepExpiredBorrowers(s, SweepExpiredAgents(s, w, now, input).0, now, input).0;
            k in x.calls && (Active(x, k) ==> x.calls[k] == w.calls[k])
  {
    PickIsDistinct(ExpiredAgents(w, now), input.expired, s.sweepLimit);
    AgentSweepOnCall(s, w, PickedAgents(s, w, now, input), now, k);
    var x1 := SweepExpiredAgents(s, w, now, input).0;
    var held := Pick(ExpiredBorrowers(x1, now), input.borrowers, s.sweepLimit);
    BorrowerSweepFrame(x1, held, x1.borrowers, now, 0);
  }

  lemma EndedCallsStay(s: Settings, w: World, now: Time, input: SweepInput, k: CallKey)
    requires Inv(s, w) && OrdersDistinct(input) && k in w.calls && w.calls[k].terminal
    ensures var x4 := SweepSilentAgents(s, w, now, input).0;
            var x5 := SweepStuckWrapUps(s, x4, now, input).0;
            k in x5.calls && x5.calls[k] == w.calls[k]
  {
    SilentSweepKeepsEnded(s, w, now, input, k);
    StuckSweepKeepsCalls(s, SweepSilentAgents(s, w, now, input).0, now, input);
  }

  lemma SilentSweepKeepsEnded(s: Settings, w: World, now: Time, input: SweepInput, k: CallKey)
    requires Inv(s, w) && Distinct(input.silent) && k in w.calls && w.calls[k].terminal
    ensures var x := SweepSilentAgents(s, w, now, input).0;
            k in x.calls && x.calls[k] == w.calls[k]
  {
    var ids := SilentSweepTreats(s, w, now, input);
    SilenceSweepOnCall(s, w, SweepSilentAgents(s, w, now, input).0, ids, k);
  }

  lemma SilentSweepTreats(s: Settings, w: World, now: Time, input: SweepInput) returns (ids: set<AgentId>)
    requires Inv(s, w) && Distinct(input.silent)
    ensures Treats(s, Silence, w, SweepSilentAgents(s, w, now, input).0, ids)
  {
    var silent := SilentAgents(w, now - s.heartbeatTimeout);
    PickIsDistinct(silent, input.silent, s.sweepLimit);
    ids := Those(Pick(silent, input.silent, s.sweepLimit));
    AgentsInSilence(s, w, ids, Pick(silent, input.silent, s.sweepLimit));
  }

  lemma StuckSweepKeepsCalls(s: Settings, w: World, now: Time, input: SweepInput)
    requires Distinct(input.wrapUps)
    ensures SweepStuckWrapUps(s, w, now, input).0.calls == w.calls
  {
    var stuck := Pick(FinishedWrapUps(w, now - StuckWrapUpAge(s)), input.wrapUps, s.sweepLimit);
    PickIsDistinct(FinishedWrapUps(w, now - StuckWrapUpAge(s)), input.wrapUps, s.sweepLimit);
    WrapUpSweepEnds(w, stuck, w.agents, Recovery, 0);
  }

  lemma StaleSweepTreats(s: Settings, w: World, now: Time, input: SweepInput) returns (keys: seq<CallKey>)
    requires Inv(s, w) && Distinct(input.calls)
    ensures keys == Pick(StaleCalls(w, now - s.staleTimeout), input.calls, s.sweepLimit)
    ensures Treats(s, Staleness(input.reports), w, SweepStaleCalls(s, w, now, input).0, Those(AgentsOf(keys)))
  {
    PickedStaleCalls(w, now - s.staleTimeout, input.calls, s.sweepLimit);
    keys := Pick(StaleCalls(w, now - s.staleTimeout), input.calls, s.sweepLimit);
    CallSweepTreats(s, w, keys, w.calls, input.reports, 0);
  }

  lemma PickedCallEnds(s: Settings, w: World, now: Time, input: SweepInput, k: CallKey)
    requires Inv(s, w) && Distinct(input.calls)
    requires k in Pick(StaleCalls(w, now - s.staleTimeout), input.calls, s.sweepLimit)
    ensures var x := SweepStaleCalls(s, w, now, input).0;
            k in w.calls && k in x.calls && CallDone(Staleness(input.reports), k, w.calls[k], x.calls[k])
  {
    var keys := StaleSweepTreats(s, w, now, input);
    var i :| 0 <= i < |keys| && keys[i] == k;
    assert AgentsOf(keys)[i] == k.agent;
    assert k in StaleCalls(w, now - s.staleTimeout);
    StaleSweepOnCall(s, w, SweepStaleCalls(s, w, now, input).0, input.reports, Those(AgentsOf(keys)), k);
  }

  /**
   * Whatever the limit: a call that the stale sweep of a run gets to ends as completed exactly when the
   * provider knows it and says so, and as failed otherwise.
   */
  lemma StaleCallsEndAsReported(s: Settings, w: World, now: Time, input: SweepInput, k: CallKey)
    requires Inv(s, w) && OrdersDistinct(input) && CallsKeepBorrowers(s, w, now, input)
    requires var x := SweepExpiredBorrowers(s, SweepExpiredAgents(s, w, now, input).0, now, input).0;
             k in w.calls && k in Pick(StaleCalls(x, now - s.staleTimeout), input.calls, s.sweepLimit)
    ensures var w' := SweepsAt(s, w, now, input).0;
            && k in w'.calls
            && (w'.calls[k].state == CallState.Completed
                <==> w.calls[k].providerCallId.Some? && k in input.reports && input.reports[k] == CompletedStatus)
            && (w'.calls[k].state == CallState.Completed || w'.calls[k].state == CallState.Failed)
  {
    var x1 := SweepExpiredAgents(s, w, now, input).0;
    var x2 := SweepExpiredBorrowers(s, x1, now, input).0;
    BorrowerStepKeepsLinks(s, w, now, input, x1);
    CallsThroughLeaseSweeps(s, w, now, input, k);
    PickedCallEnds(s, x2, now, input, k);
    StaleSweepKeepsInv(s, x2, now, input);
    EndedCallsStay(s, SweepStaleCalls(s, x2, now, input).0, now, input, k);
  }
}
