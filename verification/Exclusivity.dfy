/** What the links give: one call per agent, one per borrower, bounded totals, and exact attempt counts. */
module Exclusivity {
  import opened Basics
  import opened AgentMachine
  import opened CallMachine
  import opened Documents
  import opened Store
  import opened Effects
  import opened Handlers
  import opened Linking
  import opened DialKeepsLinks
  import opened HandlerRuns

  function ActiveCalls(w: World, campaign: CampaignId): set<CallKey> {
    set k | k in w.calls && k.campaign == campaign && !w.calls[k].terminal && w.calls[k].state != CallState.Queued
  }

  function UsableAgents(w: World, campaign: CampaignId): set<AgentId> {
    set id | id in w.agents && w.agents[id].campaign == campaign
             && w.agents[id].state != AgentState.Offline && w.agents[id].state != AgentState.Paused
  }

  /** In every reachable state an agent serves at most one active call, and is dialing or connected on it. */
  lemma AgentIsExclusive(s: Settings, w: World, k: CallKey, k': CallKey)
    requires Reachable(s, w) && Active(w, k) && Active(w, k')
    ensures k.agent == k'.agent ==> k == k'
    ensures k.agent in w.agents && w.agents[k.agent].currentCall == Some(k)
    ensures w.agents[k.agent].state ==
              if w.calls[k].state == CallState.Initiated || w.calls[k].state == CallState.Ringing
              then AgentState.Dialing else AgentState.Connected
  {
    ReachableIsLinked(s, w);
    assert Linked(w, k) && Linked(w, k') && CallOk(w, k);
  }

  /** A borrower is in at most one active call, held on a lease no earlier than its agent's. */
  lemma BorrowerIsExclusive(s: Settings, w: World, k: CallKey, k': CallKey)
    requires Reachable(s, w) && Active(w, k) && Active(w, k')
    ensures k.borrower == k'.borrower ==> k == k'
    ensures k.borrower in w.borrowers && w.borrowers[k.borrower].status == BorrowerStatus.Reserved
    ensures HeldBy(w.borrowers[k.borrower].lease, w.calls[k].worker)
    ensures k.agent in w.agents && w.agents[k.agent].lease.Some?
            && w.agents[k.agent].lease.value.expiresAt <= w.borrowers[k.borrower].lease.value.expiresAt
  {
    ReachableIsLinked(s, w);
    assert Linked(w, k) && Linked(w, k') && AttemptOk(w, k) && AttemptOk(w, k');
  }

  lemma ActiveCallIsUsable(s: Settings, w: World, k: CallKey)
    requires Inv(s, w) && Active(w, k)
    ensures k.agent in UsableAgents(w, k.campaign)
  {
  }

  /** Active calls of a campaign never outnumber its agents that are neither offline nor paused. */
  lemma ActiveCallsWithinCapacity(s: Settings, w: World, campaign: CampaignId)
    requires Reachable(s, w)
    ensures |ActiveCalls(w, campaign)| <= |UsableAgents(w, campaign)|
  {
    ReachableIsLinked(s, w);
    var calls := ActiveCalls(w, campaign);
    var agentOf := map k | k in calls :: k.agent;
    forall k | k in calls ensures agentOf[k] in UsableAgents(w, campaign) {
      ActiveCallIsUsable(s, w, k);
    }
    forall k, k' | k in calls && k' in calls && agentOf[k] == agentOf[k'] ensures k == k' {
      AgentIsExclusive(s, w, k, k');
    }
    InjectionBounds(calls, UsableAgents(w, campaign), agentOf);
  }

  // ---------- attempts ----------

  function CallsOf(w: World, b: BorrowerId): set<CallKey> {
    set k | k in w.calls && k.borrower == b
  }

  function FinishedCallsOf(w: World, b: BorrowerId): set<CallKey> {
    set k | k in CallsOf(w, b) && w.calls[k].terminal
  }

  function Attempts(calls: set<CallKey>): set<nat> {
    set k | k in calls :: k.attempt
  }

  lemma AttemptsCountCalls(w: World, calls: set<CallKey>, b: BorrowerId)
    requires AttemptsUnique(w) && forall k :: k in calls ==> k in w.calls && k.borrower == b
    ensures |Attempts(calls)| == |calls|
  {
    var attemptOf := map k | k in calls :: k.attempt;
    InjectionBounds(calls, Attempts(calls), attemptOf);
    var callOf := map i | i in Attempts(calls) :: CallWithAttempt(calls, i);
    InjectionBounds(Attempts(calls), calls, callOf);
  }

  ghost function CallWithAttempt(calls: set<CallKey>, i: nat): (k: CallKey)
    requires i in Attempts(calls)
    ensures k in calls && k.attempt == i
  {
    var k :| k in calls && k.attempt == i;
    k
  }

  /** The attempt count of a borrower is the number of its finished calls, and they are attempts 1 to that number. */
  lemma AttemptCountIsExact(s: Settings, w: World, b: BorrowerId)
    requires Reachable(s, w) && b in w.borrowers
    ensures |FinishedCallsOf(w, b)| == w.borrowers[b].attemptCount
    ensures Attempts(FinishedCallsOf(w, b)) == UpTo(w.borrowers[b].attemptCount)
  {
    ReachableIsLinked(s, w);
    var n := w.borrowers[b].attemptCount;
    forall i: nat | i in UpTo(n) ensures i in Attempts(FinishedCallsOf(w, b)) {
      assert Finished(w, b, i);
      var k :| k in w.calls && k.borrower == b && k.attempt == i && w.calls[k].terminal;
      assert k in FinishedCallsOf(w, b);
    }
    forall i | i in Attempts(FinishedCallsOf(w, b)) ensures i in UpTo(n) {
      var k :| k in FinishedCallsOf(w, b) && k.attempt == i;
      assert AttemptOk(w, k) && CallOk(w, k);
    }
    assert Attempts(FinishedCallsOf(w, b)) == UpTo(n);
    AttemptsCountCalls(w, FinishedCallsOf(w, b), b);
  }

  lemma ActiveCallIsNext(s: Settings, w: World, b: BorrowerId, k: CallKey)
    requires Reachable(s, w) && b in w.borrowers && k in CallsOf(w, b) && Active(w, k)
    ensures CallsOf(w, b) == FinishedCallsOf(w, b) + {k} && k !in FinishedCallsOf(w, b)
    ensures k.attempt == w.borrowers[b].attemptCount + 1
  {
    ReachableIsLinked(s, w);
    assert AttemptOk(w, k);
    forall x | x in CallsOf(w, b) && x != k ensures x in FinishedCallsOf(w, b) {
      if Active(w, x) { BorrowerIsExclusive(s, w, x, k); }
    }
  }

  lemma NoneUnderWay(w: World, b: BorrowerId)
    requires forall k :: k in CallsOf(w, b) ==> !Active(w, k)
    ensures CallsOf(w, b) == FinishedCallsOf(w, b)
  {
  }

  lemma NextAttemptJoins(finished: set<CallKey>, k: CallKey, n: nat)
    requires Attempts(finished) == UpTo(n) && |finished| == n && k !in finished && k.attempt == n + 1
    ensures Attempts(finished + {k}) == UpTo(|finished + {k}|)
  {
    OneMoreAttempt(finished, k);
    assert UpTo(n + 1) == UpTo(n) + {n + 1};
  }

  lemma OneMoreAttempt(calls: set<CallKey>, k: CallKey)
    ensures Attempts(calls + {k}) == Attempts(calls) + {k.attempt}
  {
    forall i | i in Attempts(calls) ensures i in Attempts(calls + {k}) {
      var x :| x in calls && x.attempt == i;
      assert x in calls + {k};
    }
    assert k in calls + {k};
  }

  /** All calls of a borrower, the one under way included, are attempts 1, 2, 3 and so on, without a gap. */
  lemma CallsAreConsecutiveAttempts(s: Settings, w: World, b: BorrowerId)
    requires Reachable(s, w) && b in w.borrowers
    ensures Attempts(CallsOf(w, b)) == UpTo(|CallsOf(w, b)|)
  {
    AttemptCountIsExact(s, w, b);
    if k :| k in CallsOf(w, b) && Active(w, k) {
      ActiveCallIsNext(s, w, b, k);
      NextAttemptJoins(FinishedCallsOf(w, b), k, w.borrowers[b].attemptCount);
    } else {
      NoneUnderWay(w, b);
    }
  }

  /** No borrower is ever called more than the allowed number of times. */
  lemma CallsPerBorrowerBounded(s: Settings, w: World, b: BorrowerId)
    requires Reachable(s, w) && b in w.borrowers
    ensures |CallsOf(w, b)| <= s.maxAttempts
  {
    ReachableIsLinked(s, w);
    assert BorrowerOk(s, w.borrowers[b]);
    var all := UpTo(s.maxAttempts);
    var attemptOf := map k | k in CallsOf(w, b) :: k.attempt;
    forall k | k in CallsOf(w, b) ensures attemptOf[k] in all {
      assert AttemptOk(w, k) && CallOk(w, k);
      if Active(w, k) { assert Linked(w, k); }
    }
    InjectionBounds(CallsOf(w, b), all, attemptOf);
  }

  /** In a reachable state a dial always gets a fresh call and wins the write that initiates it. */
  lemma DialNeverCollides(s: Settings, w: World, w1: World, p: Pair, provider: ProviderId)
    requires Reachable(s, w) && PairClaimed(s, w, w1, p)
    ensures p.Key() !in w1.calls
    ensures PlaceCall(w1, p, provider).1 && PlaceCall(Tick(w1), p, provider).1
  {
    ReachableIsLinked(s, w);
    ClaimedPairIsReady(s, w, w1, p);
    var _ := PlaceCallEffect(w1, p, provider);
    var _ := PlaceCallEffect(Tick(w1), p, provider);
  }
}
