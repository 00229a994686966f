/** The allocator's books: every attempt is accounted for, and every reservation it leaves behind is a placed call. */
module Conservation {
  import opened Basics
  import opened AgentMachine
  import opened CallMachine
  import opened Documents
  import opened Store
  import opened Effects
  import opened Handlers
  import opened Linking
  import opened DialKeepsLinks
  import opened Exclusivity

  /** Agents kept busy by a reservation or a call. */
  function Engaged(w: World): set<AgentId> {
    set id | id in w.agents && (w.agents[id].state == AgentState.Reserved || w.agents[id].state == AgentState.Dialing
                                || w.agents[id].state == AgentState.Connected)
  }

  function HeldBorrowers(w: World): set<BorrowerId> {
    set b | b in w.borrowers && w.borrowers[b].status == BorrowerStatus.Reserved
  }

  predicate SameBooks(w: World, w': World, campaign: CampaignId) {
    Engaged(w') == Engaged(w) && HeldBorrowers(w') == HeldBorrowers(w)
    && ActiveCalls(w', campaign) == ActiveCalls(w, campaign)
  }

  /** One agent, one borrower and one call more than before. */
  predicate OneMore(w: World, w': World, campaign: CampaignId, a: AgentId, b: BorrowerId, k: CallKey) {
    && a !in Engaged(w) && Engaged(w') == Engaged(w) + {a}
    && b !in HeldBorrowers(w) && HeldBorrowers(w') == HeldBorrowers(w) + {b}
    && k !in ActiveCalls(w, campaign) && ActiveCalls(w', campaign) == ActiveCalls(w, campaign) + {k}
  }

  // ---------- one attempt ----------

  lemma ReturnedIsSame(w: World, w': World, id: AgentId, campaign: CampaignId)
    requires ClockOnly(w, w') || AgentReturned(w, w', id)
    ensures SameBooks(w, w', campaign)
  {
  }

  lemma ReleasedBorrowerIsFree(s: Settings, b: Borrower, worker: WorkerId, now: Time)
    requires ReleaseBorrower(b, worker, Released, s.maxAttempts, s.backoffBase, now).Some?
    ensures ReleaseBorrower(b, worker, Released, s.maxAttempts, s.backoffBase, now).value.status
            == BorrowerStatus.Pending
  {
  }

  lemma PairSwapIsSame(w: World, w': World, p: Pair, a: Agent, b: Borrower)
    requires p.agentId in w.agents && p.borrowerId in w.borrowers
    requires w.agents[p.agentId].state == AgentState.Available && a.state == AgentState.Available
    requires w.borrowers[p.borrowerId].status == BorrowerStatus.Pending && b.status != BorrowerStatus.Reserved
    requires w'.agents == w.agents[p.agentId := a] && w'.borrowers == w.borrowers[p.borrowerId := b]
    ensures Engaged(w') == Engaged(w) && HeldBorrowers(w') == HeldBorrowers(w)
  {
  }

  lemma FailedCallIsSame(w: World, w': World, key: CallKey, c: Call, campaign: CampaignId)
    requires key !in w.calls && c.terminal && w'.calls == w.calls[key := c]
    ensures ActiveCalls(w', campaign) == ActiveCalls(w, campaign)
  {
  }

  lemma PlacedIsOneMore(w: World, w': World, p: Pair, a: Agent, c: Call)
    requires p.agentId in w.agents && p.borrowerId in w.borrowers && p.Key() !in w.calls
    requires w.agents[p.agentId].state == AgentState.Available
    requires w.borrowers[p.borrowerId].status == BorrowerStatus.Pending && p.borrower.status == BorrowerStatus.Reserved
    requires DialSucceeded(w, w', p, a, c)
    ensures OneMore(w, w', p.campaign, p.agentId, p.borrowerId, p.Key())
  {
  }

  lemma ClaimedWereFree(s: Settings, w: World, w1: World, p: Pair)
    requires PairClaimed(s, w, w1, p)
    ensures w.agents[p.agentId].state == AgentState.Available
    ensures w.borrowers[p.borrowerId].status == BorrowerStatus.Pending && p.borrower.status == BorrowerStatus.Reserved
  {
  }

  lemma DialBalances(s: Settings, w: World, w1: World, p: Pair, provider: ProviderId, healthy: bool, reply: Reply)
    requires PairClaimed(s, w, w1, p) && p.Key() !in w.calls
    ensures var (w', dialled) := Dial(s, w1, p, provider, healthy, reply);
            if dialled then OneMore(w, w', p.campaign, p.agentId, p.borrowerId, p.Key())
            else SameBooks(w, w', p.campaign)
  {
    ClaimedWereFree(s, w, w1, p);
    var a, b, c := DialEffect(s, w, w1, p, provider, healthy, reply);
    var (w', dialled) := Dial(s, w1, p, provider, healthy, reply);
    if dialled {
      PlacedIsOneMore(w, w', p, a, c);
    } else if Suppressed(s, w, w', p, a, b) {
      ReleasedBorrowerIsFree(s, p.borrower, p.worker, w'.now);
      PairSwapIsSame(w, w', p, a, b);
    } else {
      PairSwapIsSame(w, w', p, a, b);
      FailedCallIsSame(w, w', p.Key(), c, p.campaign);
    }
  }

  /** An attempt that places a call adds exactly its agent, its borrower and its call; any other adds nothing. */
  lemma AttemptBalances(
    s: Settings, w: World, campaign: CampaignId, provider: ProviderId, worker: WorkerId, input: DialInput
  ) returns (a: AgentId, b: BorrowerId, k: CallKey)
    requires Inv(s, w)
    ensures var (w', outcome) := AttemptDial(s, w, campaign, provider, worker, input);
            if outcome.AllocatedAttempt? then OneMore(w, w', campaign, a, b, k) && k !in w.calls && k in w'.calls
            else SameBooks(w, w', campaign)
  {
    var (w1, pair) := ReservePair(s, w, campaign, worker, input.agentOrder, input.borrowerOrder);
    var returned := ReservePairEffect(s, w, campaign, worker, input.agentOrder, input.borrowerOrder);
    a, b, k := 0, 0, CallKey(0, 0, 0, 0);
    if pair.None? {
      ReturnedIsSame(w, w1, returned, campaign);
    } else {
      var p := pair.value;
      ClaimedPairIsReady(s, w, w1, p);
      DialBalances(s, w, w1, p, provider, input.healthy, input.reply);
      a, b, k := p.agentId, p.borrowerId, p.Key();
    }
  }

  // ---------- the loop ----------

  /** What became of each attempt the loop made, in order. */
  function Outcomes(
    s: Settings, w: World, campaign: CampaignId, provider: ProviderId, worker: WorkerId, inputs: seq<DialInput>,
    contentions: nat
  ): seq<Attempt>
    decreases |inputs|
  {
    if inputs == [] then []
    else
      var (w1, a) := AttemptDial(s, w, campaign, provider, worker, inputs[0]);
      var run := if a.ContendedAttempt? then contentions + 1 else 0;
      if run >= MAX_CONSECUTIVE_CONTENTIONS then [a]
      else [a] + Outcomes(s, w1, campaign, provider, worker, inputs[1..], run)
  }

  function HowMany(outcomes: seq<Attempt>, a: Attempt): nat {
    if outcomes == [] then 0 else (if outcomes[0] == a then 1 else 0) + HowMany(outcomes[1..], a)
  }

  function TallyOf(outcomes: seq<Attempt>): Tally {
    Tally(|outcomes|, HowMany(outcomes, AllocatedAttempt), HowMany(outcomes, FailedAttempt),
          HowMany(outcomes, ContendedAttempt))
  }

  lemma {:induction false} OutcomesPartition(outcomes: seq<Attempt>)
    ensures HowMany(outcomes, AllocatedAttempt) + HowMany(outcomes, FailedAttempt) + HowMany(outcomes, ContendedAttempt)
            == |outcomes|
  {
    if outcomes == [] {
    } else {
      OutcomesPartition(outcomes[1..]);
    }
  }

  function Plus(a: Tally, b: Tally): Tally {
    Tally(a.attempted + b.attempted, a.placed + b.placed, a.failed + b.failed, a.contended + b.contended)
  }

  lemma FirstOutcome(a: Attempt, rest: seq<Attempt>, tally: Tally)
    ensures Plus(tally, TallyOf([a] + rest)) == Plus(Count(tally, a), TallyOf(rest))
  {
  }

  lemma {:induction false} LoopCounts(
    s: Settings, w: World, campaign: CampaignId, provider: ProviderId, worker: WorkerId, inputs: seq<DialInput>,
    contentions: nat, tally: Tally
  )
    ensures AllocateFrom(s, w, campaign, provider, worker, inputs, contentions, tally).1
            == Plus(tally, TallyOf(Outcomes(s, w, campaign, provider, worker, inputs, contentions)))
    decreases |inputs|
  {
    if inputs == [] {
    } else {
      var (w1, a) := AttemptDial(s, w, campaign, provider, worker, inputs[0]);
      var run := if a.ContendedAttempt? then contentions + 1 else 0;
      if run < MAX_CONSECUTIVE_CONTENTIONS {
        LoopCounts(s, w1, campaign, provider, worker, inputs[1..], run, Count(tally, a));
        FirstOutcome(a, Outcomes(s, w1, campaign, provider, worker, inputs[1..], run), tally);
      } else {
        FirstOutcome(a, [], tally);
        assert [a] + [] == [a];
      }
    }
  }

  /** The store has grown by `n` busy agents, held borrowers and active calls. */
  predicate GrewBy(w: World, w': World, campaign: CampaignId, n: int) {
    && |Engaged(w')| == |Engaged(w)| + n
    && |HeldBorrowers(w')| == |HeldBorrowers(w)| + n
    && |ActiveCalls(w', campaign)| == |ActiveCalls(w, campaign)| + n
  }

  lemma AttemptGrows(
    s: Settings, w: World, campaign: CampaignId, provider: ProviderId, worker: WorkerId, input: DialInput, w': World,
    a: Attempt
  )
    requires Inv(s, w) && (w', a) == AttemptDial(s, w, campaign, provider, worker, input)
    ensures Inv(s, w') && GrewBy(w, w', campaign, if a.AllocatedAttempt? then 1 else 0)
  {
    AttemptKeepsInv(s, w, campaign, provider, worker, input);
    var agent, borrower, key := AttemptBalances(s, w, campaign, provider, worker, input);
    if a.AllocatedAttempt? { OneMoreGrows(w, w', campaign, agent, borrower, key); }
  }

  lemma OneMoreGrows(w: World, w': World, campaign: CampaignId, a: AgentId, b: BorrowerId, k: CallKey)
    requires OneMore(w, w', campaign, a, b, k)
    ensures GrewBy(w, w', campaign, 1)
  {
  }

  lemma {:induction false} LoopGrows(
    s: Settings, w: World, campaign: CampaignId, provider: ProviderId, worker: WorkerId, inputs: seq<DialInput>,
    contentions: nat, tally: Tally
  )
    requires Inv(s, w)
    ensures var (w', t) := AllocateFrom(s, w, campaign, provider, worker, inputs, contentions, tally);
            Inv(s, w') && GrewBy(w, w', campaign, t.placed - tally.placed)
    decreases |inputs|
  {
    if inputs == [] {
    } else {
      var (w1, a) := AttemptDial(s, w, campaign, provider, worker, inputs[0]);
      AttemptGrows(s, w, campaign, provider, worker, inputs[0], w1, a);
      var run := if a.ContendedAttempt? then contentions + 1 else 0;
      if run < MAX_CONSECUTIVE_CONTENTIONS {
        LoopGrows(s, w1, campaign, provider, worker, inputs[1..], run, Count(tally, a));
      }
    }
  }

  predicate ThreeContentions(outcomes: seq<Attempt>, i: nat) {
    i + 3 <= |outcomes|
    && outcomes[i].ContendedAttempt? && outcomes[i + 1].ContendedAttempt? && outcomes[i + 2].ContendedAttempt?
  }

  /** The outcomes of a loop with `left` approvals to go, `contentions` contentions into a row. */
  predicate LoopShape(outcomes: seq<Attempt>, left: nat, contentions: nat)
    decreases left
  {
    if left == 0 then outcomes == []
    else
      outcomes != []
      && var run := if outcomes[0].ContendedAttempt? then contentions + 1 else 0;
         if run >= MAX_CONSECUTIVE_CONTENTIONS then |outcomes| == 1 else LoopShape(outcomes[1..], left - 1, run)
  }

  lemma {:induction false} OutcomesHaveShape(
    s: Settings, w: World, campaign: CampaignId, provider: ProviderId, worker: WorkerId, inputs: seq<DialInput>,
    contentions: nat
  )
    ensures LoopShape(Outcomes(s, w, campaign, provider, worker, inputs, contentions), |inputs|, contentions)
    decreases |inputs|
  {
    if inputs == [] {
    } else {
      var (w1, a) := AttemptDial(s, w, campaign, provider, worker, inputs[0]);
      var run := if a.ContendedAttempt? then contentions + 1 else 0;
      if run >= MAX_CONSECUTIVE_CONTENTIONS {
        FirstShape(a, [], |inputs|, contentions);
      } else {
        OutcomesHaveShape(s, w1, campaign, provider, worker, inputs[1..], run);
        FirstShape(a, Outcomes(s, w1, campaign, provider, worker, inputs[1..], run), |inputs|, contentions);
      }
    }
  }

  lemma FirstShape(a: Attempt, rest: seq<Attempt>, left: nat, contentions: nat)
    requires left > 0
    ensures var run := if a.ContendedAttempt? then contentions + 1 else 0;
            if run >= MAX_CONSECUTIVE_CONTENTIONS then LoopShape([a], left, contentions)
            else LoopShape(rest, left - 1, run) ==> LoopShape([a] + rest, left, contentions)
  {
    assert ([a] + rest)[1..] == rest;
  }

  predicate EndsInThree(outcomes: seq<Attempt>) {
    |outcomes| >= 3 && ThreeContentions(outcomes, |outcomes| - 3)
  }

  predicate NoneBeforeTheEnd(outcomes: seq<Attempt>) {
    forall i: nat :: i + 3 < |outcomes| ==> !ThreeContentions(outcomes, i)
  }

  predicate AllContended(outcomes: seq<Attempt>) {
    forall j :: 0 <= j < |outcomes| ==> outcomes[j].ContendedAttempt?
  }

  lemma ThirdInARow(before: seq<Attempt>, a: Attempt)
    requires |before| == 2 && AllContended(before) && a.ContendedAttempt?
    ensures EndsInThree(before + [a]) && NoneBeforeTheEnd(before + [a])
  {
  }

  /** What the loop's outcomes must be like after a run of contentions `before`. */
  predicate StopsRight(before: seq<Attempt>, made: seq<Attempt>, left: nat) {
    |made| <= left && (|made| < left ==> EndsInThree(before + made)) && NoneBeforeTheEnd(before + made)
  }

  lemma ContentionGoesOn(before: seq<Attempt>, a: Attempt, rest: seq<Attempt>, left: nat)
    requires left > 0 && StopsRight(before + [a], rest, left - 1)
    ensures StopsRight(before, [a] + rest, left)
  {
    assert before + ([a] + rest) == before + [a] + rest;
  }

  lemma RunStartsOver(before: seq<Attempt>, a: Attempt, rest: seq<Attempt>, left: nat)
    requires left > 0 && |before| < 3 && !a.ContendedAttempt? && StopsRight([], rest, left - 1)
    ensures StopsRight(before, [a] + rest, left)
  {
    assert [] + rest == rest;
    NoRunAcross(before, a, rest);
  }

  /** `before` is the run of contentions the loop starts from: it stops early exactly when three are in a row. */
  lemma {:induction false} ShapeStopsOnlyAfterThree(made: seq<Attempt>, left: nat, before: seq<Attempt>)
    requires LoopShape(made, left, |before|)
    requires |before| < 3 && AllContended(before)
    ensures StopsRight(before, made, left)
    decreases left
  {
    if left == 0 {
    } else {
      var a, rest := made[0], made[1..];
      assert made == [a] + rest;
      if a.ContendedAttempt? && |before| == 2 {
        ThirdInARow(before, a);
        assert made == [a];
      } else if a.ContendedAttempt? {
        ShapeStopsOnlyAfterThree(rest, left - 1, before + [a]);
        ContentionGoesOn(before, a, rest, left);
      } else {
        ShapeStopsOnlyAfterThree(rest, left - 1, []);
        RunStartsOver(before, a, rest, left);
      }
    }
  }

  lemma NoRunAcross(before: seq<Attempt>, a: Attempt, rest: seq<Attempt>)
    requires |before| < 3 && !a.ContendedAttempt?
    requires NoneBeforeTheEnd(rest)
    ensures NoneBeforeTheEnd(before + ([a] + rest))
    ensures EndsInThree(rest) ==> EndsInThree(before + ([a] + rest))
  {
    var all := before + ([a] + rest);
    var n := |before| + 1;
    assert all[n - 1] == a;
    assert forall j :: 0 <= j < |rest| ==> all[n + j] == rest[j];
    forall i: nat | i + 3 < |all| ensures !ThreeContentions(all, i) {
      if i >= n {
        assert !ThreeContentions(rest, i - n);
      } else {
        assert i <= n - 1 < i + 3;
      }
    }
  }

  /**
   * The allocator attempts at most what was approved, stops early exactly at its third contention in a
   * row, counts every attempt once, and leaves one busy agent, one held borrower and one active call
   * more for each call it placed, and none for any other attempt.
   */
  lemma AllocationIsConserved(
    s: Settings, w: World, campaign: CampaignId, provider: ProviderId, worker: WorkerId, inputs: seq<DialInput>
  )
    requires Inv(s, w)
    ensures var (w', t) := Allocate(s, w, campaign, provider, worker, inputs);
            var outcomes := Outcomes(s, w, campaign, provider, worker, inputs, 0);
            && t == TallyOf(outcomes)
            && t.attempted == t.placed + t.failed + t.contended <= |inputs|
            && (t.attempted < |inputs| ==> EndsInThree(outcomes)) && NoneBeforeTheEnd(outcomes)
            && GrewBy(w, w', campaign, t.placed)
  {
    LoopCounts(s, w, campaign, provider, worker, inputs, 0, Tally(0, 0, 0, 0));
    LoopGrows(s, w, campaign, provider, worker, inputs, 0, Tally(0, 0, 0, 0));
    OutcomesHaveShape(s, w, campaign, provider, worker, inputs, 0);
    var outcomes := Outcomes(s, w, campaign, provider, worker, inputs, 0);
    ShapeStopsOnlyAfterThree(outcomes, |inputs|, []);
    assert [] + outcomes == outcomes;
    OutcomesPartition(outcomes);
  }

  // ---------- lease fields ----------

  function LeasedAgents(w: World): set<AgentId> {
    set id | id in w.agents && w.agents[id].lease.Some?
  }

  /** Logging out by silence or by hand does not clear the lease, and logging in again does not either. */
  lemma OldLeaseSurvivesLogout(a: Agent, t: Time, u: Time)
    requires a.state == AgentState.Dialing && a.lease.Some?
    ensures var out := TransitionAgent(a, a.state, AgentState.Offline, a.version, t);
            out.Some?
            && var back := TransitionAgent(out.value, AgentState.Offline, AgentState.Available, out.value.version, u);
               back.Some? && back.value.state == AgentState.Available && back.value.lease == a.lease
  {
  }

  lemma LeasesAfterWrite(w: World, w': World, id: AgentId, a: Agent)
    requires id in w.agents && w'.agents == w.agents[id := a]
    ensures |LeasedAgents(w')| - |LeasedAgents(w)|
            == (if a.lease.Some? then 1 else 0) - (if w.agents[id].lease.Some? then 1 else 0)
  {
    var others := LeasedAgents(w) - {id};
    assert LeasedAgents(w) == if w.agents[id].lease.Some? then others + {id} else others;
    assert LeasedAgents(w') == if a.lease.Some? then others + {id} else others;
  }

  /** The agent an attempt claims: the first the query lists that is available. */
  function FirstAvailable(w: World, campaign: CampaignId, order: seq<AgentId>): (first: Option<AgentId>)
    ensures first.Some? ==> first.value in AvailableAgents(w, campaign)
  {
    var candidates := Pick(AvailableAgents(w, campaign), order, CLAIM_WINDOW);
    if candidates == [] then None else Some(candidates[0])
  }

  lemma FirstCandidateIsWon(s: Settings, w: World, campaign: CampaignId, worker: WorkerId, candidates: seq<AgentId>)
    requires candidates != [] && candidates[0] in AvailableAgents(w, campaign)
    ensures var a := ClaimAgent(s, w, campaign, worker, candidates).1;
            a.Some? && a.value.0 == candidates[0]
  {
    assert TryReserveAgent(w, campaign, candidates[0], worker, s.ttl).1.Some?;
  }

  /** Without competition the first candidate is won; it is in the pair, or it is given back. */
  lemma FirstIsClaimed(
    s: Settings, w: World, campaign: CampaignId, worker: WorkerId, ao: seq<AgentId>, bo: seq<BorrowerId>
  )
    ensures var first := FirstAvailable(w, campaign, ao);
            var (w', pair) := ReservePair(s, w, campaign, worker, ao, bo);
            && (first.None? ==> pair.None? && w'.agents == w.agents)
            && (first.Some? && pair.Some? ==> pair.value.agentId == first.value)
            && (first.Some? && pair.None? ==> AgentReturned(w, w', first.value))
  {
    var candidates := Pick(AvailableAgents(w, campaign), ao, CLAIM_WINDOW);
    ClaimAgentEffect(s, w, campaign, worker, candidates);
    var (w1, a) := ClaimAgent(s, w, campaign, worker, candidates);
    if candidates != [] {
      assert candidates[0] in candidates;
      FirstCandidateIsWon(s, w, campaign, worker, candidates);
      var w2 := Tick(w1);
      var borrowers := Pick(ClaimableBorrowers(w2, campaign), bo, CLAIM_WINDOW);
      ClaimBorrowerEffect(s, w2, campaign, worker, borrowers);
      var (w3, b) := ClaimBorrower(s, w2, campaign, worker, borrowers);
      if b.None? { ReturnAgentEffect(s, w, w1, w3, campaign, worker, a.value.0, a.value.1); }
    }
  }

  /**
   * Counted by the lease field alone, the books balance exactly when the agent the attempt claims, if
   * there is one to claim, does not still carry an old lease. No other agent is touched.
   */
  lemma LeaseFieldsBalanceIff(
    s: Settings, w: World, campaign: CampaignId, provider: ProviderId, worker: WorkerId, input: DialInput
  )
    requires Inv(s, w)
    ensures var claimed := FirstAvailable(w, campaign, input.agentOrder);
            var (w', outcome) := AttemptDial(s, w, campaign, provider, worker, input);
            && (if claimed.None? then w'.agents == w.agents
                else claimed.value in w'.agents && w'.agents == w.agents[claimed.value := w'.agents[claimed.value]])
            && (|LeasedAgents(w')| == |LeasedAgents(w)| + (if outcome.AllocatedAttempt? then 1 else 0)
                <==> claimed.None? || w.agents[claimed.value].lease.None?)
  {
    FirstIsClaimed(s, w, campaign, worker, input.agentOrder, input.borrowerOrder);
    var (w1, pair) := ReservePair(s, w, campaign, worker, input.agentOrder, input.borrowerOrder);
    var claimed := FirstAvailable(w, campaign, input.agentOrder);
    if pair.Some? {
      var _ := ReservePairEffect(s, w, campaign, worker, input.agentOrder, input.borrowerOrder);
      DialLeases(s, w, w1, pair.value, provider, input.healthy, input.reply);
    } else if claimed.Some? {
      LeasesAfterWrite(w, w1, claimed.value, w1.agents[claimed.value]);
    }
  }

  lemma DialLeases(s: Settings, w: World, w1: World, p: Pair, provider: ProviderId, healthy: bool, reply: Reply)
    requires Inv(s, w) && PairClaimed(s, w, w1, p)
    ensures var (w', dialled) := Dial(s, w1, p, provider, healthy, reply);
            && p.agentId in w'.agents && w'.agents == w.agents[p.agentId := w'.agents[p.agentId]]
            && (|LeasedAgents(w')| == |LeasedAgents(w)| + (if dialled then 1 else 0)
                <==> w.agents[p.agentId].lease.None?)
  {
    ClaimedPairIsReady(s, w, w1, p);
    var a, b, c := DialEffect(s, w, w1, p, provider, healthy, reply);
    LeasesAfterWrite(w, Dial(s, w1, p, provider, healthy, reply).0, p.agentId, a);
  }
}
