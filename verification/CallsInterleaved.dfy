/** Calls under every interleaving: legal moves only, and at most one origination per idempotency key. */
module CallsInterleaved {
  import opened Basics
  import opened AgentMachine
  import opened CallMachine
  import opened Documents
  import opened Store
  import opened Effects
  import opened Handlers
  import opened Interleavings

  // ---------- the invariant ----------

  ghost predicate CallSound(s: Settings, w: World, key: CallKey)
    requires key in w.calls
  {
    var c := w.calls[key];
    && CallConsistent(c)
    && (c.providerCallId.Some? ==> c.rank >= 2)
    && key.agent in w.agents && w.agents[key.agent].campaign == key.campaign
    && key.borrower in w.borrowers
    && 1 <= key.attempt <= s.maxAttempts
  }

  /** A reading of a call never runs ahead of the call. */
  ghost predicate ReadingSound(w: World, key: CallKey, read: Call) {
    && key in w.calls
    && CallConsistent(read)
    && read.rank <= w.calls[key].rank
    && (read.providerCallId.Some? ==> read.rank >= 2)
  }

  /** Every origination, made or still owed, belongs to a call whose INITIATED write was won once. */
  ghost predicate OriginationsSound(f: Fine) {
    && (forall k :: k in f.granted || k in f.originated ==> k in f.w.calls && f.w.calls[k].rank >= 2)
    && (forall k :: k in f.granted ==> k !in f.originated)
    && Distinct(f.originated)
  }

  ghost predicate HeldReadsSound(s: Settings, f: Fine) {
    forall p :: p in f.borrowersRead && p.1.status == BorrowerStatus.Reserved ==>
      p.0 in f.w.borrowers && p.1.attemptCount < s.maxAttempts
  }

  ghost predicate CallsSound(s: Settings, f: Fine) {
    && (forall k :: k in f.w.calls ==> CallSound(s, f.w, k))
    && (forall p :: p in f.callsRead ==> ReadingSound(f.w, p.0, p.1))
    && OriginationsSound(f)
  }

  /** What a step does to calls: each keeps its rank or raises it, along an edge of the state machine. */
  ghost predicate CallsMoveLegally(w: World, w': World) {
    && w.calls.Keys <= w'.calls.Keys
    && forall k :: k in w.calls ==>
         w'.calls[k].state == w.calls[k].state || CanTransition(w.calls[k].state, w'.calls[k].state)
  }

  // ---------- steps that write one call ----------

  /** The step leaves every other call, all readings and all originations as they were. */
  ghost predicate OneCallWritten(f: Fine, f': Fine, key: CallKey) {
    && SameParties(f, f')
    && key in f.w.calls && key in f'.w.calls
    && f'.w.calls == f.w.calls[key := f'.w.calls[key]]
    && f'.callsRead == f.callsRead && f'.originated == f.originated
  }

  lemma CallWriteKeepsSound(s: Settings, f: Fine, f': Fine, key: CallKey)
    requires CallsSound(s, f) && OneCallWritten(f, f', key)
    requires CallConsistent(f'.w.calls[key]) && f.w.calls[key].rank <= f'.w.calls[key].rank
    requires f'.w.calls[key].providerCallId.Some? ==> f'.w.calls[key].rank >= 2
    requires f'.granted == f.granted
          || (f'.granted == f.granted + {key} && f.w.calls[key].rank < 2 <= f'.w.calls[key].rank)
    ensures CallsSound(s, f')
  {
    assert CallSound(s, f.w, key);
    forall k | k in f'.w.calls ensures CallSound(s, f'.w, k) {
      assert CallSound(s, f.w, k);
    }
    forall p | p in f'.callsRead ensures ReadingSound(f'.w, p.0, p.1) {
      assert ReadingSound(f.w, p.0, p.1);
    }
  }

  /** The step does not concern calls. */
  lemma CallsUntouchedKeepsSound(s: Settings, f: Fine, f': Fine)
    requires CallsSound(s, f) && SameParties(f, f')
    requires f'.w.calls == f.w.calls && f'.callsRead == f.callsRead
    requires f'.granted == f.granted && f'.originated == f.originated
    ensures CallsSound(s, f')
  {
  }

  /** A guarded write of a call's state, from whatever reading led to it, is legal on what is stored. */
  lemma TransitionStep(s: Settings, f: Fine, key: CallKey, to: CallState, f': Fine)
    requires CallsSound(s, f)
    requires f' == f.(w := TryTransitionCall(f.w, key, to).0, granted := f'.granted)
    requires var won := TryTransitionCall(f.w, key, to).1.Some? && to == CallState.Initiated;
             f'.granted == if won then f.granted + {key} else f.granted
    requires key in f.w.calls && !f.w.calls[key].terminal && f.w.calls[key].rank < Rank(to) ==>
               CanTransition(f.w.calls[key].state, to)
    ensures CallsSound(s, f') && CallsMoveLegally(f.w, f'.w)
  {
    if key in f.w.calls && !f.w.calls[key].terminal && f.w.calls[key].rank < Rank(to) {
      WonTransitionCall(f.w, key, to);
      assert CallSound(s, f.w, key);
      CallWriteKeepsSound(s, f, f', key);
    } else {
      CallsUntouchedKeepsSound(s, f, f');
    }
  }

  lemma PromotionIsLegal(c: Call, to: CallState)
    requires CallConsistent(c) && !c.terminal && c.rank < Rank(to)
    requires to == CallState.Reserved || to == CallState.Initiated || to == CallState.Failed
             || to == CallState.Cancelled
    ensures CanTransition(c.state, to)
  {
  }

  /** Completing a stale call, or moving one by an event, rests on a reading that may be old. */
  lemma OldReadingIsLegal(w: World, key: CallKey, read: Call, to: CallState)
    requires ReadingSound(w, key, read) && CallConsistent(w.calls[key])
    requires read.providerCallId.Some? && Rank(to) >= 3
    requires !w.calls[key].terminal && w.calls[key].rank < Rank(to)
    ensures CanTransition(w.calls[key].state, to)
    ensures CanTransition(read.state, to)
  {
    RankGuardSuffices(read.state, to);
    StaleCheckStaysLegal(read.state, w.calls[key].state, to);
  }

  lemma CreateStep(s: Settings, f: Fine, key: CallKey, provider: ProviderId, worker: WorkerId, read: Borrower)
    requires CallsSound(s, f) && HeldReadsSound(s, f) && Enabled(s, f, Create(key, provider, worker, read))
    ensures var f' := Take(s, f, Create(key, provider, worker, read));
            CallsSound(s, f') && CallsMoveLegally(f.w, f'.w)
  {
    var f' := Take(s, f, Create(key, provider, worker, read));
    forall k | k in f'.w.calls ensures CallSound(s, f'.w, k) {
      assert k in f.w.calls ==> CallSound(s, f.w, k);
      assert (key.borrower, read) in f.borrowersRead;
    }
    forall p | p in f'.callsRead ensures ReadingSound(f'.w, p.0, p.1) {
      assert p in f.callsRead ==> ReadingSound(f.w, p.0, p.1);
    }
  }

  lemma AttachStep(s: Settings, f: Fine, key: CallKey, id: ProviderCallId)
    requires CallsSound(s, f) && key in f.originated
    ensures var f' := Take(s, f, AttachId(key, id));
            CallsSound(s, f') && CallsMoveLegally(f.w, f'.w)
  {
    var f' := Take(s, f, AttachId(key, id));
    var (w1, attached) := TryAttach(f.w, key, id);
    if attached.Some? {
      assert CallSound(s, f.w, key);
      CallWriteKeepsSound(s, f, f', key);
    } else {
      CallsUntouchedKeepsSound(s, f, f');
    }
  }

  lemma OriginateStep(s: Settings, f: Fine, key: CallKey)
    requires CallsSound(s, f) && key in f.granted
    ensures CallsSound(s, Take(s, f, Originate(key)))
  {
  }

  lemma ReadCallStep(s: Settings, f: Fine, key: CallKey)
    requires CallsSound(s, f)
    ensures CallsSound(s, Take(s, f, ReadCall(key)))
  {
  }

  predicate WritesCalls(op: Op) {
    op.Create? || op.Promote? || op.Originate? || op.AttachId? || op.EndCall? || op.CompleteStale? || op.MoveByEvent?
    || op.ReadCall?
  }

  predicate CallPartsSame(f: Fine, f': Fine) {
    && f'.w.calls == f.w.calls && f'.callsRead == f.callsRead && f'.granted == f.granted
       && f'.originated == f.originated
  }

  predicate WritesAgents(op: Op) {
    op.Claim? || op.LetAgentGo? || op.MoveAgentTo? || op.Bind? || op.ReclaimLease? || op.Ping?
  }

  lemma AgentMovesKeepCalls(s: Settings, f: Fine, op: Op)
    requires op.LetAgentGo? || op.MoveAgentTo?
    ensures SameParties(f, Take(s, f, op)) && CallPartsSame(f, Take(s, f, op))
  {
    match op
    case LetAgentGo(id, worker, to, who) => ReleaseKeepsCampaigns(f.w, id, worker, to, who);
    case MoveAgentTo(id, read, to, who) => MoveKeepsCampaigns(f.w, id, read.state, to, who, read.version);
  }

  lemma AgentStepsKeepCalls(s: Settings, f: Fine, op: Op)
    requires WritesAgents(op)
    ensures SameParties(f, Take(s, f, op)) && CallPartsSame(f, Take(s, f, op))
  {
    if op.LetAgentGo? || op.MoveAgentTo? { AgentMovesKeepCalls(s, f, op); }
  }

  lemma AgentWritesKeepCampaign(
    a: Agent, worker: WorkerId, from: AgentState, to: AgentState, who: Actor, version: nat, now: Time
  )
    ensures var r := ReleaseAgent(a, worker, to, who, now); r.Some? ==> r.value.campaign == a.campaign
    ensures var r := TransitionAgent(a, from, to, version, now); r.Some? ==> r.value.campaign == a.campaign
  {
  }

  lemma ReleaseKeepsCampaigns(w: World, id: AgentId, worker: WorkerId, to: AgentState, who: Actor)
    ensures var w' := TryReleaseAgent(w, id, worker, to, who).0;
            w'.agents.Keys == w.agents.Keys && w'.borrowers == w.borrowers && w'.calls == w.calls
            && forall x :: x in w.agents ==> w'.agents[x].campaign == w.agents[x].campaign
  {
    ReleaseAgentFrame(w, id, worker, to, who);
    if id in w.agents { AgentWritesKeepCampaign(w.agents[id], worker, to, to, who, 0, Tick(w).now); }
  }

  lemma MoveKeepsCampaigns(w: World, id: AgentId, from: AgentState, to: AgentState, who: Actor, version: nat)
    ensures var w' := TryTransitionAgent(w, id, from, to, who, version).0;
            w'.agents.Keys == w.agents.Keys && w'.borrowers == w.borrowers && w'.calls == w.calls
            && forall x :: x in w.agents ==> w'.agents[x].campaign == w.agents[x].campaign
  {
    TransitionAgentFrame(w, id, from, to, who, version);
    if id in w.agents { AgentWritesKeepCampaign(w.agents[id], 0, from, to, who, version, Tick(w).now); }
  }

  lemma OtherStepsKeepCalls(s: Settings, f: Fine, op: Op)
    requires !WritesCalls(op) && !WritesAgents(op)
    ensures SameParties(f, Take(s, f, op)) && CallPartsSame(f, Take(s, f, op))
  {
    match op
    case LetBorrowerGo(_, _, _) =>
    case _ =>
  }

  predicate MovesACall(op: Op) {
    op.Promote? || op.EndCall? || op.CompleteStale? || op.MoveByEvent?
  }

  lemma MoveStepKeepsCalls(s: Settings, f: Fine, op: Op)
    requires CallsSound(s, f) && Enabled(s, f, op) && MovesACall(op)
    ensures CallsSound(s, Take(s, f, op)) && CallsMoveLegally(f.w, Take(s, f, op).w)
  {
    var f' := Take(s, f, op);
    match op
    case Promote(key, to) => AskedMoveIsLegal(s, f, key, to); TransitionStep(s, f, key, to, f');
    case EndCall(key, to) => AskedMoveIsLegal(s, f, key, to); TransitionStep(s, f, key, to, f');
    case CompleteStale(key, read) =>
      ReadMoveIsLegal(s, f, key, read, CallState.Completed);
      TransitionStep(s, f, key, CallState.Completed, f');
    case MoveByEvent(key, read, target) =>
      ReadMoveIsLegal(s, f, key, read, target);
      TransitionStep(s, f, key, target, f');
  }

  lemma AskedMoveIsLegal(s: Settings, f: Fine, key: CallKey, to: CallState)
    requires CallsSound(s, f)
    requires to == CallState.Reserved || to == CallState.Initiated || to == CallState.Failed
             || to == CallState.Cancelled
    ensures key in f.w.calls && !f.w.calls[key].terminal && f.w.calls[key].rank < Rank(to) ==>
              CanTransition(f.w.calls[key].state, to)
  {
    if key in f.w.calls && !f.w.calls[key].terminal && f.w.calls[key].rank < Rank(to) {
      assert CallSound(s, f.w, key);
      PromotionIsLegal(f.w.calls[key], to);
    }
  }

  /** No step, however late, moves a call off the edges of its state machine or breaks the accounting of dials. */
  lemma StepKeepsCalls(s: Settings, f: Fine, op: Op)
    requires CallsSound(s, f) && HeldReadsSound(s, f) && Enabled(s, f, op)
    ensures CallsSound(s, Take(s, f, op)) && CallsMoveLegally(f.w, Take(s, f, op).w)
  {
    match op
    case Create(key, provider, worker, read) => CreateStep(s, f, key, provider, worker, read);
    case Originate(key) => OriginateStep(s, f, key);
    case AttachId(key, id) => AttachStep(s, f, key, id);
    case ReadCall(key) => ReadCallStep(s, f, key);
    case _ => if MovesACall(op) { MoveStepKeepsCalls(s, f, op); } else { OtherStepKeepsCalls(s, f, op); }
  }

  lemma OtherStepKeepsCalls(s: Settings, f: Fine, op: Op)
    requires CallsSound(s, f) && !WritesCalls(op)
    ensures CallsSound(s, Take(s, f, op)) && CallsMoveLegally(f.w, Take(s, f, op).w)
  {
    if WritesAgents(op) { AgentStepsKeepCalls(s, f, op); } else { OtherStepsKeepCalls(s, f, op); }
    CallsUntouchedKeepsSound(s, f, Take(s, f, op));
  }

  lemma ReadMoveIsLegal(s: Settings, f: Fine, key: CallKey, read: Call, to: CallState)
    requires CallsSound(s, f) && (key, read) in f.callsRead && read.providerCallId.Some? && Rank(to) >= 3
    ensures key in f.w.calls && !f.w.calls[key].terminal && f.w.calls[key].rank < Rank(to) ==>
              CanTransition(f.w.calls[key].state, to)
  {
    assert ReadingSound(f.w, (key, read).0, (key, read).1) && CallSound(s, f.w, key);
    if !f.w.calls[key].terminal && f.w.calls[key].rank < Rank(to) {
      OldReadingIsLegal(f.w, key, read, to);
    }
  }
}
