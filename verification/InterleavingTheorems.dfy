/**
 * What holds of every state that any interleaving reaches, crashes and delays included, and of every
 * step taken from it.
 */
module InterleavingTheorems {
  import opened Basics
  import opened AgentMachine
  import opened CallMachine
  import opened Documents
  import opened Store
  import opened Handlers
  import opened Interleavings
  import opened CallsInterleaved
  import opened BorrowersInterleaved
  import opened AgentsInterleaved

  ghost predicate AllSound(s: Settings, f: Fine) {
    CallsSound(s, f) && BorrowersSound(s, f) && ReadsSound(s, f) && AgentsSound(s, f)
  }

  lemma FreshIsSound(s: Settings, f: Fine)
    requires Fresh(s, f)
    ensures AllSound(s, f)
  {
  }

  lemma DatingKeepsAll(s: Settings, f: Fine, t: Time)
    requires AllSound(s, f)
    ensures AllSound(s, Dated(f, t))
  {
  }

  lemma HeldReads(s: Settings, f: Fine)
    requires ReadsSound(s, f)
    ensures HeldReadsSound(s, f)
  {
  }

  lemma StepKeepsAll(s: Settings, f: Fine, step: Step)
    requires AllSound(s, f) && CanTake(s, f, step)
    ensures AllSound(s, Next(s, f, step))
    ensures CallsMoveLegally(f.w, Next(s, f, step).w)
    ensures AgentsMoveLegally(f.w, Next(s, f, step).w, ActorOf(step.op))
  {
    var g := Dated(f, Stamp(f, step));
    var h := Take(s, g, step.op);
    EnabledWhenDated(s, f, step.op, Stamp(f, step));
    PartsKeepAll(s, f, g, h, Next(s, f, step), step.op);
  }

  /** A step by its parts: the old reading, the write, and the clock put right again. */
  lemma PartsKeepAll(s: Settings, f: Fine, g: Fine, h: Fine, f': Fine, op: Op)
    requires AllSound(s, f) && g == Dated(f, g.w.now) && Enabled(s, g, op) && h == Take(s, g, op)
             && f' == Dated(h, f'.w.now)
    ensures AllSound(s, f') && CallsMoveLegally(f.w, f'.w) && AgentsMoveLegally(f.w, f'.w, ActorOf(op))
  {
    DatingKeepsAll(s, f, g.w.now);
    OpKeepsAll(s, g, op);
    DatingAround(s, f, g, h, f', ActorOf(op));
  }

  lemma EnabledWhenDated(s: Settings, f: Fine, op: Op, t: Time)
    requires Enabled(s, f, op)
    ensures Enabled(s, Dated(f, t), op)
  {
  }

  lemma DatingAround(s: Settings, f: Fine, g: Fine, h: Fine, f': Fine, actor: Actor)
    requires g == Dated(f, g.w.now) && f' == Dated(h, f'.w.now) && AllSound(s, h)
    requires CallsMoveLegally(g.w, h.w) && AgentsMoveLegally(g.w, h.w, actor)
    ensures AllSound(s, f') && CallsMoveLegally(f.w, f'.w) && AgentsMoveLegally(f.w, f'.w, actor)
  {
    DatingKeepsAll(s, h, f'.w.now);
  }

  lemma OpKeepsAll(s: Settings, f: Fine, op: Op)
    requires AllSound(s, f) && Enabled(s, f, op)
    ensures AllSound(s, Take(s, f, op))
    ensures CallsMoveLegally(f.w, Take(s, f, op).w)
    ensures AgentsMoveLegally(f.w, Take(s, f, op).w, ActorOf(op))
  {
    HeldReads(s, f);
    StepKeepsCalls(s, f, op);
    StepKeepsBorrowers(s, f, op);
    StepKeepsAgents(s, f, op);
  }

  lemma {:induction false} RunKeepsAll(s: Settings, f: Fine, steps: seq<Step>)
    requires AllSound(s, f) && Possible(s, f, steps)
    ensures AllSound(s, After(s, f, steps))
    decreases |steps|
  {
    if steps == [] {
    } else {
      StepKeepsAll(s, f, steps[0]);
      RunKeepsAll(s, Next(s, f, steps[0]), steps[1..]);
    }
  }

  lemma ReachedIsSound(s: Settings, f: Fine)
    requires Reached(s, f)
    ensures AllSound(s, f)
  {
    var f0, steps :| Fresh(s, f0) && Possible(s, f0, steps) && f == After(s, f0, steps);
    FreshIsSound(s, f0);
    RunKeepsAll(s, f0, steps);
  }

  // ---------- originations ----------

  /** No idempotency key is ever handed to a provider twice, whatever overlaps and whoever crashes. */
  lemma OriginatedAtMostOnce(s: Settings, f: Fine)
    requires Reached(s, f)
    ensures Distinct(f.originated)
    ensures forall k :: k in f.originated ==>
              k in f.w.calls && f.w.calls[k].state != CallState.Queued && f.w.calls[k].state != CallState.Reserved
  {
    ReachedIsSound(s, f);
    forall k | k in f.originated ensures Rank(f.w.calls[k].state) >= 2 {
      assert CallSound(s, f.w, k);
    }
  }

  /** So a run can place no more calls than agents times borrowers times attempts. */
  lemma OriginationsBounded(s: Settings, f: Fine)
    requires Reached(s, f)
    ensures |f.originated| <= |f.w.agents.Keys| * |f.w.borrowers.Keys| * Max(0, s.maxAttempts)
  {
    ReachedIsSound(s, f);
    var n: nat := Max(0, s.maxAttempts);
    var keys := Elements(f.originated);
    var pairs := Product(f.w.agents.Keys, f.w.borrowers.Keys);
    var all := Product(pairs, UpTo(n));
    var place := map k | k in keys :: ((k.agent, k.borrower), k.attempt);
    forall k | k in keys ensures place[k] in all {
      assert CallSound(s, f.w, k);
    }
    forall k, k' | k in keys && k' in keys && place[k] == place[k'] ensures k == k' {
      assert CallSound(s, f.w, k) && CallSound(s, f.w, k');
    }
    InjectionBounds(keys, all, place);
    DistinctHasItsLength(f.originated);
    ProductSize(f.w.agents.Keys, f.w.borrowers.Keys);
    ProductSize(pairs, UpTo(n));
  }

  // ---------- calls ----------

  /** Every state a call is ever moved to, by anyone and on any stale reading, is an edge of its machine. */
  lemma CallsOnlyMoveAlongEdges(s: Settings, f: Fine, step: Step, key: CallKey)
    requires Reached(s, f) && CanTake(s, f, step) && key in f.w.calls
    ensures key in Next(s, f, step).w.calls
    ensures var from, to := f.w.calls[key].state, Next(s, f, step).w.calls[key].state;
            to == from || CanTransition(from, to)
  {
    ReachedIsSound(s, f);
    StepKeepsAll(s, f, step);
  }

  /** A call found by its provider's id is never one whose state machine forbids an event's move. */
  lemma EventsAreNeverInvalid(s: Settings, f: Fine, key: CallKey, read: Call, target: CallState)
    requires Reached(s, f) && (key, read) in f.callsRead && read.providerCallId.Some? && Rank(target) >= 3
    ensures ShouldApplyEvent(read.state, target) != IgnoreInvalid
    ensures key in f.w.calls && ShouldApplyEvent(f.w.calls[key].state, target) != IgnoreInvalid
  {
    ReachedIsSound(s, f);
    assert ReadingSound(f.w, (key, read).0, (key, read).1) && CallSound(s, f.w, key);
    RankGuardSuffices(read.state, target);
    RankGuardSuffices(f.w.calls[key].state, target);
  }

  // ---------- agents ----------

  /** Every change of an agent's state is one its actor may make, and takes the version up by one. */
  lemma AgentsOnlyMoveWhenAuthorised(s: Settings, f: Fine, step: Step, id: AgentId)
    requires Reached(s, f) && CanTake(s, f, step) && id in f.w.agents
    ensures id in Next(s, f, step).w.agents
    ensures var a, a' := f.w.agents[id], Next(s, f, step).w.agents[id];
            if a'.state == a.state then a'.version == a.version && a'.lease == a.lease
            else a'.version == a.version + 1 && Authorised(a.state, a'.state, ActorOf(step.op))
  {
    ReachedIsSound(s, f);
    StepKeepsAll(s, f, step);
    assert AgentMovedLegally(f.w.agents[id], Next(s, f, step).w.agents[id], ActorOf(step.op));
  }

  function StateChanges(s: Settings, f: Fine, steps: seq<Step>, id: AgentId): nat
    decreases |steps|
  {
    if steps == [] then 0
    else
      var g := Next(s, f, steps[0]);
      (if id in f.w.agents && id in g.w.agents && f.w.agents[id].state != g.w.agents[id].state then 1 else 0)
      + StateChanges(s, g, steps[1..], id)
  }

  /** The version counts the state changes, so equal versions mean nothing happened in between. */
  lemma {:induction false} VersionCountsChanges(s: Settings, f: Fine, steps: seq<Step>, id: AgentId)
    requires AllSound(s, f) && Possible(s, f, steps) && id in f.w.agents
    ensures id in After(s, f, steps).w.agents
    ensures After(s, f, steps).w.agents[id].version == f.w.agents[id].version + StateChanges(s, f, steps, id)
    decreases |steps|
  {
    if steps == [] {
    } else {
      StepKeepsAll(s, f, steps[0]);
      assert AgentMovedLegally(f.w.agents[id], Next(s, f, steps[0]).w.agents[id], ActorOf(steps[0].op));
      VersionCountsChanges(s, Next(s, f, steps[0]), steps[1..], id);
    }
  }

  /**
   * A versioned move or lease reclaim that succeeds acts on the agent as it was read, but for its binding
   * and heartbeat.
   */
  lemma VersionedWritesSeeNoChange(
    s: Settings, f: Fine, id: AgentId, read: Agent, to: AgentState, actor: Actor, sweep: Time
  )
    requires Reached(s, f) && (id, read) in f.agentsRead
    requires TryTransitionAgent(f.w, id, read.state, to, actor, read.version).1.Moved?
          || TryReclaimAgent(f.w, id, read, sweep).1.Some?
    ensures id in f.w.agents && SameVersioned(read, f.w.agents[id])
  {
    ReachedIsSound(s, f);
    NoInterveningChange(s, f, id, read, to, actor, sweep);
  }

  /** The call an agent was last bound to, from a first binding on. */
  function LastBinding(s: Settings, f: Fine, steps: seq<Step>, id: AgentId, was: Option<CallKey>): Option<CallKey>
    decreases |steps|
  {
    if steps == [] then was
    else LastBinding(s, Next(s, f, steps[0]), steps[1..], id, BindingAfter(f, steps[0].op, id, was))
  }

  lemma BindingStep(s: Settings, f: Fine, step: Step, id: AgentId, f': Fine)
    requires f' == Next(s, f, step) && id in f.w.agents && id in f'.w.agents
    requires f'.w.agents[id].version == f.w.agents[id].version
    ensures f'.w.agents[id].currentCall == BindingAfter(f, step.op, id, f.w.agents[id].currentCall)
  {
    OnlyBindingBinds(s, Dated(f, Stamp(f, step)), step.op, id);
  }

  /**
   * The one thing a versioned write can overlook: with the version as it was, the agent's call is the
   * one it was last bound to since, by a worker holding its lease.
   */
  lemma {:induction false} OnlyBindingsGoUnseen(s: Settings, f: Fine, steps: seq<Step>, id: AgentId)
    requires AllSound(s, f) && Possible(s, f, steps) && id in f.w.agents && id in After(s, f, steps).w.agents
    requires After(s, f, steps).w.agents[id].version == f.w.agents[id].version
    ensures After(s, f, steps).w.agents[id].currentCall == LastBinding(s, f, steps, id, f.w.agents[id].currentCall)
    decreases |steps|
  {
    if steps == [] {
    } else {
      var g := Next(s, f, steps[0]);
      StepKeepsAll(s, f, steps[0]);
      assert AgentMovedLegally(f.w.agents[id], g.w.agents[id], ActorOf(steps[0].op));
      VersionCountsChanges(s, g, steps[1..], id);
      BindingStep(s, f, steps[0], id, g);
      OnlyBindingsGoUnseen(s, g, steps[1..], id);
    }
  }

  /** A working agent always holds a lease of full length, and one in wrap-up holds none. */
  lemma BusyAgentsHoldLeases(s: Settings, f: Fine, id: AgentId)
    requires Reached(s, f) && id in f.w.agents
    ensures var a := f.w.agents[id];
            && (a.state == AgentState.Reserved || a.state == AgentState.Dialing || a.state == AgentState.Connected ==>
                  a.lease.Some? && a.lease.value.expiresAt == a.lease.value.reservedAt + s.ttl)
            && (a.state == AgentState.WrapUp ==> a.lease.None?)
  {
    ReachedIsSound(s, f);
    assert AgentSound(s, f.w.agents[id]);
  }

  predicate Busy(a: Agent) {
    a.state == AgentState.Reserved || a.state == AgentState.Dialing || a.state == AgentState.Connected
    || a.state == AgentState.WrapUp
  }

  /** When a sweep will at the latest find a busy agent, if nothing else frees it before. */
  function SweptBy(s: Settings, a: Agent): Time {
    if a.state == AgentState.WrapUp then a.stateChangedAt + StuckWrapUpAge(s)
    else if a.lease.Some? then a.lease.value.reservedAt + s.ttl + 1
    else 0
  }

  /** No busy agent is ever lost: from a known time on, one of the sweeps lists it. */
  lemma BusyAgentsAreSwept(s: Settings, f: Fine, id: AgentId, t: Time)
    requires Reached(s, f) && id in f.w.agents && Busy(f.w.agents[id]) && t >= SweptBy(s, f.w.agents[id])
    ensures if f.w.agents[id].state == AgentState.WrapUp then id in FinishedWrapUps(f.w, t - StuckWrapUpAge(s))
            else id in ExpiredAgents(f.w, t)
  {
    ReachedIsSound(s, f);
    ReleaseSources();
    assert AgentSound(s, f.w.agents[id]);
  }

  // ---------- borrowers ----------

  /** A held borrower with earlier attempts has waited out the backoff of the last, even across reclaims. */
  lemma HoldsRespectBackoff(s: Settings, f: Fine, id: BorrowerId)
    requires Reached(s, f) && id in f.w.borrowers
    requires f.w.borrowers[id].status == BorrowerStatus.Reserved && f.w.borrowers[id].attemptCount >= 1
    ensures var b := f.w.borrowers[id];
            && b.attemptCount < s.maxAttempts
            && b.lease.Some? && b.lastAttemptAt.Some?
            && b.lease.value.reservedAt >= b.lastAttemptAt.value + s.backoffBase * Pow2(b.attemptCount - 1)
  {
    ReachedIsSound(s, f);
    assert BorrowerSound(s, f.w.borrowers[id]);
  }

  lemma {:induction false} RunKeepsSpreads(s: Settings, f: Fine, steps: seq<Step>)
    requires AllSound(s, f) && SpreadsSound(s, f) && Possible(s, f, steps) && AllDatedInOrder(s, f, steps)
    ensures SpreadsSound(s, After(s, f, steps))
    decreases |steps|
  {
    if steps == [] {
    } else {
      var step := steps[0];
      DatingKeepsAll(s, f, Stamp(f, step));
      StepKeepsSpreads(s, Dated(f, Stamp(f, step)), step.op);
      StepKeepsAll(s, f, step);
      RunKeepsSpreads(s, Next(s, f, step), steps[1..]);
    }
  }

  /** Spread of an exhausted borrower's attempts: the sum of all the waits between them. */
  lemma ExhaustionTakesItsTime(s: Settings, f: Fine, id: BorrowerId)
    requires ReachedInOrder(s, f) && id in f.w.borrowers && f.w.borrowers[id].status == BorrowerStatus.Exhausted
    ensures var b := f.w.borrowers[id];
            && b.attemptCount == s.maxAttempts && s.maxAttempts >= 1
            && b.lastAttemptAt.Some? && id in f.firstAttempt
            && b.lastAttemptAt.value - f.firstAttempt[id] >= s.backoffBase * (Pow2(s.maxAttempts - 1) - 1)
  {
    var f0, steps :| Fresh(s, f0) && Possible(s, f0, steps) && AllDatedInOrder(s, f0, steps)
                     && f == After(s, f0, steps);
    FreshIsSound(s, f0);
    RunKeepsAll(s, f0, steps);
    RunKeepsSpreads(s, f0, steps);
    assert BorrowerSound(s, f.w.borrowers[id]) && SpreadSound(s, f.firstAttempt, id, f.w.borrowers[id]);
    var p: int, base: int := Pow2(s.maxAttempts - 1), s.backoffBase;
    assert base * (p - 1) == base * p - base;
  }

  lemma AttemptsStayBelowLimit(s: Settings, f: Fine, id: BorrowerId)
    requires Reached(s, f) && id in f.w.borrowers
    ensures var b := f.w.borrowers[id];
            && b.attemptCount <= s.maxAttempts
            && (b.status == BorrowerStatus.Pending || b.status == BorrowerStatus.Reserved ==>
                  b.attemptCount < s.maxAttempts)
  {
    ReachedIsSound(s, f);
    assert BorrowerSound(s, f.w.borrowers[id]);
  }
}
