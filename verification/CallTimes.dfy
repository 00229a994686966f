/** The times on a call's record under every interleaving: which are there, and when each was written. */
module CallTimes {
  import opened Basics
  import opened AgentMachine
  import opened CallMachine
  import opened Documents
  import opened Store
  import opened Effects
  import opened Handlers
  import opened Interleavings
  import opened CallsInterleaved
  import opened InterleavingTheorems

  /** The state the call is in has its time on record, and no state it cannot have been in has one. */
  predicate TimesMatch(c: Call) {
    && (c.endedAt.Some? <==> IsTerminal(c.state))
    && (c.state == CallState.Initiated ==> c.initiatedAt.Some?) && (c.initiatedAt.Some? ==> Rank(c.state) >= 2)
    && (c.state == CallState.Ringing ==> c.ringingAt.Some?) && (c.ringingAt.Some? ==> Rank(c.state) >= 3)
    && (c.state == CallState.Answered ==> c.answeredAt.Some?) && (c.answeredAt.Some? ==> Rank(c.state) >= 4)
    && (c.state == CallState.Connected ==> c.connectedAt.Some?) && (c.connectedAt.Some? ==> Rank(c.state) >= 5)
  }

  /** `c'` is `c` moved at `now`: the new state's time is written, every other is kept. */
  predicate MovedAt(c: Call, c': Call, now: Time) {
    && Rank(c.state) < Rank(c'.state) && c'.updatedAt == now
    && c'.initiatedAt == (if c'.state == CallState.Initiated then Some(now) else c.initiatedAt)
    && c'.ringingAt == (if c'.state == CallState.Ringing then Some(now) else c.ringingAt)
    && c'.answeredAt == (if c'.state == CallState.Answered then Some(now) else c.answeredAt)
    && c'.connectedAt == (if c'.state == CallState.Connected then Some(now) else c.connectedAt)
    && c'.endedAt == (if IsTerminal(c'.state) then Some(now) else c.endedAt)
    && c'.createdAt == c.createdAt && c'.provider == c.provider && c'.worker == c.worker
    && c'.providerCallId == c.providerCallId
  }

  /** `c'` is `c`, or `c` with the provider's id written at `now`. */
  predicate KeptOrAttached(c: Call, c': Call, now: Time) {
    c' == c || (c.providerCallId.None? && c' == c.(providerCallId := c'.providerCallId, updatedAt := now))
  }

  /** A call just inserted: queued, with its time of creation and no other. */
  predicate CreatedNow(c: Call, now: Time) {
    && c.state == CallState.Queued && !c.terminal && c.createdAt == now && c.updatedAt == now
    && c.providerCallId.None? && c.initiatedAt.None? && c.ringingAt.None? && c.answeredAt.None? && c.connectedAt.None?
    && c.endedAt.None?
  }

  lemma TransitionOnCall(w: World, key: CallKey, to: CallState, k: CallKey)
    requires k in w.calls && CallConsistent(w.calls[k]) && w.delays == []
    ensures var w' := TryTransitionCall(w, key, to).0;
            k in w'.calls && (w'.calls[k] == w.calls[k] || MovedAt(w.calls[k], w'.calls[k], w.now))
  {
  }

  lemma OpOnCall(s: Settings, f: Fine, op: Op, k: CallKey)
    requires k in f.w.calls && CallConsistent(f.w.calls[k]) && f.w.delays == []
    ensures var w' := Take(s, f, op).w;
            && k in w'.calls
            && (KeptOrAttached(f.w.calls[k], w'.calls[k], f.w.now) || MovedAt(f.w.calls[k], w'.calls[k], f.w.now))
  {
    match op
    case Promote(key, to) => TransitionOnCall(f.w, key, to, k);
    case EndCall(key, to) => TransitionOnCall(f.w, key, to, k);
    case CompleteStale(key, _) => TransitionOnCall(f.w, key, CallState.Completed, k);
    case MoveByEvent(key, _, target) => TransitionOnCall(f.w, key, target, k);
    case Create(_, _, _, _) =>
    case AttachId(_, _) =>
    case Originate(_) =>
    case ReadCall(_) =>
    case _ => if WritesAgents(op) { AgentStepsKeepCalls(s, f, op); } else { OtherStepsKeepCalls(s, f, op); }
  }

  lemma OpOnNewCall(s: Settings, f: Fine, op: Op, k: CallKey)
    requires k !in f.w.calls && k in Take(s, f, op).w.calls && f.w.delays == []
    ensures CreatedNow(Take(s, f, op).w.calls[k], f.w.now)
  {
    if WritesAgents(op) {
      AgentStepsKeepCalls(s, f, op);
    } else if !WritesCalls(op) {
      OtherStepsKeepCalls(s, f, op);
    }
  }

  /**
   * Whatever the step, a call keeps its times or moves up in rank, and then exactly the time of the state it
   * moves to is written, with the date of the step.
   */
  lemma TimesMoveWithTheState(s: Settings, f: Fine, step: Step, k: CallKey)
    requires Reached(s, f) && CanTake(s, f, step)
    ensures var w', at := Next(s, f, step).w, Stamp(f, step);
            && (k in f.w.calls ==>
                  k in w'.calls
                  && (KeptOrAttached(f.w.calls[k], w'.calls[k], at) || MovedAt(f.w.calls[k], w'.calls[k], at)))
            && (k !in f.w.calls && k in w'.calls ==> CreatedNow(w'.calls[k], at))
  {
    ReachedIsSound(s, f);
    var g := Dated(f, Stamp(f, step));
    if k in f.w.calls {
      assert CallSound(s, f.w, k);
      OpOnCall(s, g, step.op, k);
    } else if k in Next(s, f, step).w.calls {
      OpOnNewCall(s, g, step.op, k);
    }
  }

  ghost predicate AllTimesMatch(w: World) {
    forall k :: k in w.calls ==> TimesMatch(w.calls[k])
  }

  lemma StepKeepsTimes(s: Settings, f: Fine, step: Step)
    requires AllSound(s, f) && AllTimesMatch(f.w)
    ensures AllTimesMatch(Next(s, f, step).w)
  {
    var g, w' := Dated(f, Stamp(f, step)), Next(s, f, step).w;
    forall k | k in w'.calls ensures TimesMatch(w'.calls[k]) {
      if k in f.w.calls {
        assert CallSound(s, f.w, k);
        OpOnCall(s, g, step.op, k);
      } else {
        OpOnNewCall(s, g, step.op, k);
      }
    }
  }

  lemma {:induction false} RunKeepsTimes(s: Settings, f: Fine, steps: seq<Step>)
    requires AllSound(s, f) && AllTimesMatch(f.w) && Possible(s, f, steps)
    ensures AllTimesMatch(After(s, f, steps).w)
    decreases |steps|
  {
    if steps == [] {
    } else {
      StepKeepsTimes(s, f, steps[0]);
      StepKeepsAll(s, f, steps[0]);
      RunKeepsTimes(s, Next(s, f, steps[0]), steps[1..]);
    }
  }

  /** In every state that any interleaving reaches, the times on a call's record match its state. */
  lemma TimesAlwaysMatch(s: Settings, f: Fine, k: CallKey)
    requires Reached(s, f) && k in f.w.calls
    ensures TimesMatch(f.w.calls[k])
  {
    var f0, steps :| Fresh(s, f0) && Possible(s, f0, steps) && f == After(s, f0, steps);
    FreshIsSound(s, f0);
    RunKeepsTimes(s, f0, steps);
  }
}
