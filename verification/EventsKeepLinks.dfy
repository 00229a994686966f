/** A provider event, applied to the call, its agent and its borrower, is one unit of work. */
module EventsKeepLinks {
  import opened Basics
  import opened AgentMachine
  import opened CallMachine
  import opened Documents
  import opened Store
  import opened Effects
  import opened Handlers
  import opened Linking

  /** What an applied event does to the agent on the call. */
  predicate AgentFollows(a: Agent, was: Agent, target: CallState)
    requires Rank(target) >= 2
  {
    if !IsTerminal(target) then
      a.state == AgentStateFor(target) && a.lease == was.lease && a.currentCall == was.currentCall
      && a.campaign == was.campaign
    else if target == CallState.Completed && was.state == AgentState.Dialing then a == was
    else LetGo(a, was, AgentStateFor(target))
  }

  lemma AgentFollowsCall(w: World, key: CallKey, call: Call, target: CallState) returns (a: Agent)
    requires Rank(target) >= 3
    requires key.agent in w.agents && HeldBy(w.agents[key.agent].lease, call.worker)
    requires w.agents[key.agent].state == AgentState.Dialing
          || (w.agents[key.agent].state == AgentState.Connected && Rank(target) >= 5)
    ensures AgentFollows(a, w.agents[key.agent], target)
    ensures AgentSet(w, ApplyAgentTransition(w, key, call, target), key.agent, a)
  {
    ReleaseSources();
    var was := w.agents[key.agent];
    var to := AgentStateFor(target);
    a := was;
    if was.state == to {
    } else if IsTerminal(target) {
      var (w1, r) := TryReleaseAgent(w, key.agent, call.worker, to, EventProcessor);
      if r.Some? {
        WonReleaseAgent(w, key.agent, call.worker, to, EventProcessor);
        a := r.value;
      }
    } else {
      WonTransitionAgent(w, key.agent, to, EventProcessor);
      a := TryTransitionAgent(w, key.agent, was.state, to, EventProcessor, was.version).1.agent;
    }
  }

  /** The store after an applied event: call moved, agent following, borrower released if the call is over. */
  ghost predicate EventApplied(
    s: Settings, w: World, w': World, key: CallKey, target: CallState, a: Agent, b: Borrower, c: Call
  )
    requires Rank(target) >= 2
  {
    && key in w.calls && key.agent in w.agents && key.borrower in w.borrowers
    && w' == w.(agents := w.agents[key.agent := a], borrowers := w.borrowers[key.borrower := b],
                calls := w.calls[key := c], now := w'.now, delays := w'.delays)
    && AgentFollows(a, w.agents[key.agent], target)
    && (exists t :: MoveCall(w.calls[key], target, t) == Some(c))
    && if !IsTerminal(target) then b == w.borrowers[key.borrower]
       else ReleaseBorrower(w.borrowers[key.borrower], c.worker,
                            OutcomeForTerminalCall(target == CallState.Completed && c.answeredAt.Some?),
                            s.maxAttempts, s.backoffBase, w'.now) == Some(b)
  }

  lemma ApplyEventEffect(s: Settings, w: World, e: Event) returns (a: Agent, b: Borrower, c: Call)
    requires e.Ref() in w.index && w.index[e.Ref()] in w.calls
    requires var key := w.index[e.Ref()];
             EventTarget(e.kind).Some? && CallConsistent(w.calls[key])
             && ShouldApplyEvent(w.calls[key].state, EventTarget(e.kind).value) == Apply
             && Linked(w, key)
    ensures ApplyEvent(s, w, e).1 == Processed
    ensures EventApplied(s, w, ApplyEvent(s, w, e).0, w.index[e.Ref()], EventTarget(e.kind).value, a, b, c)
  {
    var key := w.index[e.Ref()];
    var target := EventTarget(e.kind).value;
    WonTransitionCall(w, key, target);
    var (w1, moved) := TryTransitionCall(w, key, target);
    c := moved.value;
    a := AgentFollowsCall(w1, key, c, target);
    var w2 := ApplyAgentTransition(w1, key, c, target);
    b := w.borrowers[key.borrower];
    if IsTerminal(target) {
      var outcome := OutcomeForTerminalCall(target == CallState.Completed && c.answeredAt.Some?);
      WonReleaseBorrower(s, w2, key.borrower, c.worker, outcome);
      b := TryReleaseBorrower(s, w2, key.borrower, c.worker, outcome).1.value;
    }
  }

  lemma EventIsUnit(s: Settings, w: World, w': World, key: CallKey, target: CallState, a: Agent, b: Borrower, c: Call)
    requires Rank(target) >= 3 && Active(w, key) && Linked(w, key) && CallOk(w, key) && IndexOk(w)
    requires key.attempt == w.borrowers[key.borrower].attemptCount + 1
    requires Alone(w, key.agent, key.borrower, key)
    requires AgentOk(w, key.agent) && BorrowerOk(s, w.borrowers[key.borrower])
    requires EventApplied(s, w, w', key, target, a, b, c)
    ensures Unit(s, w, w', key)
  {
    ReplacementIsUnit(s, w, w', key.agent, key.borrower, key);
  }

  lemma EventKeepsInv(s: Settings, w: World, e: Event)
    requires Inv(s, w)
    ensures Inv(s, ProcessEvent(s, w, e).0)
  {
    var (w1, recorded) := RecordEvent(w, e.id);
    ClockKeepsInv(s, w, w1);
    if recorded && e.Ref() in w1.index && EventTarget(e.kind).Some? {
      var key := w1.index[e.Ref()];
      var target := EventTarget(e.kind).value;
      assert CallOk(w1, key);
      RankGuardSuffices(w1.calls[key].state, target);
      if ShouldApplyEvent(w1.calls[key].state, target) == Apply {
        ActiveIsAlone(s, w1, key);
        var a, b, c := ApplyEventEffect(s, w1, e);
        EventIsUnit(s, w1, ApplyEvent(s, w1, e).0, key, target, a, b, c);
        UnitKeepsInv(s, w1, ApplyEvent(s, w1, e).0, key);
      }
    }
  }

  // ---------- what an event can do, in one place ----------

  /** The event is new, names a call under way, and asks for a state of higher rank. */
  predicate Moves(w: World, e: Event) {
    && e.id !in w.events && e.Ref() in w.index && EventTarget(e.kind).Some?
    && Active(w, w.index[e.Ref()])
    && Rank(w.calls[w.index[e.Ref()]].state) < Rank(EventTarget(e.kind).value)
  }

  function Noted(w: World, e: Event): World {
    w.(events := w.events + {e.id})
  }

  /** A linked store either only notes the event, or moves call, agent and borrower together. */
  lemma EventOutcome(s: Settings, w: World, e: Event) returns (a: Agent, b: Borrower, c: Call)
    requires Inv(s, w)
    ensures Moves(w, e) ==>
              EventApplied(s, Noted(w, e), ProcessEvent(s, w, e).0, w.index[e.Ref()], EventTarget(e.kind).value, a, b,
                           c)
    ensures !Moves(w, e) ==> ProcessEvent(s, w, e).0 == Noted(w, e)
  {
    if Moves(w, e) {
      var key := w.index[e.Ref()];
      ActiveIsAlone(s, w, key);
      RankGuardSuffices(w.calls[key].state, EventTarget(e.kind).value);
      a, b, c := ApplyEventEffect(s, Noted(w, e), e);
    } else {
      IgnoredEvent(s, w, e);
      a :| true;
      b :| true;
      c :| true;
    }
  }

  lemma IgnoredEvent(s: Settings, w: World, e: Event)
    requires IndexOk(w) && !Moves(w, e)
    requires forall k :: k in w.calls ==> CallOk(w, k)
    ensures ProcessEvent(s, w, e).0 == Noted(w, e)
  {
  }
}
