/** What each repository write does when its guard holds: one document replaced, the clock moved on. */
module Effects {
  import opened Basics
  import opened AgentMachine
  import opened CallMachine
  import opened Documents
  import opened Store

  predicate ClockOnly(w: World, w': World) {
    w' == w.(now := w'.now, delays := w'.delays) && w.now <= w'.now
  }

  /** `w'` is `w` with agent `id` replaced by `a`, at some later time. */
  predicate AgentSet(w: World, w': World, id: AgentId, a: Agent) {
    w' == w.(agents := w.agents[id := a], now := w'.now, delays := w'.delays) && w.now <= w'.now
  }

  predicate BorrowerSet(w: World, w': World, id: BorrowerId, b: Borrower) {
    w' == w.(borrowers := w.borrowers[id := b], now := w'.now, delays := w'.delays) && w.now <= w'.now
  }

  predicate CallSet(w: World, w': World, key: CallKey, c: Call) {
    w' == w.(calls := w.calls[key := c], now := w'.now, delays := w'.delays) && w.now <= w'.now
  }

  /** An agent let go of: in state `to`, holding no lease and no call. */
  predicate LetGo(a: Agent, was: Agent, to: AgentState) {
    a.state == to && a.lease.None? && a.currentCall.None? && a.campaign == was.campaign
  }

  predicate Freed(a: Agent, was: Agent) {
    LetGo(a, was, AgentState.Available)
  }

  lemma AgentSetTwice(w: World, w1: World, w2: World, id: AgentId, a1: Agent, a2: Agent)
    requires AgentSet(w, w1, id, a1) && AgentSet(w1, w2, id, a2)
    ensures AgentSet(w, w2, id, a2)
  {
  }

  lemma CallSetTwice(w: World, w1: World, w2: World, key: CallKey, c1: Call, c2: Call)
    requires CallSet(w, w1, key, c1) && CallSet(w1, w2, key, c2)
    ensures CallSet(w, w2, key, c2)
  {
  }

  lemma WonTransitionCall(w: World, key: CallKey, to: CallState)
    requires key in w.calls && !w.calls[key].terminal && w.calls[key].rank < Rank(to)
    ensures var (w', r) := TryTransitionCall(w, key, to);
            r.Some? && r == MoveCall(w.calls[key], to, w'.now) && CallSet(w, w', key, r.value)
  {
  }

  lemma WonReleaseAgent(w: World, id: AgentId, worker: WorkerId, to: AgentState, actor: Actor)
    requires id in w.agents && HeldBy(w.agents[id].lease, worker) && w.agents[id].state in AllowedSources(to, actor)
    ensures var (w', r) := TryReleaseAgent(w, id, worker, to, actor);
            r.Some? && r == ReleaseAgent(w.agents[id], worker, to, actor, w'.now) && AgentSet(w, w', id, r.value)
  {
  }

  lemma WonTransitionAgent(w: World, id: AgentId, to: AgentState, actor: Actor)
    requires id in w.agents && Authorised(w.agents[id].state, to, actor)
    ensures var a := w.agents[id];
            var (w', r) := TryTransitionAgent(w, id, a.state, to, actor, a.version);
            r.Moved? && Some(r.agent) == TransitionAgent(a, a.state, to, a.version, w'.now)
            && AgentSet(w, w', id, r.agent)
  {
  }

  lemma WonReleaseBorrower(s: Settings, w: World, id: BorrowerId, worker: WorkerId, outcome: ReleaseOutcome)
    requires id in w.borrowers && HeldBy(w.borrowers[id].lease, worker) && Releasable(w.borrowers[id].status)
    ensures var (w', r) := TryReleaseBorrower(s, w, id, worker, outcome);
            r.Some? && r == ReleaseBorrower(w.borrowers[id], worker, outcome, s.maxAttempts, s.backoffBase, w'.now)
            && BorrowerSet(w, w', id, r.value)
  {
  }

  /** Whatever becomes of it, letting an agent go touches nothing but that agent and the clock. */
  lemma ReleaseAgentFrame(w: World, id: AgentId, worker: WorkerId, to: AgentState, actor: Actor)
    ensures var w' := TryReleaseAgent(w, id, worker, to, actor).0;
            w' == w.(agents := w'.agents, now := w'.now, delays := w'.delays) && w.now <= w'.now
            && w'.agents.Keys == w.agents.Keys
  {
  }

  lemma TransitionAgentFrame(w: World, id: AgentId, from: AgentState, to: AgentState, actor: Actor, version: nat)
    ensures var w' := TryTransitionAgent(w, id, from, to, actor, version).0;
            w' == w.(agents := w'.agents, now := w'.now, delays := w'.delays) && w.now <= w'.now
            && w'.agents.Keys == w.agents.Keys
  {
    if Authorised(from, to, actor) {
      var t := Tick(w);
      var r := if id in t.agents then TransitionAgent(t.agents[id], from, to, version, t.now) else None;
      assert PutAgent(t, id, r) == TryTransitionAgent(w, id, from, to, actor, version).0;
    }
  }
}
