/** What a provider event, an agent's own action and the wrap-up timer make of the documents, kind by kind. */
module EventOutcomes {
  import opened Basics
  import opened AgentMachine
  import opened CallMachine
  import opened Documents
  import opened Store
  import opened Effects
  import opened Handlers
  import opened Linking
  import opened EventsKeepLinks
  import opened SweepsKeepLinks
  import opened SweepOutcomes
  import opened DialOutcomes

  // ---------- events ----------

  /** The event is new and the provider's id it carries is that of call `k`. */
  predicate NewsOf(w: World, e: Event, k: CallKey) {
    var ref := ProviderRef(e.id.provider, e.call);
    e.id !in w.events && ref in w.index && w.index[ref] == k
  }

  predicate RingsFirst(c: Call) {
    c.state == CallState.Initiated
  }

  predicate NotYetAnswered(c: Call) {
    c.state == CallState.Initiated || c.state == CallState.Ringing
  }

  predicate NotYetConnected(c: Call) {
    NotYetAnswered(c) || c.state == CallState.Answered
  }

  /** The call in this state, its agent in that one and still on it, the borrower as it was. */
  predicate GoesOn(w: World, w': World, k: CallKey, to: CallState, at: AgentState)
    requires k in w.calls && k.agent in w.agents && k.borrower in w.borrowers
  {
    && k in w'.calls && k.agent in w'.agents
    && w'.calls == w.calls[k := w'.calls[k]] && w'.calls[k].state == to && !w'.calls[k].terminal
    && w'.agents == w.agents[k.agent := w'.agents[k.agent]]
    && w'.agents[k.agent].state == at && w'.agents[k.agent].currentCall == Some(k)
    && w'.agents[k.agent].lease == w.agents[k.agent].lease && w'.borrowers == w.borrowers
  }

  /** The call over in this state; the borrower reached, or due for a retry. */
  ghost predicate EndsAs(s: Settings, w: World, w': World, k: CallKey, to: CallState, reached: bool)
    requires k in w.calls && k.agent in w.agents && k.borrower in w.borrowers
  {
    && k in w'.calls && k.agent in w'.agents
    && w'.calls == w.calls[k := w'.calls[k]] && w'.calls[k].state == to && w'.calls[k].terminal
    && w'.agents == w.agents[k.agent := w'.agents[k.agent]]
    && k.borrower in w'.borrowers && w'.borrowers == w.borrowers[k.borrower := w'.borrowers[k.borrower]]
    && var b, b' := w.borrowers[k.borrower], w'.borrowers[k.borrower];
       if reached then
         b'.status == BorrowerStatus.Contacted && b'.attemptCount == b.attemptCount + 1 && b'.lease.None?
         && b'.campaign == b.campaign && b'.lastAttemptAt == Some(w'.now) && b'.version == b.version + 1
       else Retried(s, b, b')
  }

  /** What an event makes of the open call it is news of. */
  ghost predicate EventMakes(s: Settings, w: World, w': World, k: CallKey, kind: EventType)
    requires k in w.calls && k.agent in w.agents && k.borrower in w.borrowers
  {
    var c, a := w.calls[k], w.agents[k.agent];
    match kind
    case RingingEvent =>
      if RingsFirst(c) then GoesOn(w, w', k, CallState.Ringing, AgentState.Dialing) else Unmoved(w, w')
    case AnsweredEvent =>
      if NotYetAnswered(c) then GoesOn(w, w', k, CallState.Answered, AgentState.Connected) else Unmoved(w, w')
    case ConnectedEvent =>
      if NotYetConnected(c) then GoesOn(w, w', k, CallState.Connected, AgentState.Connected) else Unmoved(w, w')
    case CompletedEvent =>
      EndsAs(s, w, w', k, CallState.Completed, c.answeredAt.Some?)
      && var a' := w'.agents[k.agent];
         if a.state == AgentState.Connected then
           a'.state == AgentState.WrapUp && a'.lease.None? && a'.currentCall.None?
         else a' == a
    case FailedEvent => EndsAs(s, w, w', k, CallState.Failed, false) && AtRest(w'.agents[k.agent])
    case CancelledEvent => EndsAs(s, w, w', k, CallState.Cancelled, false) && AtRest(w'.agents[k.agent])
    case OtherEvent => Unmoved(w, w')
  }

  predicate Unmoved(w: World, w': World) {
    w'.calls == w.calls && w'.agents == w.agents && w'.borrowers == w.borrowers
  }

  lemma AppliedMakes(s: Settings, w: World, w': World, k: CallKey, kind: EventType, a: Agent, b: Borrower, c: Call)
    requires Active(w, k) && Linked(w, k) && CallConsistent(w.calls[k])
    requires EventTarget(kind).Some? && Rank(w.calls[k].state) < Rank(EventTarget(kind).value)
    requires EventApplied(s, w, w', k, EventTarget(kind).value, a, b, c)
    ensures EventMakes(s, w, w', k, kind)
  {
    RetryIsExact(s, w.borrowers[k.borrower], w'.now);
  }

  /**
   * What becomes of an event that is news of an open call, by its kind and the call's state: the call goes on with
   * its agent, or ends with its borrower reached exactly when it completes with an answer on record, or nothing moves.
   */
  lemma EventByKind(s: Settings, w: World, e: Event, k: CallKey)
    requires Inv(s, w) && NewsOf(w, e, k) && k in w.calls && !w.calls[k].terminal
    ensures k.agent in w.agents && k.borrower in w.borrowers
    ensures EventMakes(s, w, ProcessEvent(s, w, e).0, k, e.kind)
    ensures ProcessEvent(s, w, e).0.events == w.events + {e.id}
  {
    assert Active(w, k);
    ActiveIsAlone(s, w, k);
    var a, b, c := EventOutcome(s, w, e);
    if Moves(w, e) {
      assert Linked(Noted(w, e), k);
      AppliedMakes(s, Noted(w, e), ProcessEvent(s, w, e).0, k, e.kind, a, b, c);
    } else {
      NotHigher(s, w, e, k);
    }
  }

  lemma NotHigher(s: Settings, w: World, e: Event, k: CallKey)
    requires NewsOf(w, e, k) && Active(w, k) && Linked(w, k) && CallConsistent(w.calls[k])
    requires !Moves(w, e) && w.calls[k].rank >= 2
    ensures EventMakes(s, w, Noted(w, e), k, e.kind)
  {
  }

  /** What the processor reports: one of four, by whether the event is new, whose it is, and what it asks for. */
  lemma EventStatusIs(s: Settings, w: World, e: Event)
    requires Inv(s, w)
    ensures var status, ref := ProcessEvent(s, w, e).1, ProviderRef(e.id.provider, e.call);
            && (status == DuplicateIgnored <==> e.id in w.events)
            && (status == InvalidIgnored <==> e.id !in w.events && (ref !in w.index || e.kind == OtherEvent))
            && (status == Processed <==>
                  e.id !in w.events && ref in w.index && w.index[ref] in w.calls && !w.calls[w.index[ref]].terminal
                  && AsksForMore(w.calls[w.index[ref]], e.kind))
  {
    var ref := ProviderRef(e.id.provider, e.call);
    if ref in w.index { assert CallOk(w, w.index[ref]); }
    StatusOf(s, w, e);
  }

  /** Kinds that ask for a state above the call's. */
  predicate AsksForMore(c: Call, kind: EventType) {
    match kind
    case RingingEvent => RingsFirst(c)
    case AnsweredEvent => NotYetAnswered(c)
    case ConnectedEvent => NotYetConnected(c)
    case OtherEvent => false
    case _ => true
  }

  lemma StatusOf(s: Settings, w: World, e: Event)
    requires e.Ref() in w.index ==>
               var k := w.index[e.Ref()];
               k in w.calls && CallConsistent(w.calls[k]) && w.calls[k].rank >= 2
    ensures var status := ProcessEvent(s, w, e).1;
            if e.id in w.events then status == DuplicateIgnored
            else if e.Ref() !in w.index || e.kind == OtherEvent then status == InvalidIgnored
            else if !w.calls[w.index[e.Ref()]].terminal && AsksForMore(w.calls[w.index[e.Ref()]], e.kind) then
              status == Processed
            else status == StaleIgnored
  {
    if e.id !in w.events && e.Ref() in w.index && EventTarget(e.kind).Some? {
      RankGuardSuffices(w.calls[w.index[e.Ref()]].state, EventTarget(e.kind).value);
    }
  }

  // ---------- agents' own actions ----------

  /** Agents log in from offline, resume from a pause by either action, pause when free or in wrap-up, and log out. */
  predicate MayAct(from: AgentState, action: AgentAction) {
    match action
    case Login => from == AgentState.Offline || from == AgentState.Paused
    case Resume => from == AgentState.Offline || from == AgentState.Paused
    case Pause => from == AgentState.Available || from == AgentState.WrapUp
    case Logout => from != AgentState.Offline
  }

  function Becomes(action: AgentAction): AgentState {
    if action == Logout then AgentState.Offline else if action == Pause then AgentState.Paused else AgentState.Available
  }

  /** An action the agent may take moves it, dated by the clock, and a login is a heartbeat; others do nothing. */
  lemma ActsExactly(w: World, id: AgentId, action: AgentAction)
    requires id in w.agents
    ensures var (w', r) := Act(w, id, action);
            var a := w.agents[id];
            && id in w'.agents && (r.Moved? <==> MayAct(a.state, action))
            && var a' := w'.agents[id];
               if MayAct(a.state, action) then
                 && a'.state == Becomes(action) && a'.stateChangedAt == ClockAt(w.now, w.delays, 1)
                 && a'.version == a.version + 1 && a'.lease == a.lease && a'.currentCall == a.currentCall
                 && a'.campaign == a.campaign
                 && a'.lastHeartbeat == (if action == Login then Some(ClockAt(w.now, w.delays, 2)) else a.lastHeartbeat)
               else a' == a && w' == w
  {
    MayActIs(w.agents[id].state, action);
    if MayAct(w.agents[id].state, action) { ActMoves(w, id, action); }
  }

  lemma MayActIs(from: AgentState, action: AgentAction)
    ensures Authorised(from, ActionTarget(action), Self) <==> MayAct(from, action)
    ensures ActionTarget(action) == Becomes(action)
  {
  }

  lemma ActMoves(w: World, id: AgentId, action: AgentAction)
    requires id in w.agents && Authorised(w.agents[id].state, ActionTarget(action), Self)
    ensures var (w', r) := Act(w, id, action);
            && id in w'.agents && r.Moved?
            && w'.agents[id].(lastHeartbeat := None)
               == MoveAgent(CloseInterval(w.agents[id], ClockAt(w.now, w.delays, 1)), ActionTarget(action),
                            ClockAt(w.now, w.delays, 1)).(lastHeartbeat := None)
            && w'.agents[id].lastHeartbeat
               == (if action.Login? then Some(ClockAt(w.now, w.delays, 2)) else w.agents[id].lastHeartbeat)
  {
    WonTransitionAgent(w, id, ActionTarget(action), Self);
  }

  lemma ActsOnOne(w: World, id: AgentId, action: AgentAction)
    requires id in w.agents
    ensures var w' := Act(w, id, action).0;
            id in w'.agents && w' == w.(agents := w.agents[id := w'.agents[id]], now := w'.now, delays := w'.delays)
  {
    var a, to := w.agents[id], ActionTarget(action);
    if Authorised(a.state, to, Self) {
      WonTransitionAgent(w, id, to, Self);
    } else {
      assert w.agents == w.agents[id := a];
    }
  }

  // ---------- the wrap-up timer ----------

  function OverdueIn(s: Settings, w: World, campaign: CampaignId, at: Time): set<AgentId> {
    set id | id in w.agents && w.agents[id].campaign == campaign && w.agents[id].state == AgentState.WrapUp
             && w.agents[id].stateChangedAt <= at - s.wrapUp
  }

  /** The timer frees exactly the first 500 listed of the campaign's agents whose wrap-up has lasted its length. */
  lemma TimerEndsWrapUps(s: Settings, w: World, campaign: CampaignId, order: seq<AgentId>, id: AgentId)
    requires Distinct(order) && id in w.agents
    ensures var w' := ReleaseFinishedWrapUps(s, w, campaign, order);
            var a, overdue := w.agents[id], OverdueIn(s, w, campaign, ClockAt(w.now, w.delays, 1));
            && id in w'.agents && w'.calls == w.calls && w'.borrowers == w.borrowers
            && if AmongFirst(500, id, order, overdue) then WrapUpDone(a, w'.agents[id]) else w'.agents[id] == a
  {
    TimerOnAll(s, w, campaign, order);
    PickIsTheFirstFew(OverdueIn(s, w, campaign, ClockAt(w.now, w.delays, 1)), order, WRAP_UP_SWEEP_LIMIT, id);
  }

  lemma TimerOnAll(s: Settings, w: World, campaign: CampaignId, order: seq<AgentId>)
    requires Distinct(order)
    ensures var overdue := OverdueIn(s, w, campaign, ClockAt(w.now, w.delays, 1));
            WrapUpsEnded(w, ReleaseFinishedWrapUps(s, w, campaign, order),
                         Those(Pick(overdue, order, WRAP_UP_SWEEP_LIMIT)))
  {
    var t, overdue := Tick(w), OverdueIn(s, w, campaign, ClockAt(w.now, w.delays, 1));
    ReadOnce(w);
    var finished := set x | x in FinishedWrapUps(t, t.now - s.wrapUp) && t.agents[x].campaign == campaign;
    assert finished == overdue;
    PickIsDistinct(finished, order, WRAP_UP_SWEEP_LIMIT);
    WrapUpSweepEnds(t, Pick(finished, order, WRAP_UP_SWEEP_LIMIT), t.agents, WorkerTimer, 0);
  }
}
