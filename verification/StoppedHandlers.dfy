/**
 * A worker that stops for good while it claims an agent, handles an event or ends a call in recovery, and
 * what one run of the sweeps, late enough and with room, makes of it.
 */
module StoppedHandlers {
  import opened Basics
  import opened AgentMachine
  import opened CallMachine
  import opened Documents
  import opened Store
  import opened Effects
  import opened Handlers
  import opened Linking
  import opened DialKeepsLinks
  import opened EventsKeepLinks
  import opened RecoveryKeepsLinks
  import opened SweepsKeepLinks
  import opened RecoveryFixpoint
  import opened CrashedDials
  import opened HalfEndings
  import opened OutOfStep

  // ---------- between the agent and the borrower of a reservation ----------

  lemma ClaimedIsAhead(
    s: Settings, w: World, stop: World, campaign: CampaignId, worker: WorkerId, id: AgentId, a: Agent
  )
    requires Inv(s, w) && AgentClaimed(s, w, stop, campaign, worker, id, a)
    ensures Ahead(s, stop, w, UnusedKey(id))
  {
    assert UnusedKey(id) in w.calls ==> CallOk(w, UnusedKey(id));
    IdleHasNoCall(s, w, id);
  }

  /** A worker that stops with an agent claimed and no borrower: one run gives the agent back. */
  lemma OneRunAfterAClaim(
    s: Settings, w: World, campaign: CampaignId, worker: WorkerId, candidates: seq<AgentId>, x: World,
    input: SweepInput
  )
    requires Inv(s, w)
    requires var (stop, claim) := ClaimAgent(s, w, campaign, worker, candidates);
             claim.Some? && Later(stop, x) && Expired(claim.value.1.lease, x.now)
    requires OrdersOk(x, input) && |ExpiredAgents(x, x.now)| <= s.sweepLimit
    ensures Inv(s, SweepsAt(s, x, x.now, input).0)
  {
    var (stop, claim) := ClaimAgent(s, w, campaign, worker, candidates);
    var (id, a) := claim.value;
    ClaimAgentEffect(s, w, campaign, worker, candidates);
    ClaimedIsAhead(s, w, stop, campaign, worker, id, a);
    assert Ahead(s, x, w, UnusedKey(id));
    ReleaseSources();
    OneRunLinksTheAgent(s, x, UnusedKey(id), x.now, input);
  }

  // ---------- inside a provider event ----------

  /** The last write an event has made when its worker stops. */
  datatype EventCut = EventNoted | CallMoved | AgentFollowed

  function KeyOf(w: World, e: Event): CallKey
    requires Moves(w, e)
  {
    w.index[e.Ref()]
  }

  function TargetOf(w: World, e: Event): (to: CallState)
    requires Moves(w, e)
    ensures Rank(to) >= 3
  {
    EventTarget(e.kind).value
  }

  function MovedOn(w: World, e: Event): World
    requires Moves(w, e)
  {
    TryTransitionCall(Noted(w, e), KeyOf(w, e), TargetOf(w, e)).0
  }

  function EventStore(w: World, e: Event, cut: EventCut): World
    requires Moves(w, e)
  {
    match cut
    case EventNoted => Noted(w, e)
    case CallMoved => MovedOn(w, e)
    case AgentFollowed => ApplyAgentTransition(MovedOn(w, e), KeyOf(w, e), w.calls[KeyOf(w, e)], TargetOf(w, e))
  }

  lemma MovedCall(s: Settings, w: World, e: Event)
    requires Inv(s, w) && Moves(w, e)
    ensures var (x, c) := TryTransitionCall(Noted(w, e), KeyOf(w, e), TargetOf(w, e));
            && c.Some? && CallSet(Noted(w, e), x, KeyOf(w, e), c.value)
            && exists t :: MoveCall(w.calls[KeyOf(w, e)], TargetOf(w, e), t) == c
  {
    assert CallOk(w, KeyOf(w, e));
    WonTransitionCall(Noted(w, e), KeyOf(w, e), TargetOf(w, e));
  }

  /** An event that moves its call ends with its agent having followed, or with its borrower let go of. */
  lemma EventPassesItsCuts(s: Settings, w: World, e: Event)
    requires Inv(s, w) && Moves(w, e)
    ensures var (key, to) := (KeyOf(w, e), TargetOf(w, e));
            var call := TryTransitionCall(Noted(w, e), key, to).1;
            call.Some? && ProcessEvent(s, w, e).0
            == if IsTerminal(to) then ReleaseBorrowerAfterEvent(s, EventStore(w, e, AgentFollowed), key, call.value, to)
               else EventStore(w, e, AgentFollowed)
  {
    MovedCall(s, w, e);
    RankGuardSuffices(w.calls[KeyOf(w, e)].state, TargetOf(w, e));
    assert CallOk(w, KeyOf(w, e));
  }

  lemma EventHalfEnds(s: Settings, w: World, e: Event, cut: EventCut)
    requires Inv(s, w) && Moves(w, e) && IsTerminal(TargetOf(w, e)) && !cut.EventNoted?
    ensures HalfEnded(Noted(w, e), EventStore(w, e, cut), KeyOf(w, e))
  {
    MovedCall(s, w, e);
    ActiveIsAlone(s, w, KeyOf(w, e));
    var w0 := MovedOn(w, e);
    var key := KeyOf(w, e);
    assert w.agents == w.agents[key.agent := w.agents[key.agent]];
    var a := AgentFollowsCall(w0, key, w.calls[key], TargetOf(w, e));
  }

  lemma EventRunsAhead(s: Settings, w: World, e: Event)
    requires Inv(s, w) && Moves(w, e) && !IsTerminal(TargetOf(w, e))
    ensures Ahead(s, MovedOn(w, e), Noted(w, e), KeyOf(w, e))
  {
    MovedCall(s, w, e);
    ClockKeepsInv(s, w, Noted(w, e));
    ActiveIsAlone(s, w, KeyOf(w, e));
    var key := KeyOf(w, e);
    assert w.agents == w.agents[key.agent := w.agents[key.agent]];
  }

  /**
   * A worker that stops inside an event, after noting it, moving the call or making the agent follow: one
   * run of the sweeps after the agent's lease has run out leaves every open call with an agent and a
   * borrower of its own. The attempts are all counted exactly when the event was only noted, or was not
   * going to end the call.
   */
  lemma OneRunAfterAnEvent(s: Settings, w: World, e: Event, cut: EventCut, x: World, input: SweepInput)
    requires Inv(s, w) && Moves(w, e) && Later(EventStore(w, e, cut), x)
    requires var id := KeyOf(w, e).agent; id in w.agents && Expired(w.agents[id].lease, x.now)
    requires OrdersOk(x, input) && BacklogOf(s, x, x.now).Fits(s.sweepLimit)
    ensures var x' := SweepsAt(s, x, x.now, input).0;
            Exclusive(s, x') && (Inv(s, x') <==> cut.EventNoted? || !IsTerminal(TargetOf(w, e)))
  {
    ClockKeepsInv(s, w, Noted(w, e));
    var stop := EventStore(w, e, cut);
    if !cut.EventNoted? && IsTerminal(TargetOf(w, e)) {
      EventHalfEnds(s, w, e, cut);
      OneRunAfterAHalfEnding(s, Noted(w, e), x, KeyOf(w, e), x.now, input);
    } else {
      if cut.CallMoved? {
        EventRunsAhead(s, w, e);
        AheadIsSwept(s, stop, Noted(w, e), KeyOf(w, e), x, input);
      } else {
        EventEndsLinked(s, w, e, cut);
        ClockKeepsInv(s, stop, x);
        LinkedStoreSwept(s, x, x.now, input);
      }
      LinkedIsExclusive(s, SweepsAt(s, x, x.now, input).0);
    }
  }

  lemma EventEndsLinked(s: Settings, w: World, e: Event, cut: EventCut)
    requires Inv(s, w) && Moves(w, e) && !cut.CallMoved? && (cut.EventNoted? || !IsTerminal(TargetOf(w, e)))
    ensures Inv(s, EventStore(w, e, cut))
  {
    ClockKeepsInv(s, w, Noted(w, e));
    EventPassesItsCuts(s, w, e);
    EventKeepsInv(s, w, e);
  }

  lemma AheadIsSwept(s: Settings, stop: World, y: World, k: CallKey, x: World, input: SweepInput)
    requires Ahead(s, stop, y, k) && Active(y, k) && Later(stop, x) && Expired(y.agents[k.agent].lease, x.now)
    requires OrdersOk(x, input) && |ExpiredAgents(x, x.now)| <= s.sweepLimit
    ensures Inv(s, SweepsAt(s, x, x.now, input).0)
  {
    assert Ahead(s, x, y, k);
    ActiveIsAlone(s, y, k);
    ReleaseSources();
    OneRunLinksTheAgent(s, x, k, x.now, input);
  }

  // ---------- inside a recovery that ends a call ----------

  /** The last write a recovery has made when its worker stops. */
  datatype EndingCut = CallEnded | AgentLetGo | BorrowerLetGo

  /** The call `k` of `w` is being ended as `to`. */
  function EndingStore(s: Settings, w: World, k: CallKey, to: CallState, cut: EndingCut): World
    requires k in w.calls
  {
    match cut
    case CallEnded => EndedStore(w, k, to)
    case AgentLetGo =>
      TryReleaseAgent(EndedStore(w, k, to), k.agent, w.calls[k].worker, AgentState.Available, Recovery).0
    case BorrowerLetGo => TryReleaseBorrower(s, EndedStore(w, k, to), k.borrower, w.calls[k].worker, Retry).0
  }

  /** A silent agent's recovery ends its call, lets go of the borrower and then of the agent; so does a reclaim. */
  lemma LogOutPassesTheCuts(s: Settings, w: World, k: CallKey, now: Time)
    requires Active(w, k) && CallConsistent(w.calls[k]) && k.agent in w.agents
    requires w.agents[k.agent].currentCall == Some(k)
    ensures var read := w.agents[k.agent];
            var freed := EndingStore(s, w, k, CallState.Cancelled, BorrowerLetGo);
            && RecoverAgent(s, w, k.agent, read, now).0 == TryReclaimAgent(freed, k.agent, read, now).0
            && LogOutSilent(s, w, k.agent, read).0
               == TryTransitionAgent(freed, k.agent, read.state, AgentState.Offline, Recovery, read.version).0
  {
    ReclaimInParts(s, w, k, now);
    WonTransitionCall(w, k, CallState.Cancelled);
  }

  /** A stale call's recovery ends it, lets go of the agent and then of the borrower. */
  lemma CallRecoveryPassesTheCuts(s: Settings, w: World, k: CallKey, reports: map<CallKey, ProviderStatus>)
    requires Active(w, k) && CallConsistent(w.calls[k])
    ensures RecoverCall(s, w, k, w.calls[k], reports).0
            == TryReleaseBorrower(s, EndingStore(s, w, k, Reconcile(w.calls[k], k, reports), AgentLetGo), k.borrower,
                                  w.calls[k].worker, Retry).0
  {
    WonTransitionCall(w, k, Reconcile(w.calls[k], k, reports));
  }

  lemma LettingGoHalfEnds(s: Settings, w: World, k: CallKey, to: CallState)
    requires Active(w, k) && Linked(w, k) && CallConsistent(w.calls[k]) && IsTerminal(to)
    ensures HalfEnded(w, EndingStore(s, w, k, to, AgentLetGo), k)
  {
    ReleaseSources();
    EndedIsHalfEnded(w, k, to);
    WonReleaseAgent(EndedStore(w, k, to), k.agent, w.calls[k].worker, AgentState.Available, Recovery);
  }

  lemma EndingIsUnit(s: Settings, w: World, k: CallKey, to: CallState)
    requires Active(w, k) && Linked(w, k) && CallOk(w, k) && IndexOk(w) && IsTerminal(to)
    requires BorrowerOk(s, w.borrowers[k.borrower]) && k.attempt == w.borrowers[k.borrower].attemptCount + 1
    requires Alone(w, k.agent, k.borrower, k)
    ensures Unit(s, w, EndingStore(s, w, k, to, BorrowerLetGo), k)
  {
    WonTransitionCall(w, k, to);
    WonReleaseBorrower(s, EndedStore(w, k, to), k.borrower, w.calls[k].worker, Retry);
    var x := EndingStore(s, w, k, to, BorrowerLetGo);
    assert w.agents == w.agents[k.agent := w.agents[k.agent]];
    MovingKeepsIndex(w, x, k);
    ReplacementIsUnit(s, w, x, k.agent, k.borrower, k);
  }

  lemma MovingKeepsIndex(w: World, x: World, k: CallKey)
    requires IndexOk(w) && k in w.calls && k in x.calls && x.calls == w.calls[k := x.calls[k]] && x.index == w.index
    requires x.calls[k].provider == w.calls[k].provider && x.calls[k].providerCallId == w.calls[k].providerCallId
    ensures IndexOk(x)
  {
  }

  /**
   * A recovery worker that stops after ending a call, after letting go of its agent as well, or after letting
   * go of its borrower: one run of the sweeps leaves every open call with an agent and a borrower of its own,
   * and the attempts are all counted exactly when the borrower was let go of.
   */
  lemma OneRunAfterARecovery(
    s: Settings, w: World, k: CallKey, to: CallState, cut: EndingCut, x: World, input: SweepInput
  )
    requires Inv(s, w) && Active(w, k) && IsTerminal(to) && Later(EndingStore(s, w, k, to, cut), x)
    requires k.agent in w.agents && Expired(w.agents[k.agent].lease, x.now)
    requires OrdersOk(x, input) && BacklogOf(s, x, x.now).Fits(s.sweepLimit)
    ensures var x' := SweepsAt(s, x, x.now, input).0;
            Exclusive(s, x') && (Inv(s, x') <==> cut.BorrowerLetGo?)
  {
    ActiveIsAlone(s, w, k);
    match cut
    case CallEnded =>
      EndedIsHalfEnded(w, k, to);
      OneRunAfterAHalfEnding(s, w, x, k, x.now, input);
    case AgentLetGo =>
      LettingGoHalfEnds(s, w, k, to);
      OneRunAfterAHalfEnding(s, w, x, k, x.now, input);
    case BorrowerLetGo =>
      assert BorrowerOk(s, w.borrowers[k.borrower]);
      EndingIsUnit(s, w, k, to);
      EndedRecoverySwept(s, w, k, to, x, input);
  }

  lemma EndedRecoverySwept(s: Settings, w: World, k: CallKey, to: CallState, x: World, input: SweepInput)
    requires Inv(s, w) && k in w.calls && Unit(s, w, EndingStore(s, w, k, to, BorrowerLetGo), k)
    requires Later(EndingStore(s, w, k, to, BorrowerLetGo), x)
    requires OrdersOk(x, input) && |ExpiredAgents(x, x.now)| <= s.sweepLimit
    ensures var x' := SweepsAt(s, x, x.now, input).0;
            Exclusive(s, x') && Inv(s, x')
  {
    var stop := EndingStore(s, w, k, to, BorrowerLetGo);
    UnitKeepsInv(s, w, stop, k);
    ClockKeepsInv(s, stop, x);
    LinkedStoreSwept(s, x, x.now, input);
    LinkedIsExclusive(s, SweepsAt(s, x, x.now, input).0);
  }
}
