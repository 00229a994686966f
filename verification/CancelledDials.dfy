/**
 * A dial cut short. The store at each point where a dial can be stopped, and exactly when letting go of
 * the pair, as a cancelled dial does, leaves everything linked.
 */
module CancelledDials {
  import opened Basics
  import opened AgentMachine
  import opened CallMachine
  import opened Documents
  import opened Store
  import opened Effects
  import opened Handlers
  import opened Linking
  import opened DialKeepsLinks

  /** The last write a dial has made when it is stopped. */
  datatype Cut =
    | Claimed
    | AgentGivenBack
    | PairGivenBack
    | CallCreated
    | CallReserved
    | CallInitiated
    | AgentMoved
    | CallBound
    | IdAttached
    | CallFailed
    | AgentFreed
    | PairFreed

  // ---------- the store at each cut ----------

  function CreatedStore(w: World, p: Pair, provider: ProviderId): World {
    CreateCall(w, p.Key(), provider, p.worker).0
  }

  function ReservedStore(w: World, p: Pair, provider: ProviderId): World {
    TryTransitionCall(CreatedStore(w, p, provider), p.Key(), CallState.Reserved).0
  }

  function MovedStore(w: World, p: Pair, provider: ProviderId): World {
    TryTransitionAgent(PlaceCall(w, p, provider).0, p.agentId, AgentState.Reserved, AgentState.Dialing, Allocator,
                       p.agent.version).0
  }

  function BoundStore(w: World, p: Pair, provider: ProviderId): World {
    StartDialing(PlaceCall(w, p, provider).0, p)
  }

  /** The provider has answered, and the id of a call it accepted has been offered to the store. */
  function AnsweredStore(w: World, p: Pair, provider: ProviderId, reply: Reply): World {
    var asked := BoundStore(w, p, provider);
    if reply.Accepted? then TryAttach(asked, p.Key(), reply.id).0 else asked
  }

  function FailedStore(w: World, p: Pair, provider: ProviderId, reply: Reply): World {
    TryTransitionCall(AnsweredStore(w, p, provider, reply), p.Key(), CallState.Failed).0
  }

  function ReleasedAgent(w: World, p: Pair): World {
    TryReleaseAgent(w, p.agentId, p.worker, AgentState.Available, Allocator).0
  }

  /** `w` is the store as the retry gate left it, the pair claimed. */
  function StoreAt(s: Settings, w: World, p: Pair, provider: ProviderId, reply: Reply, cut: Cut): World {
    match cut
    case Claimed => w
    case AgentGivenBack => ReleasedAgent(w, p)
    case PairGivenBack => ReleasePair(s, w, p, Released)
    case CallCreated => CreatedStore(w, p, provider)
    case CallReserved => ReservedStore(w, p, provider)
    case CallInitiated => PlaceCall(w, p, provider).0
    case AgentMoved => MovedStore(w, p, provider)
    case CallBound => BoundStore(w, p, provider)
    case IdAttached => AnsweredStore(w, p, provider, reply)
    case CallFailed => FailedStore(w, p, provider, reply)
    case AgentFreed => ReleasedAgent(FailedStore(w, p, provider, reply), p)
    case PairFreed => FailDial(s, AnsweredStore(w, p, provider, reply), p)
  }

  /** Which cuts a dial past the gate can come to: the last ones depend on whether the provider took the call. */
  predicate Passes(s: Settings, w: World, p: Pair, provider: ProviderId, reply: Reply, cut: Cut) {
    match cut
    case IdAttached => PlaceAndAsk(s, w, p, provider, reply).1
    case CallFailed => !PlaceAndAsk(s, w, p, provider, reply).1
    case AgentFreed => !PlaceAndAsk(s, w, p, provider, reply).1
    case PairFreed => !PlaceAndAsk(s, w, p, provider, reply).1
    case _ => true
  }

  lemma FinishByParts(s: Settings, asked: World, p: Pair, reply: Reply, answered: World)
    requires answered == if reply.Accepted? then TryAttach(asked, p.Key(), reply.id).0 else asked
    ensures var (end, dialled) := FinishDial(s, asked, p, reply);
            end == if dialled then answered else FailDial(s, answered, p)
  {
  }

  lemma PlacedThenFinished(s: Settings, w: World, p: Pair, provider: ProviderId, reply: Reply)
    requires PlaceCall(w, p, provider).1
    ensures PlaceAndAsk(s, w, p, provider, reply) == FinishDial(s, BoundStore(w, p, provider), p, reply)
  {
  }

  lemma PlacingInOrder(w: World, p: Pair, provider: ProviderId)
    requires p.Key() !in w.calls
    ensures PlaceCall(w, p, provider).0
            == TryTransitionCall(ReservedStore(w, p, provider), p.Key(), CallState.Initiated).0
  {
  }

  lemma DialingInOrder(w: World, p: Pair)
    ensures StartDialing(w, p)
            == TryBindCall(TryTransitionAgent(w, p.agentId, AgentState.Reserved, AgentState.Dialing, Allocator,
                                              p.agent.version).0,
                           p.agentId, p.worker, p.Key()).0
  {
  }

  lemma FailingInOrder(s: Settings, w: World, p: Pair)
    ensures FailDial(s, w, p)
            == TryReleaseBorrower(s, ReleasedAgent(TryTransitionCall(w, p.Key(), CallState.Failed).0, p),
                                  p.borrowerId, p.worker, Retry).0
  {
  }

  /**
   * The cuts are the stores a dial passes through: from the claim to the store where the provider is asked,
   * and from its answer to the pair let go of, each is one conditional write on from the one before it.
   */
  lemma DialPassesItsCuts(s: Settings, w: World, p: Pair, provider: ProviderId, reply: Reply)
    requires p.Key() !in w.calls
    ensures var created, reserved := CreatedStore(w, p, provider), ReservedStore(w, p, provider);
            var initiated, moved := PlaceCall(w, p, provider).0, MovedStore(w, p, provider);
            && created == CreateCall(w, p.Key(), provider, p.worker).0
            && reserved == TryTransitionCall(created, p.Key(), CallState.Reserved).0
            && initiated == TryTransitionCall(reserved, p.Key(), CallState.Initiated).0
            && moved == TryTransitionAgent(initiated, p.agentId, AgentState.Reserved, AgentState.Dialing, Allocator,
                                           p.agent.version).0
            && BoundStore(w, p, provider) == TryBindCall(moved, p.agentId, p.worker, p.Key()).0
    ensures var answered, failed := AnsweredStore(w, p, provider, reply), FailedStore(w, p, provider, reply);
            && failed == TryTransitionCall(answered, p.Key(), CallState.Failed).0
            && FailDial(s, answered, p)
               == TryReleaseBorrower(s, ReleasedAgent(failed, p), p.borrowerId, p.worker, Retry).0
  {
    PlacingInOrder(w, p, provider);
    DialingInOrder(PlaceCall(w, p, provider).0, p);
    FailingInOrder(s, AnsweredStore(w, p, provider, reply), p);
  }

  /** A dial past the gate that wins its writes ends at its last cut, the one or the other. */
  lemma DialEndsAtItsLastCut(s: Settings, w: World, p: Pair, provider: ProviderId, reply: Reply)
    requires PlaceCall(w, p, provider).1
    ensures var (end, dialled) := PlaceAndAsk(s, w, p, provider, reply);
            var answered := AnsweredStore(w, p, provider, reply);
            end == if dialled then answered else FailDial(s, answered, p)
  {
    PlacedThenFinished(s, w, p, provider, reply);
    FinishByParts(s, BoundStore(w, p, provider), p, reply, AnsweredStore(w, p, provider, reply));
  }

  // ---------- a call left open ----------

  /** The call is open and its agent still held for it. */
  predicate DialOpen(w: World, p: Pair) {
    && Active(w, p.Key()) && p.agentId in w.agents
    && (w.agents[p.agentId].state == AgentState.Reserved || w.agents[p.agentId].state == AgentState.Dialing)
    && HeldBy(w.agents[p.agentId].lease, p.worker)
  }

  lemma OpenCallIsOrphaned(s: Settings, w: World, p: Pair)
    requires DialOpen(w, p)
    ensures !Inv(s, CompensateCancelledDial(s, w, p))
  {
    ReleaseSources();
    WonReleaseAgent(w, p.agentId, p.worker, AgentState.Available, Allocator);
    var w' := CompensateCancelledDial(s, w, p);
    assert Active(w', p.Key());
    assert !Linked(w', p.Key());
  }

  lemma CreatedIsOpen(w: World, p: Pair, provider: ProviderId)
    requires p.Key() !in w.calls && p.agentId in w.agents && w.agents[p.agentId] == p.agent
    requires p.agent.state == AgentState.Reserved && HeldBy(p.agent.lease, p.worker)
    ensures DialOpen(CreatedStore(w, p, provider), p) && DialOpen(ReservedStore(w, p, provider), p)
  {
  }

  lemma MovedIsOpen(w: World, p: Pair, provider: ProviderId)
    requires p.Key() !in w.calls && p.agentId in w.agents && w.agents[p.agentId] == p.agent
    requires p.agent.state == AgentState.Reserved && HeldBy(p.agent.lease, p.worker)
    ensures DialOpen(PlaceCall(w, p, provider).0, p) && DialOpen(MovedStore(w, p, provider), p)
  {
    var c := PlaceCallEffect(w, p, provider);
    WonTransitionAgent(PlaceCall(w, p, provider).0, p.agentId, AgentState.Dialing, Allocator);
  }

  lemma AskingIsOpen(w: World, w2: World, p: Pair, provider: ProviderId, a: Agent, c: Call)
    requires Asking(w, w2, p, provider, a, c) && HeldBy(p.agent.lease, p.worker)
    ensures DialOpen(w2, p)
  {
  }

  lemma AttachedIsOpen(w: World, w3: World, p: Pair, a: Agent, c: Call)
    requires DialSucceeded(w, w3, p, a, c) && HeldBy(p.agent.lease, p.worker)
    ensures DialOpen(w3, p)
  {
  }

  // ---------- a call already failed ----------

  lemma UncountedAttemptShows(s: Settings, w: World, p: Pair)
    requires p.Key() in w.calls && w.calls[p.Key()].terminal
    requires p.borrowerId in w.borrowers && w.borrowers[p.borrowerId].attemptCount == p.borrower.attemptCount
    ensures !Inv(s, CompensateCancelledDial(s, w, p))
  {
    var w1 := ReleasedAgent(w, p);
    ReleaseAgentFrame(w, p.agentId, p.worker, AgentState.Available, Allocator);
    var w' := CompensateCancelledDial(s, w, p);
    assert w' == TryReleaseBorrower(s, w1, p.borrowerId, p.worker, Released).0;
    assert w'.borrowers[p.borrowerId].attemptCount == p.borrower.attemptCount;
    assert w'.calls[p.Key()].terminal && !AttemptOk(w', p.Key());
  }

  lemma UnansweredIsAsking(s: Settings, w: World, w1: World, t: World, p: Pair, provider: ProviderId, reply: Reply)
    returns (a: Agent, c: Call)
    requires PairClaimed(s, w, w1, p) && p.Key() !in w.calls && ClockOnly(w1, t)
    requires !PlaceAndAsk(s, t, p, provider, reply).1
    ensures Asking(w, AnsweredStore(t, p, provider, reply), p, provider, a, c)
  {
    a, c := AskingEffect(s, w, w1, t, p, provider);
    var asked := BoundStore(t, p, provider);
    if reply.Accepted? { var _ := AttachEffect(w, asked, p, provider, a, c, reply.id); }
  }

  lemma FailedCallIsUncounted(
    s: Settings, w: World, w1: World, w2: World, p: Pair, provider: ProviderId, a: Agent, c: Call
  )
    requires PairClaimed(s, w, w1, p) && Asking(w, w2, p, provider, a, c)
    ensures var w3 := TryTransitionCall(w2, p.Key(), CallState.Failed).0;
            && !Inv(s, CompensateCancelledDial(s, w3, p))
            && !Inv(s, CompensateCancelledDial(s, ReleasedAgent(w3, p), p))
  {
    WonTransitionCall(w2, p.Key(), CallState.Failed);
    var w3 := TryTransitionCall(w2, p.Key(), CallState.Failed).0;
    UncountedAttemptShows(s, w3, p);
    ReleaseAgentFrame(w3, p.agentId, p.worker, AgentState.Available, Allocator);
    UncountedAttemptShows(s, ReleasedAgent(w3, p), p);
  }

  // ---------- nothing left to release ----------

  /** Releasing a pair that holds nothing only reads the clock. */
  lemma NothingToRelease(s: Settings, w: World, p: Pair)
    requires p.agentId in w.agents ==> w.agents[p.agentId].lease.None?
    requires p.borrowerId in w.borrowers ==> w.borrowers[p.borrowerId].lease.None?
    ensures ClockOnly(w, CompensateCancelledDial(s, w, p))
  {
  }

  lemma FinishedDialKeepsInv(s: Settings, w: World, w1: World, t: World, p: Pair, provider: ProviderId, reply: Reply)
    requires Inv(s, w) && PairClaimed(s, w, w1, p) && p.Key() !in w.calls && ClockOnly(w1, t)
    requires !PlaceAndAsk(s, t, p, provider, reply).1
    ensures Inv(s, CompensateCancelledDial(s, PlaceAndAsk(s, t, p, provider, reply).0, p))
  {
    ClaimedPairIsReady(s, w, w1, p);
    var a, b, c := PlaceAndAskEffect(s, w, w1, t, p, provider, reply);
    var w' := PlaceAndAsk(s, t, p, provider, reply).0;
    DialFailedIsUnit(s, w, w1, w', p, a, b, c);
    UnitKeepsInv(s, w, w', p.Key());
    NothingToRelease(s, w', p);
    ClockKeepsInv(s, w', CompensateCancelledDial(s, w', p));
  }

  // ---------- before the call ----------

  lemma GivingBackKeepsInv(s: Settings, w: World, w1: World, w': World, p: Pair, a: Agent, b: Borrower)
    requires Inv(s, w) && PairClaimed(s, w, w1, p) && Suppressed(s, w, w', p, a, b)
    ensures Inv(s, w')
  {
    ClaimedPairIsReady(s, w, w1, p);
    SuppressedIsUnit(s, w, w1, w', p, a, b);
    UnitKeepsInv(s, w, w', p.Key());
  }

  /** Before the call is created, the compensation gives the pair back, or finishes giving it back. */
  lemma ClaimsAreGivenBack(s: Settings, w: World, w1: World, t: World, p: Pair)
    requires Inv(s, w) && PairClaimed(s, w, w1, p) && ClockOnly(w1, t)
    ensures Inv(s, CompensateCancelledDial(s, t, p))
    ensures Inv(s, CompensateCancelledDial(s, ReleasedAgent(t, p), p))
    ensures Inv(s, CompensateCancelledDial(s, ReleasePair(s, t, p, Released), p))
  {
    var a, b := SuppressedEffect(s, w, w1, t, p);
    var w' := ReleasePair(s, t, p, Released);
    GivingBackKeepsInv(s, w, w1, w', p, a, b);
    NothingToRelease(s, w', p);
    ClockKeepsInv(s, w', CompensateCancelledDial(s, w', p));
    HalfGivenBack(s, w, w1, t, p);
    var x := CompensateCancelledDial(s, ReleasedAgent(t, p), p);
    GivingBackKeepsInv(s, w, w1, x, p, x.agents[p.agentId], x.borrowers[p.borrowerId]);
  }

  lemma HalfGivenBack(s: Settings, w: World, w1: World, t: World, p: Pair)
    requires PairClaimed(s, w, w1, p) && ClockOnly(w1, t)
    ensures var w' := CompensateCancelledDial(s, ReleasedAgent(t, p), p);
            && p.agentId in w'.agents && p.borrowerId in w'.borrowers
            && Suppressed(s, w, w', p, w'.agents[p.agentId], w'.borrowers[p.borrowerId])
  {
    ReleaseSources();
    WonReleaseAgent(t, p.agentId, p.worker, AgentState.Available, Allocator);
    var w2 := ReleasedAgent(t, p);
    var w3 := ReleasedAgent(w2, p);
    assert ClockOnly(w2, w3);
    WonReleaseBorrower(s, w3, p.borrowerId, p.worker, Released);
    var w' := CompensateCancelledDial(s, w2, p);
    assert w'.agents == w.agents[p.agentId := w'.agents[p.agentId]];
    assert w'.borrowers == w.borrowers[p.borrowerId := w'.borrowers[p.borrowerId]];
  }

  // ---------- the exact condition ----------

  predicate BeforeTheCall(cut: Cut) {
    cut.Claimed? || cut.AgentGivenBack? || cut.PairGivenBack?
  }

  lemma OpenCutsBreakInv(
    s: Settings, w: World, w1: World, t: World, p: Pair, provider: ProviderId, reply: Reply, cut: Cut
  )
    requires PairClaimed(s, w, w1, p) && p.Key() !in w.calls && ClockOnly(w1, t)
    requires Passes(s, t, p, provider, reply, cut) && !BeforeTheCall(cut)
    requires !cut.CallFailed? && !cut.AgentFreed? && !cut.PairFreed?
    ensures !Inv(s, CompensateCancelledDial(s, StoreAt(s, t, p, provider, reply, cut), p))
  {
    OpenCutIsOpen(s, w, w1, t, p, provider, reply, cut);
    OpenCallIsOrphaned(s, StoreAt(s, t, p, provider, reply, cut), p);
  }

  lemma OpenCutIsOpen(s: Settings, w: World, w1: World, t: World, p: Pair, provider: ProviderId, reply: Reply, cut: Cut)
    requires PairClaimed(s, w, w1, p) && p.Key() !in w.calls && ClockOnly(w1, t)
    requires Passes(s, t, p, provider, reply, cut) && !BeforeTheCall(cut)
    requires !cut.CallFailed? && !cut.AgentFreed? && !cut.PairFreed?
    ensures DialOpen(StoreAt(s, t, p, provider, reply, cut), p)
  {
    match cut
    case CallCreated => CreatedIsOpen(t, p, provider);
    case CallReserved => CreatedIsOpen(t, p, provider);
    case CallInitiated => MovedIsOpen(t, p, provider);
    case AgentMoved => MovedIsOpen(t, p, provider);
    case CallBound =>
      var a, c := AskingEffect(s, w, w1, t, p, provider);
      AskingIsOpen(w, BoundStore(t, p, provider), p, provider, a, c);
    case IdAttached =>
      var a, b, c := PlaceAndAskEffect(s, w, w1, t, p, provider, reply);
      AttachedIsOpen(w, PlaceAndAsk(s, t, p, provider, reply).0, p, a, c);
      LastCut(s, w, w1, t, p, provider, reply);
  }

  lemma LastCut(s: Settings, w: World, w1: World, t: World, p: Pair, provider: ProviderId, reply: Reply)
    requires PairClaimed(s, w, w1, p) && p.Key() !in w.calls && ClockOnly(w1, t)
    ensures var (end, dialled) := PlaceAndAsk(s, t, p, provider, reply);
            var answered := AnsweredStore(t, p, provider, reply);
            end == if dialled then answered else FailDial(s, answered, p)
  {
    var _ := PlaceCallEffect(t, p, provider);
    DialEndsAtItsLastCut(s, t, p, provider, reply);
  }

  /**
   * Wherever a dial is cancelled, its compensation leaves everything linked exactly when the call was not
   * yet created, or when the dial had failed and already let go of both. In between it leaves an open call
   * nobody serves, or a failed one that its borrower's attempts do not count.
   */
  lemma CancellationKeepsInvIff(
    s: Settings, w: World, w1: World, t: World, p: Pair, provider: ProviderId, reply: Reply, cut: Cut
  )
    requires Inv(s, w) && PairClaimed(s, w, w1, p) && ClockOnly(w1, t) && Passes(s, t, p, provider, reply, cut)
    ensures Inv(s, CompensateCancelledDial(s, StoreAt(s, t, p, provider, reply, cut), p))
            <==> BeforeTheCall(cut) || cut.PairFreed?
  {
    KeyIsFresh(s, w, w1, p);
    if BeforeTheCall(cut) {
      ClaimsAreGivenBack(s, w, w1, t, p);
    } else if cut.PairFreed? {
      LastCut(s, w, w1, t, p, provider, reply);
      FinishedDialKeepsInv(s, w, w1, t, p, provider, reply);
    } else if cut.CallFailed? || cut.AgentFreed? {
      var a, c := UnansweredIsAsking(s, w, w1, t, p, provider, reply);
      FailedCallIsUncounted(s, w, w1, AnsweredStore(t, p, provider, reply), p, provider, a, c);
    } else {
      OpenCutsBreakInv(s, w, w1, t, p, provider, reply, cut);
    }
  }
}
