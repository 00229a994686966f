/** The simulation's invariant checker: exact on any list of calls, and silent in every reachable state. */
module InvariantChecker {
  import opened Basics
  import opened AgentMachine
  import opened CallMachine
  import opened Documents
  import opened Store
  import opened Linking
  import opened HandlerRuns
  import opened Exclusivity
  import opened ConcurrencyCap

  datatype Binding = ToAgent | ToBorrower

  datatype Offender = Offender(id: nat, earlier: CallKey, later: CallKey)

  datatype Violation =
    | DoubleBooked(binding: Binding, offenders: seq<Offender>)
    | CallsExceedAgents(calls: seq<CallKey>)
    | CallsLeftStale(stale: seq<CallKey>)
    | AgentsLeftReserved(howMany: nat)

  const FIND_ACTIVE_LIMIT: nat := 5000
  const FINAL_STALE_LIMIT: nat := 50

  function BoundId(call: CallKey, binding: Binding): nat {
    match binding
    case ToAgent => call.agent
    case ToBorrower => call.borrower
  }

  /** The calls at positions `i` and `j` are bound to the same agent, or the same borrower. */
  predicate Clash(calls: seq<CallKey>, binding: Binding, i: int, j: int) {
    0 <= i < j < |calls| && BoundId(calls[i], binding) == BoundId(calls[j], binding)
  }

  ghost predicate SomeClash(calls: seq<CallKey>, binding: Binding) {
    exists i, j :: Clash(calls, binding, i, j)
  }

  /** Each offender is a clash of a call with the nearest call before it that has the same id. */
  ghost predicate IsOffender(calls: seq<CallKey>, binding: Binding, o: Offender) {
    exists i, j :: Clash(calls, binding, i, j) && (forall k :: i < k < j ==> !Clash(calls, binding, k, j))
                   && o == Offender(BoundId(calls[j], binding), calls[i], calls[j])
  }

  function BoundIds(calls: seq<CallKey>, binding: Binding): set<nat> {
    set k | 0 <= k < |calls| :: BoundId(calls[k], binding)
  }

  /** `seen` maps each id among the first `n` calls to the last of them that has it, which stands at `lastAt`. */
  ghost predicate Recorded(
    calls: seq<CallKey>, binding: Binding, n: int, seen: map<nat, CallKey>, lastAt: map<nat, int>
  )
    requires 0 <= n <= |calls|
  {
    && seen.Keys == lastAt.Keys
    && (forall id :: id in lastAt ==>
          0 <= lastAt[id] < n && seen[id] == calls[lastAt[id]] && BoundId(calls[lastAt[id]], binding) == id)
    && (forall k :: 0 <= k < n ==> BoundId(calls[k], binding) in lastAt && k <= lastAt[BoundId(calls[k], binding)])
  }

  lemma NextRecorded(calls: seq<CallKey>, binding: Binding, n: int, seen: map<nat, CallKey>, lastAt: map<nat, int>)
    requires 0 <= n < |calls| && Recorded(calls, binding, n, seen, lastAt)
    ensures var id := BoundId(calls[n], binding);
            && Recorded(calls, binding, n + 1, seen[id := calls[n]], lastAt[id := n])
            && (id in seen ==> IsOffender(calls, binding, Offender(id, seen[id], calls[n])))
            && (id !in seen ==> forall i :: !Clash(calls, binding, i, n))
  {
    var id := BoundId(calls[n], binding);
    if id in seen { assert Clash(calls, binding, lastAt[id], n); }
  }

  lemma RecordedIds(calls: seq<CallKey>, binding: Binding, seen: map<nat, CallKey>, lastAt: map<nat, int>)
    requires Recorded(calls, binding, |calls|, seen, lastAt)
    ensures seen.Keys == BoundIds(calls, binding)
  {
  }

  /** One offender for every call beyond the first with its id, in the order of the list. */
  method FindOffenders(calls: seq<CallKey>, binding: Binding) returns (offenders: seq<Offender>)
    ensures forall o :: o in offenders ==> IsOffender(calls, binding, o)
    ensures |offenders| == |calls| - |BoundIds(calls, binding)|
    ensures offenders != [] <==> SomeClash(calls, binding)
  {
    var seen: map<nat, CallKey> := map[];
    ghost var lastAt: map<nat, int> := map[];
    offenders := [];
    for n := 0 to |calls|
      invariant Recorded(calls, binding, n, seen, lastAt)
      invariant |offenders| + |seen.Keys| == n
      invariant forall o :: o in offenders ==> IsOffender(calls, binding, o)
      invariant offenders == [] ==> forall i, j :: j < n ==> !Clash(calls, binding, i, j)
    {
      NextRecorded(calls, binding, n, seen, lastAt);
      var id := BoundId(calls[n], binding);
      if id in seen { offenders := offenders + [Offender(id, seen[id], calls[n])]; }
      assert seen[id := calls[n]].Keys == seen.Keys + {id};
      seen := seen[id := calls[n]];
      lastAt := lastAt[id := n];
    }
    RecordedIds(calls, binding, seen, lastAt);
    if offenders != [] { assert IsOffender(calls, binding, offenders[0]); }
  }

  predicate Reported(violations: seq<Violation>, binding: Binding) {
    exists v :: v in violations && v.DoubleBooked? && v.binding == binding
  }

  /** One round of the check: a violation with its offenders, or nothing. */
  method ReportOn(calls: seq<CallKey>, binding: Binding) returns (found: Option<Violation>)
    ensures found.Some? <==> SomeClash(calls, binding)
    ensures found.Some? ==> found.value.DoubleBooked? && found.value.binding == binding
                            && forall o :: o in found.value.offenders ==> IsOffender(calls, binding, o)
  {
    var offenders := FindOffenders(calls, binding);
    found := if offenders == [] then None else Some(DoubleBooked(binding, offenders));
  }

  lemma ReportsSay(violations: seq<Violation>, agents: Option<Violation>, borrowers: Option<Violation>)
    requires (if agents.Some? then [agents.value] else []) + (if borrowers.Some? then [borrowers.value] else [])
             == violations
    requires agents.Some? ==> agents.value.DoubleBooked? && agents.value.binding == ToAgent
    requires borrowers.Some? ==> borrowers.value.DoubleBooked? && borrowers.value.binding == ToBorrower
    ensures Reported(violations, ToAgent) <==> agents.Some?
    ensures Reported(violations, ToBorrower) <==> borrowers.Some?
  {
  }

  /** Reports an agent, or a borrower, exactly when two listed calls share one, for lists of any length. */
  method CheckDuplicateBindings(calls: seq<CallKey>) returns (violations: seq<Violation>)
    ensures Reported(violations, ToAgent) <==> SomeClash(calls, ToAgent)
    ensures Reported(violations, ToBorrower) <==> SomeClash(calls, ToBorrower)
    ensures violations == [] <==> !SomeClash(calls, ToAgent) && !SomeClash(calls, ToBorrower)
  {
    violations := [];
    var agents := ReportOn(calls, ToAgent);
    if agents.Some? { violations := violations + [agents.value]; }
    var borrowers := ReportOn(calls, ToBorrower);
    if borrowers.Some? { violations := violations + [borrowers.value]; }
    ReportsSay(violations, agents, borrowers);
  }

  function UsableCount(w: World, campaign: CampaignId): nat {
    |AgentsIn(w, campaign, AgentState.Available)| + |AgentsIn(w, campaign, AgentState.Reserved)|
    + |AgentsIn(w, campaign, AgentState.Dialing)| + |AgentsIn(w, campaign, AgentState.Connected)|
    + |AgentsIn(w, campaign, AgentState.WrapUp)|
  }

  lemma StatesSplitUsable(w: World, campaign: CampaignId)
    ensures UsableAgents(w, campaign)
            == AgentsIn(w, campaign, AgentState.Available) + AgentsIn(w, campaign, AgentState.Reserved)
             + AgentsIn(w, campaign, AgentState.Dialing) + AgentsIn(w, campaign, AgentState.Connected)
             + AgentsIn(w, campaign, AgentState.WrapUp)
  {
  }

  lemma UsableCountsUsable(w: World, campaign: CampaignId)
    ensures UsableCount(w, campaign) == |UsableAgents(w, campaign)|
  {
    StatesSplitUsable(w, campaign);
    SizeOfFive(AgentsIn(w, campaign, AgentState.Available), AgentsIn(w, campaign, AgentState.Reserved),
               AgentsIn(w, campaign, AgentState.Dialing), AgentsIn(w, campaign, AgentState.Connected),
               AgentsIn(w, campaign, AgentState.WrapUp));
  }

  function CheckCapacity(calls: seq<CallKey>, usable: nat): seq<Violation> {
    if |calls| <= usable then [] else [CallsExceedAgents(calls)]
  }

  lemma ListedCallsAreApart(s: Settings, w: World, campaign: CampaignId, calls: seq<CallKey>)
    requires Reachable(s, w) && Distinct(calls) && forall k :: k in calls ==> k in ActiveCalls(w, campaign)
    ensures !SomeClash(calls, ToAgent) && !SomeClash(calls, ToBorrower)
  {
    forall i, j | 0 <= i < j < |calls|
      ensures !Clash(calls, ToAgent, i, j) && !Clash(calls, ToBorrower, i, j)
    {
      assert calls[i] in calls && calls[j] in calls;
      AgentIsExclusive(s, w, calls[i], calls[j]);
      BorrowerIsExclusive(s, w, calls[i], calls[j]);
    }
  }

  lemma ListedCallsFit(s: Settings, w: World, campaign: CampaignId, calls: seq<CallKey>)
    requires Reachable(s, w) && Distinct(calls) && forall k :: k in calls ==> k in ActiveCalls(w, campaign)
    ensures |calls| <= UsableCount(w, campaign)
  {
    DistinctHasItsLength(calls);
    SubsetIsNoLarger(Elements(calls), ActiveCalls(w, campaign));
    ActiveCallsWithinCapacity(s, w, campaign);
    UsableCountsUsable(w, campaign);
  }

  function OfCampaign(calls: seq<CallKey>, campaign: CampaignId): (own: seq<CallKey>)
    ensures forall k :: k in own <==> k in calls && k.campaign == campaign
  {
    if calls == [] then []
    else (if calls[0].campaign == campaign then [calls[0]] else []) + OfCampaign(calls[1..], campaign)
  }

  /** The stale calls the final check looks at: fifty of all campaigns', however many of its own there are. */
  function ListedStale(s: Settings, w: World, order: seq<CallKey>): seq<CallKey> {
    Pick(StaleCalls(w, w.now - s.staleTimeout), order, FINAL_STALE_LIMIT)
  }

  method CheckFinalState(s: Settings, w: World, campaign: CampaignId, order: seq<CallKey>)
    returns (violations: seq<Violation>)
    ensures violations == [] <==>
              && (forall k :: k in ListedStale(s, w, order) ==> k.campaign != campaign)
              && AgentsIn(w, campaign, AgentState.Reserved) == {}
  {
    violations := [];
    var stale := OfCampaign(ListedStale(s, w, order), campaign);
    if stale != [] {
      violations := violations + [CallsLeftStale(stale)];
      assert stale[0] in stale;
    }
    var reserved := |AgentsIn(w, campaign, AgentState.Reserved)|;
    if reserved > 0 { violations := violations + [AgentsLeftReserved(reserved)]; }
  }

  lemma NobodyIsReserved(s: Settings, w: World, campaign: CampaignId)
    requires Reachable(s, w)
    ensures AgentsIn(w, campaign, AgentState.Reserved) == {}
  {
    ReachableIsLinked(s, w);
    forall id | id in w.agents ensures w.agents[id].state != AgentState.Reserved {
      assert AgentOk(w, id);
    }
  }

  /**
   * Lists the active calls in any order, up to the query's limit, and checks them; at the end of a
   * simulation also that no listed stale call is the campaign's and that no agent is reserved.
   */
  method Check(s: Settings, w: World, campaign: CampaignId, final: bool, order: seq<CallKey>, stale: seq<CallKey>)
    returns (violations: seq<Violation>)
    requires Distinct(order)
    ensures Reachable(s, w) && !final ==> violations == []
    ensures Reachable(s, w) && (forall k :: k in StaleCalls(w, w.now - s.staleTimeout) ==> k.campaign != campaign) ==>
              violations == []
    ensures var calls := Pick(ActiveCalls(w, campaign), order, FIND_ACTIVE_LIMIT);
            violations == [] <==>
              && !SomeClash(calls, ToAgent) && !SomeClash(calls, ToBorrower) && |calls| <= UsableCount(w, campaign)
              && (final ==> && (forall k :: k in ListedStale(s, w, stale) ==> k.campaign != campaign)
                            && AgentsIn(w, campaign, AgentState.Reserved) == {})
  {
    var calls := Pick(ActiveCalls(w, campaign), order, FIND_ACTIVE_LIMIT);
    PickIsDistinct(ActiveCalls(w, campaign), order, FIND_ACTIVE_LIMIT);
    violations := CheckDuplicateBindings(calls);
    violations := violations + CheckCapacity(calls, UsableCount(w, campaign));
    if final {
      var last := CheckFinalState(s, w, campaign, stale);
      violations := violations + last;
    }
    if Reachable(s, w) {
      ListedCallsAreApart(s, w, campaign, calls);
      ListedCallsFit(s, w, campaign, calls);
      NobodyIsReserved(s, w, campaign);
    }
  }
}
