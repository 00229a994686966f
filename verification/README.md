# SmartDialer verification

SmartDialer places calls for call-centre agents. Allocator workers reserve an agent and a borrower,
create a call and hand it to a telephony provider; a processor applies the provider's events; a
recovery worker sweeps up after crashes; agents log in, pause and log out. All of them write the same
three kinds of document (agents, borrowers, calls) and one set of event ids, and every write is a
conditional update of a single document. This project models that protocol with the dialing boundary
around it (pacing, the safety controller, provider health, time accounting, the invariant checker) and
proves what holds across documents, across interleavings and across recovery.

`dafny verify dfyconfig.toml` checks the whole project.

## Layout

One protocol, in three forms that are proved to agree:

- **Steps and handlers on a store value.** `Documents.dfy` and `Store.dfy` are the documents and the
  atomic steps of the repositories; `Handlers.dfy` composes them into reserving, dialing, event
  processing, recovery, wrap-ups and agent actions. The clock is a script of delays, so every reading of
  it may find that any amount of time has passed. `Linking.dfy` states what ties the documents together;
  `*KeepLinks.dfy`, `LimitedSweeps.dfy` and `HandlerRuns.dfy` prove it over all runs; `CancelledDials.dfy`,
  `DialResidue.dfy` and `CrashedDials.dfy` treat dials that stop halfway, `HalfEndings.dfy`, `OutOfStep.dfy` and
  `StoppedHandlers.dfy` the other handlers, and `StaleReadings.dfy` recoveries that act on old readings;
  `SweepOutcomes.dfy`, `DialOutcomes.dfy`, `EventOutcomes.dfy` and `TickOutcomes.dfy` say exactly what each operation
  makes of the documents, in terms of the documents alone; `Exclusivity.dfy`, `Conservation.dfy`,
  `ConcurrencyCap.dfy`, `EventOrder.dfy`, `RecoveryFixpoint.dfy` and `TimeAccounting.dfy` draw the results.
- **Every interleaving.** `Interleavings.dfy` is a machine on which any worker may take any single step
  at any time on anything it ever read, or stop for good; what a step writes may be dated by a reading of
  the clock made any time before. `*Interleaved.dfy`, `InterleavingTheorems.dfy`, `CallTimes.dfy` and
  `BackdatedWrites.dfy` prove what survives that, `InterleavingWitnesses.dfy` shows runs on which more does not.
  `HandlersInterleave.dfy` replays every handler on this machine, so each run of handlers is one of the
  interleavings, one whose writes are dated by the clock as they are made.
- **The program in place.** `Repositories.dfy`, `Services.dfy`, `Dialers.dfy` and `Program.dfy` are
  classes whose methods update stored documents in loops, as the program does; each is proved to do
  exactly what the step or handler of that name does, and `Program.SmartDialer.Execute` that any command
  leads from reachable stores to reachable ones.

`Safety.dfy`, `Pacing.dfy`, `ModesCompared.dfy`, `ProviderHealth.dfy` and `InvariantChecker.dfy` are the
components around the protocol; `StateMachines.dfy`, `Basics.dfy` and `Effects.dfy` are shared.

## Main results

- Over any run of handlers agents, borrowers and calls stay linked (`RunKeepsInv`), and the conditions asked of
  the environment are exact: the legal runs are the ones that stay linked (`LegalIffLinkedThroughout`). So nobody
  is ever on two calls (`AgentIsExclusive`, `BorrowerIsExclusive`), attempts are counted without gaps
  (`AttemptCountIsExact`) and the concurrency cap holds (`CapHoldsOverRuns`).
- Where a dial is cancelled decides whether its compensation suffices (`CancellationKeepsInvIff`). Where a worker
  crashes, in a claim, a dial, an event or a recovery, does not matter to exclusivity, which one late run of recovery
  restores, but it does to the attempt count, and each cut is decided (`OneRunRestoresExclusivity`,
  `OneRunAfterAClaim`, `OneRunAfterAnEvent`, `OneRunAfterARecovery`).
- Recovering an agent on a reading of any age goes wrong in one way only: it reclaims, or logs out, an agent that has
  been bound to a call since (`ReclaimKeepsInvIff`, `LogOutKeepsInvIff`). Two recovery runs that overlap inside one
  recovery share nobody out, but lose an attempt exactly when the borrower's lease had run out (`TwoRunsOverlap`).
- Under every interleaving and crash a call is handed to a provider at most once (`OriginatedAtMostOnce`), documents
  move along the edges of their machines (`CallsOnlyMoveAlongEdges`, `AgentsOnlyMoveWhenAuthorised`), backoffs are
  waited out (`HoldsRespectBackoff`) and no busy agent is lost to the sweeps (`BusyAgentsAreSwept`).
- What each operation makes of the documents is stated exactly, without the functions it is written with: a run of
  sweeps on every call, agent and borrower (`CallsAfterARun`, `AgentsAfterARun`, `BorrowersAfterARun`, `RunCounts`), an
  attempt and its dial (`AttemptOutcome`, `DialOutcome`), an event (`EventByKind`), what a tick may place and what it
  attempts (`TickMayPlaceIff`, `TickAttemptsWhatIsApproved`), the request (`RequestIsExact`) and a provider's health
  (`UnhealthyIff`, `DegradedIff`).
- Recovery reaches a fixpoint in one run with room, or in enough runs without (`OneRunIsEnough`,
  `EnoughRunsEmptyEverything`).
- Eight safety limits are one short formula (`EightLimitsAreFive`), which decides when one dialing mode is approved
  for more than the other (`PredictiveBeatsProgressiveIff`).

## Assumptions of the claims across documents

The results about interleavings need none of these. The results about linked stores hold for runs in which

- handlers do not overlap: a release filters on the worker, not on the call, and the worker id is shared by
  a whole process (app/repositories/agent_repo.py:103-108, app/workers/worker_identity.py:12-16);
- nobody logs out during an active call (`BusyLogoutKeepsInvIff` shows the condition is exact);
- no dial is cancelled between creating its call and releasing both parties after a failure
  (`CancellationKeepsInvIff` gives the exact cuts);
- no worker stops halfway through a handler (`OneRunRestoresExclusivity`, `OneRunAfterAClaim`, `OneRunAfterAnEvent` and
  `OneRunAfterARecovery` say what one run of the sweeps makes of it, wherever that is);
- a query returns no match twice, and no run of the sweeps takes the borrower of a call whose agent it leaves alone
  (`SweepsKeepInvIff` shows the condition is exact, for any limit and for queries that fail; `RoomForAgentsSuffices`
  gives a limit that meets it, `SmallLimitBreaksLinks` and `FailedQueryBreaksLinks` stores that do not);
- `MAX_CALL_ATTEMPTS` is at least 1 and the database starts seeded: agents offline, borrowers pending.

In runs of handlers every write is dated by the clock as it is made. The program reads the clock before it awaits the
update (app/repositories/agent_repo.py:89-99), so a write can carry an older date; the interleaving machine has such
writes, and what they do to the time counters and to the backoff is stated there (`BackdatedWrites.StepIsTimelyIff`,
`LateReleaseHidesTheWait`).

## Where code and documentation part

The model follows the code. Lines are those of the application's own README, the one at the root of its repository.

- Lines 350-352 and 539 suggest that any of the eight constraints can be the binding one. The
  progressive fallbacks (degraded provider, progressive mode, availability drop, failure rate) never are,
  and never change what is approved: agent capacity is never larger and comes first (`EightLimitsAreFive`,
  `FallbacksNeverBind`).
- Lines 222-229 present events as order-tolerant. The call's final state is; whether the borrower counts
  as contacted is not, since only an ANSWERED event that arrives before CONNECTED records an answer
  (`BorrowerContactedExactly`, `ContactDependsOnOrder`, `SwappedEventsLoseTheContact`).
- Line 393 says recovery makes good a worker that crashes while allocating. It frees everybody, and a claim without a
  borrower leaves no trace (`OneRunAfterAClaim`); but a call that had not been bound to its agent, or had already been
  failed, ends without its attempt being counted (`OneRunRestoresExclusivity`), and its key then keeps the same agent
  and borrower from being dialed together (`UncountedCallBlocksItsPair`). The same goes for a worker that stops after
  it ended a call, in an event or in recovery, and before it let go of the borrower (`OneRunAfterAnEvent`,
  `OneRunAfterARecovery`).
- Lines 405-407 say several recovery workers at once are safe. When one runs all its sweeps while another has cancelled
  a call and not yet released its borrower, no agent or borrower is shared afterwards, but the attempt is lost if the
  borrower's lease has run out too: the second worker puts the borrower back to pending and the first then finds
  nothing to release (`TwoRunsOverlap`, exact). Runs that take turns recovery by recovery, on readings of any age, are
  safe recovery by recovery but for two cases (`ReclaimKeepsInvIff`, `LogOutKeepsInvIff`, `CallRecoveryKeepsInv`,
  `BorrowerReclaimKeepsInvIff`). One is a borrower taken from a call whose agent was left alone, as under too small a
  limit. The other takes no second recovery worker but an allocator: binding a call does not raise the agent's version
  (`VersionedWritesSeeNoChange`, `OnlyBindingsGoUnseen`), so one recovery worker beside an allocator can reclaim an
  agent whose call was bound after its reading and leave that call active with nobody on it (`ReclaimCanMissTheCall`).
  For other overlaps of the single writes of two recoveries the results about interleavings hold and no more is shown.
- A reclaim is dated by the start of its sweep, which can be before the agent's last move. Time is then counted twice,
  although counted time is meant to be what has passed (`BackdatedWrites.StepIsTimelyIff`, `LateReclaimCountsTwice`).
- Line 399 says an agent that stops heartbeating is taken offline. Heartbeats do not raise the version either: an agent
  heard from again after the sweep's query is logged out exactly when its state has not changed since
  (`HeardAgentIsLoggedOutIff`, `HeardAgentCanBeLoggedOut`).
- Lines 584-585 say predictive dialing cannot beat progressive on call volume. In one tick it is approved for more
  exactly when the progressive request falls short of the room there is and of the predictive request
  (`PredictiveBeatsProgressiveIff`). With settings in range (`Pacing.Sane`), and no more agents free at the safety check
  than in the snapshot, a win has one of two causes (`WinsHaveTwoCauses`). Calls are ringing or initiated: progressive
  dialing subtracts them from the available agents although their agents no longer count as available (10 agents free,
  5 calls ringing: `PredictiveCanWin`). Or the provider is degraded or the answer rate volatile, and progressive dialing
  asks for a share of the free agents only; where no call is ringing or initiated, predictive dialing wins exactly when
  that share falls short of its own request and of the room (`CautionWinsIff`; 10 against 5 in
  `CautionLetsPredictiveWin`).
- Reserving an agent and reclaiming an expired lease add nothing to the time counters, so counted time is at most, not
  exactly, the time an agent has been working (`LiveTotalsNest`).
- A logout leaves the lease fields of the agent's document set (`OldLeaseSurvivesLogout`), so "leased" is read
  off the state in `Conservation`, and `LeaseFieldsBalanceIff` says when the field would do as well.

## Model

The main results come first, then the rest by module.

| member | source | states |
|---|---|---|
| `HandlerRuns.RunKeepsInv` | app/services/call_allocator.py:66-208 | every legal run of handlers keeps every link |
| `HandlerRuns.ExecKeepsInvIff` | app/services/call_allocator.py:66-208 | any handler's command keeps all links iff it is allowed: the conditions asked of the environment are exact |
| `HandlerRuns.LegalIffLinkedThroughout` | app/simulation/invariants.py:44-56 | the legal runs are exactly those whose stores are all linked |
| `HandlerRuns.ReachableIsLinked` | app/simulation/invariants.py:44-56 | every store a legal run reaches from a seeded database is linked |
| `LimitedSweeps.SweepsKeepInvIff` | app/workers/recovery_worker.py:87-115 | for any limit and any queries, failing ones included, a run of the five sweeps keeps all links iff, on the store before it, no active call whose agent it leaves alone has its borrower among those it takes |
| `CancelledDials.CancellationKeepsInvIff` | app/services/call_allocator.py:89-93 | wherever a dial is cancelled, the compensation keeps all links iff the call was not yet created or the dial had failed and released both parties |
| `CrashedDials.OneRunRestoresExclusivity` | app/workers/recovery_worker.py:87-115 | wherever in a dial its worker stops for good, the pair claimed, one late run of sweeps with room leaves every document in order and every active call with parties of its own; the links, attempt counts included, are restored iff the call was not yet created, was bound to its agent and not failed, or was failed and released |
| `HalfEndings.TwoRunsOverlap` | app/workers/recovery_worker.py:87-133 | one recovery worker has cancelled a call and not released its borrower, a second runs all its sweeps with room, the first goes on: every open call keeps parties of its own, and all links hold iff the borrower lease had not expired for the second |
| `StaleReadings.ReclaimKeepsInvIff` | app/workers/recovery_worker.py:117-133 | recovering an agent on a reading of any age keeps all links iff it does not reclaim the agent from an open call the reading does not name |
| `StaleReadings.LogOutKeepsInvIff` | app/workers/recovery_worker.py:172-195 | logging a silent agent out on a reading of any age keeps all links iff it does not take the agent from an open call the reading does not name |
| `SweepOutcomes.CallsAfterARun` | app/workers/recovery_worker.py:87-211 | what a run with room makes of every call: over before, unchanged; agent lease expired, CANCELLED; else stale, COMPLETED iff its provider knows it and says so and FAILED otherwise; else agent silent, CANCELLED; else unchanged |
| `SweepOutcomes.AgentsAfterARun` | app/workers/recovery_worker.py:87-211 | and of every agent: silent, OFFLINE; else lease expired or call stale, AVAILABLE and free; else in wrap-up for three times its length, AVAILABLE; else unchanged |
| `SweepOutcomes.BorrowersAfterARun` | app/workers/recovery_worker.py:87-211 | and of every borrower: its call ended, one attempt more with a doubled wait or EXHAUSTED; else its hold expired, pending at once without an attempt; else unchanged |
| `SweepOutcomes.RunCounts` | app/workers/recovery_worker.py:87-115 | the five counts of a run are the sizes of five sets of documents of the store before it |
| `SweepOutcomes.StaleCallsEndAsReported` | app/workers/recovery_worker.py:213-221 | whatever the limit, a call the stale sweep of a run gets to ends COMPLETED iff its provider knows it and reports so, and FAILED otherwise |
| `DialOutcomes.AttemptOutcome` | app/services/call_allocator.py:78-98 | an attempt on a linked store is contended iff there is no free agent or no eligible borrower to claim; otherwise it claims the first of each, dated by the clock, and is allocated iff the gate is open and the provider takes the call, all on the store before it |
| `DialOutcomes.DialOutcome` | app/services/call_allocator.py:121-208 | what becomes of a dial with an unused key: no call iff the borrower was called before and is out of attempts, not eligible at the reading of the gate, or its provider unhealthy; otherwise under way iff the provider accepts under an unused id, else FAILED with the attempt used up |
| `TickOutcomes.TickMayPlaceIff` | app/safety/safety_controller.py:142-180 | a tick may place n calls iff the documents leave room for n by every rule: freshness, health, request, agents, cap and ringing |
| `TickOutcomes.TickAttemptsWhatIsApproved` | app/services/call_allocator.py:66-105 | a tick makes as many attempts as were approved, with its inputs in order, each on the store the one before left, fewer iff the last three were contended, and the tally counts each kind |
| `EventOutcomes.EventByKind` | app/services/event_processor.py:95-172 | what an event makes of call, agent and borrower, by its kind and the state of the call |
| `Exclusivity.AgentIsExclusive` | app/services/call_allocator.py:121-208 | in every reachable store an active call's agent is bound to it, in the state the call implies, and to no other active call |
| `Exclusivity.BorrowerIsExclusive` | app/services/reservation_service.py:40-60 | an active call's borrower is RESERVED by the call's worker, on a lease no earlier than the agent's, and in no other active call |
| `Exclusivity.AttemptCountIsExact` | app/repositories/borrower_repo.py:126-168 | a borrower's attempt count is the number of its finished calls, and they are attempts 1 to that number without gaps |
| `Exclusivity.DialNeverCollides` | app/services/call_allocator.py:141-157 | in a reachable store the duplicate-key and lost-INITIATED branches of a dial are never taken |
| `Conservation.AllocationIsConserved` | app/services/call_allocator.py:66-105 | attempted = placed + failed + contended, at most what was approved; the loop ends early exactly at the third contention in a row; busy agents, held borrowers and active calls each grow by exactly the calls placed |
| `ConcurrencyCap.CapHoldsOverRuns` | app/safety/safety_controller.py:206-210 | over any run with one dialer, interleaved with events, sweeps, agents and other campaigns, active calls never exceed the cap they started within |
| `RecoveryFixpoint.OneRunIsEnough` | app/workers/recovery_worker.py:87-211 | with room for every candidate one run empties all five backlogs, and a second run at the same time changes nothing and counts nothing |
| `RecoveryFixpoint.EnoughRunsEmptyEverything` | app/workers/recovery_worker.py:87-211 | as many runs as the limit goes into the largest backlog empty all five |
| `InterleavingTheorems.OriginatedAtMostOnce` | app/services/call_allocator.py:141-168 | under every interleaving and every crash an idempotency key is handed to a provider at most once |
| `InterleavingTheorems.CallsOnlyMoveAlongEdges` | app/repositories/call_repo.py:84-113 | every state anyone ever writes to a call, on however old a reading, is an edge of the call state machine |
| `InterleavingTheorems.AgentsOnlyMoveWhenAuthorised` | app/state_machines/agent_sm.py:91-95 | under every interleaving an agent's state changes only along an edge its actor may take, and each change takes the version up by one |
| `InterleavingTheorems.OnlyBindingsGoUnseen` | app/repositories/agent_repo.py:174-182 | the exact exception: while the version stays the same, the agent's call is the one it was last bound to by a worker holding its lease |
| `InterleavingTheorems.BusyAgentsAreSwept` | app/repositories/agent_repo.py:194-203 | every busy agent is, from a time known in advance, a candidate of one of the sweeps |
| `InterleavingTheorems.HoldsRespectBackoff` | app/repositories/borrower_repo.py:43-62 | a borrower held for attempt k+1 was reserved no sooner than base x 2^(k-1) after attempt k, even across releases and reclaims |
| `InterleavingTheorems.ExhaustionTakesItsTime` | app/repositories/borrower_repo.py:126-168 | when no hold is ended with a clock reading older than the hold, first and last attempt of an exhausted borrower are at least base x (2^(MAX-1) - 1) apart |
| `HandlersInterleave.HandlerRunsAreInterleavings` | app/services/call_allocator.py:66-208 | every run of handlers can be replayed step for step on the interleaving machine, its releases dated in order: what holds of every interleaving holds of every handler run |
| `BackdatedWrites.StepIsTimelyIff` | app/repositories/agent_repo.py:22-36 | of all steps any interleaving can take, with clock readings of any age, exactly those whose guard holds and that date an agent's move before the end of what its counters cover break the account |
| `TimeAccounting.RunIsTimely` | app/repositories/agent_repo.py:22-36 | on any run of handlers the counters cover no time twice: busy + available within the time up to the last change, connected + wrap-up within busy |
| `EventOrder.DuplicatesChangeNothing` | app/repositories/event_repo.py:19-31 | processing a stream with repeats equals processing the first occurrence of every (provider, event id) |
| `EventOrder.DeliveryOrderDoesNotMatter` | app/services/event_processor.py:95-126 | on the store: events delivered in any order, with at most one kind of ending among them, leave the call in the same state |
| `EventOrder.AgentWrapsUpExactlyAfterTalk` | app/services/event_processor.py:128-160 | the agent ends in WRAP_UP iff the first terminal event is COMPLETED and ANSWERED or CONNECTED came before it |
| `EventOrder.BorrowerContactedExactly` | app/services/event_processor.py:162-172 | on the store: the borrower of an active call ends CONTACTED iff the first ending is COMPLETED and an answer was on record or ANSWERED comes before every CONNECTED and every ending |
| `Safety.EightLimitsAreFive` | app/safety/safety_controller.py:142-145 | the minimum over eight limits is the short formula: 0 if stale or unhealthy, else the least of the request and three capacities, each floored at 0 |
| `ModesCompared.PredictiveBeatsProgressiveIff` | app/safety/safety_controller.py:142-145 | on any snapshot and reading, predictive dialing is approved for more than progressive iff the progressive request is below both the predictive request and the room all limits leave |
| `HandlerRuns.BusyLogoutKeepsInvIff` | app/state_machines/agent_sm.py:47-63 | an agent's logout while dialing or connected keeps the links iff its call is already over |
| `Linking.UnitKeepsInv` | app/services/reservation_service.py:40-74 | the step lemma: replacing at most one agent, one borrower and one call that are again in order on their own, and are party to no other active call, keeps every link across documents |
| `DialKeepsLinks.ReservePairEffect` | app/services/reservation_service.py:40-60 | reserving ends with both documents reserved for the worker, agent first, or with nothing claimed, or with the one claimed agent available again |
| `DialKeepsLinks.DialEffect` | app/services/call_allocator.py:121-208 | a dial, whatever the gate and the provider answer, ends in exactly one of three states: both parties given back, call failed with the attempt used up, or call initiated with the agent dialing it and the provider's id on record |
| `DialKeepsLinks.AttemptKeepsInv` | app/services/call_allocator.py:78-98 | an attempt of the allocator loop keeps all links, whether contended, suppressed, failed or placed |
| `EventsKeepLinks.EventOutcome` | app/services/event_processor.py:67-126 | an event either only gets noted, or moves call, agent and borrower together; which of the two is decided by a condition on the event and the store |
| `EventsKeepLinks.EventKeepsInv` | app/services/event_processor.py:67-172 | processing any event keeps all links |
| `RecoveryKeepsLinks.RecoverAgentEffect` | app/workers/recovery_worker.py:117-133 | an agent whose lease expired ends AVAILABLE with no lease and no call; the active call it was on ends CANCELLED and that call's borrower is released with its attempt counted |
| `RecoveryKeepsLinks.LogOutEffect` | app/workers/recovery_worker.py:172-195 | a silent agent ends OFFLINE, its active call CANCELLED and the borrower released with the attempt counted |
| `RecoveryKeepsLinks.RecoverCallEffect` | app/workers/recovery_worker.py:148-170 | a stale call ends COMPLETED iff its provider knows it and reports so, and FAILED otherwise, its agent AVAILABLE, its borrower released with the attempt counted |
| `SweepsKeepLinks.BorrowersOutlastAgents` | app/workers/recovery_worker.py:92-98 | an active call's borrower has no expired lease while its agent has none: why agents are swept before borrowers |
| `LimitedSweeps.RoomForAgentsSuffices` | app/workers/recovery_worker.py:87-98 | a limit with room for the agents whose lease has expired meets that condition |
| `LimitedSweeps.SmallLimitBreaksLinks` | app/workers/recovery_worker.py:87-98 | a linked store with two expired calls that a run with a limit of one leaves unlinked |
| `LimitedSweeps.FailedQueryBreaksLinks` | app/workers/recovery_worker.py:100-112 | the same store under a run whose agent query fails and whose borrower query does not, whatever the limit |
| `CancelledDials.DialEndsAtItsLastCut` | app/services/call_allocator.py:121-208 | the last cut, the one of a call taken or the one of a call declined, is where the dial itself ends |
| `CancelledDials.DialPassesItsCuts` | app/services/call_allocator.py:121-208 | the cuts in between are the stores a dial passes through: for a fresh key each is one conditional write on from the one before, in the order of the source |
| `StoppedHandlers.OneRunAfterAClaim` | app/services/reservation_service.py:40-60 | a worker stopped with an agent claimed and no borrower: one late run of sweeps with room for the expired agents restores all links |
| `StoppedHandlers.OneRunAfterAnEvent` | app/services/event_processor.py:67-126 | a worker stopped anywhere inside an event that moves its call: one late run leaves every open call with parties of its own, and restores all links iff the event was only noted or does not end the call |
| `StoppedHandlers.OneRunAfterARecovery` | app/workers/recovery_worker.py:117-195 | a recovery worker stopped after ending a call, after freeing its agent too, or after releasing its borrower: one late run leaves every open call with parties of its own, and restores all links iff the borrower was released |
| `StoppedHandlers.EventPassesItsCuts` | app/services/event_processor.py:95-126 | the cuts of an event are its own stores: from the last of them the event ends, releasing the borrower if the call is over |
| `StoppedHandlers.LogOutPassesTheCuts` | app/workers/recovery_worker.py:172-195 | a reclaim and a logout of an agent on an open call go through the cut with the call cancelled and the borrower released |
| `StoppedHandlers.CallRecoveryPassesTheCuts` | app/workers/recovery_worker.py:148-170 | a stale call is recovered through the cut with the call ended and the agent freed |
| `CrashedDials.UncountedCallBlocksItsPair` | app/services/call_allocator.py:141-152 | a finished call missing from its borrower's count keeps the next attempt's key: the same agent and borrower reserved again place no call and use up no attempt |
| `HalfEndings.ReclaimInParts` | app/workers/recovery_worker.py:117-133 | a reclaim of an agent on an open call is its first write, the cancelling, followed by the part that goes on after the other run |
| `StaleReadings.BorrowerReclaimKeepsInvIff` | app/workers/recovery_worker.py:135-146 | reclaiming a borrower on a reading of any age keeps all links iff it misses or no open call holds the borrower |
| `StaleReadings.CallRecoveryKeepsInv` | app/workers/recovery_worker.py:148-170 | recovering a stale call on a reading of any age keeps all links |
| `StaleReadings.HeardAgentIsLoggedOutIff` | app/workers/recovery_worker.py:172-195 | under every interleaving an agent read as silent and heard from since is logged out iff nothing a version protects has changed |
| `Exclusivity.ActiveCallsWithinCapacity` | app/simulation/invariants.py:78-96 | active calls of a campaign never outnumber its agents that are neither offline nor paused |
| `Exclusivity.CallsAreConsecutiveAttempts` | app/models/call.py:10-16 | all calls of a borrower, the one under way included, are attempts 1, 2, 3 and so on without a gap |
| `Exclusivity.CallsPerBorrowerBounded` | app/repositories/borrower_repo.py:146-153 | no borrower ever has more calls than MAX_CALL_ATTEMPTS |
| `Conservation.AttemptBalances` | app/services/call_allocator.py:78-98 | an attempt that places a call adds exactly its agent, borrower and call; any other leaves all three sets as they were |
| `Conservation.LeaseFieldsBalanceIff` | app/repositories/agent_repo.py:57-70 | counted by the lease field, the books balance iff the first available agent the query lists does not still carry an old lease; no other agent is touched |
| `Conservation.OldLeaseSurvivesLogout` | app/repositories/agent_repo.py:142-172 | an agent that is logged out and logs in again is available with its old lease still written |
| `ConcurrencyCap.TickIsBounded` | app/dialers/base.py:50-63 | one tick attempts at most what was approved and takes active calls no higher than the cap, or than they already were |
| `ConcurrencyCap.CountsAddUp` | app/safety/safety_controller.py:160-180 | the five state counts the controller adds up are the active calls the invariant checker lists |
| `TickOutcomes.ReadFromStore` | app/safety/safety_controller.py:160-180 | every count the controller reads is the size of a set of documents: free and reserved agents, open and ringing calls of the campaign, and expired leases of any |
| `DialOutcomes.PairIsTheFirst` | app/services/reservation_service.py:40-60 | without competition a pair is reserved iff the queries list a free agent and an eligible borrower, and then the first of each |
| `DialOutcomes.ThreeMustBeLost` | app/services/reservation_service.py:76-97 | with competition a claim fails iff the first three agents its query listed have all been taken |
| `EventOutcomes.EventStatusIs` | app/services/event_processor.py:67-126 | which of the four statuses is reported, by whether the event is new, whose it is and whether it asks for a higher state |
| `EventOutcomes.ActsExactly` | app/api/routes_agents.py:55-84 | which of the four actions an agent may take in which state, the state it ends in, its dates and the heartbeat of a login; any other action changes nothing |
| `EventOutcomes.ActsOnOne` | app/repositories/agent_repo.py:142-172 | an action touches no document but the agent |
| `EventOutcomes.TimerEndsWrapUps` | app/workers/dialer_worker.py:99-107 | the timer frees exactly the first 500 its query lists of the campaign's agents whose wrap-up has lasted its length |
| `CallTimes.TimesMoveWithTheState` | app/repositories/call_repo.py:84-113 | under every interleaving a call's times change only with its state, and then exactly the new state's time is written, with the date of the step |
| `CallTimes.TimesAlwaysMatch` | app/repositories/call_repo.py:13-22 | in every reached state the time of the state a call is in is on record, and none of a state it cannot have been in |
| `RecoveryFixpoint.SweepsReduce` | app/workers/recovery_worker.py:87-211 | on any store whose call fields are consistent, one run takes up to the limit off each of the five backlogs and adds to none |
| `EventOrder.ActiveCallFollowsEvents` | app/services/event_processor.py:95-172 | after any stream of events an active call, its agent and its borrower are where a small summary of the events that concern the call puts them |
| `EventOrder.FinalCallState` | app/state_machines/call_sm.py:74-81 | the first terminal event decides the final state; without one, the highest-ranked state does |
| `EventOrder.AnswerRecordedExactly` | app/repositories/call_repo.py:13-18 | an answer time is recorded iff an ANSWERED event precedes every CONNECTED and every terminal event |
| `EventOrder.ContactDependsOnOrder` | app/services/event_processor.py:162-172 | on the store: the same three events in two orders leave the same call and agent states, but only one of them a contacted borrower |
| `EventOrder.SwappedEventsLoseTheContact` | app/services/event_processor.py:162-172 | a linked store and three events of which one order ends with a contacted borrower and the swapped one does not |
| `InterleavingTheorems.OriginationsBounded` | app/models/call.py:10-16 | so originations never exceed agents x borrowers x MAX_CALL_ATTEMPTS |
| `InterleavingTheorems.EventsAreNeverInvalid` | app/state_machines/call_sm.py:79-80 | for a call found by its provider id the IGNORE_INVALID outcome never occurs |
| `InterleavingTheorems.VersionedWritesSeeNoChange` | app/repositories/agent_repo.py:205-226 | a versioned move or lease reclaim that succeeds finds the agent as it was read in everything but the call it is bound to and its heartbeat |
| `InterleavingTheorems.BusyAgentsHoldLeases` | app/repositories/base.py:23-36 | a reserved, dialing or connected agent holds a lease that ends TTL after it was reserved; one in wrap-up holds none |
| `InterleavingTheorems.AttemptsStayBelowLimit` | app/repositories/borrower_repo.py:146-153 | under every interleaving a pending or held borrower has attempts left, and none has more than the limit |
| `InterleavingTheorems.VersionCountsChanges` | app/repositories/agent_repo.py:142-172 | over any run the version grows by exactly the number of state changes |
| `InterleavingWitnesses.ReclaimCanMissTheCall` | app/workers/recovery_worker.py:117-133 | for any lease length, a run in which a sweep reads an agent dialing with its lease expired, the call is bound after that reading and the reclaim succeeds: the call stays initiated, its agent available and on no call |
| `InterleavingWitnesses.LateReclaimCountsTwice` | app/workers/recovery_worker.py:87-121 | for any lease length, a run from a fresh database after which an agent reports 3 ms more of counted time than its age |
| `InterleavingWitnesses.HeardAgentCanBeLoggedOut` | app/workers/recovery_worker.py:172-195 | a run in which an agent is logged out at the very moment it was last heard from |
| `InterleavingWitnesses.LateReleaseHidesTheWait` | app/repositories/borrower_repo.py:87-96 | a run in which a release reads its clock before the hold it ends: an exhausted borrower's attempts all carry one date |
| `HandlersInterleave.HandlersRespectBackoff` | app/repositories/borrower_repo.py:43-62 | the backoff theorem carried over to runs of handlers |
| `TimeAccounting.TotalsAreTimeSpent` | app/metrics/utilization.py:51-63 | after any history of accounted changes the live totals are times spent: talk in CONNECTED, productive in CONNECTED or WRAP_UP, counted in every state but OFFLINE and PAUSED |
| `TimeAccounting.TotalsAddUp` | app/metrics/utilization.py:88-97 | a campaign's totals are its agents' totals added up |
| `TimeAccounting.RatioMultipliesBack` | app/metrics/utilization.py:39-42 | a ratio is defined iff its denominator is positive, and multiplies back to its numerator |
| `TimeAccounting.LiveTotalsNest` | app/metrics/utilization.py:51-63 | live totals nest: talk <= productive <= counted <= time since creation |
| `TimeAccounting.MovesKeepLiveTotals` | app/repositories/agent_repo.py:22-36 | live totals do not jump: right after a move or a release they are what they were right before |
| `TimeAccounting.ReservingForgetsTheWait` | app/repositories/agent_repo.py:57-70 | reserving loses exactly the current wait from the counted time and nothing else |
| `TimeAccounting.ReclaimingForgetsTheWork` | app/repositories/agent_repo.py:205-226 | a lease reclaim loses exactly the interval it ends |
| `TimeAccounting.UtilizationIsARatio` | app/metrics/utilization.py:79-97 | after any run, for any set of agents, 0 <= talk <= productive <= 1 whenever the ratios are defined, and they are defined together |
| `Safety.ModeNeverChangesApproval` | app/safety/safety_controller.py:221-252 | neither dialing mode nor availability drop nor failure rate ever changes what is approved |
| `Safety.MarkBinding` | app/safety/safety_controller.py:255-276 | marks the first limit equal to the approval, and only when less than requested is approved |
| `Safety.OneBindsIff` | app/safety/safety_controller.py:255-276 | exactly one limit binds iff less than requested is approved |
| `Safety.FallbacksNeverBind` | app/safety/safety_controller.py:182-253 | the degraded, progressive-mode, availability-drop and failure-rate limits are never the binding one |
| `Safety.BindingIsNamedIff` | app/safety/safety_controller.py:142-147 | a decision names a binding limit iff it approves less than requested, and then one of the five that can bind |
| `Safety.VerdictsMeanWhatTheySay` | app/safety/safety_controller.py:278-292 | each verdict is equivalent to a condition on request, approval and fallback; stale or over-ringing fallbacks always approve nothing |
| `Safety.ReasonsInOrder` | app/safety/fallback.py:24-35 | the fallback reason is the first that holds of stale state, provider, availability drop, ringing and failure rate, each by its condition on the reading |
| `Safety.FailureRejects` | app/safety/safety_controller.py:65-98 | when the evaluation fails the decision is a rejection of everything that names the failure |
| `Safety.LimitsAreReported` | app/safety/safety_controller.py:182-253 | a decision reports all eight limits, each once, with what its rule allows |
| `Safety.HealthGates` | app/safety/safety_controller.py:194-198 | a window with too many failures in a row approves nothing; an empty one leaves the decision to the capacities |
| `Safety.DropsAreShares` | app/services/agent_availability.py:23-48 | a drop is reported iff the loss exceeds the threshold's share of the agents there were |
| `Safety.AvailabilityTracker.RecordAndDetect` | app/services/agent_availability.py:23-48 | remembers the reading and compares it with the one before |
| `Safety.SafetyController.Evaluate` | app/safety/safety_controller.py:65-158 | updates the tracker and returns the decision that the lemmas above describe, or, when the capacity cannot be read, rejects everything and leaves the tracker alone |
| `ModesCompared.PredictiveCanWin` | app/dialers/progressive_dialer.py:11-19 | 10 agents free and 5 calls ringing at the default settings: 10 calls approved against 5 |
| `ModesCompared.CautionWinsIff` | app/dialers/progressive_dialer.py:11-19 | no call ringing or initiated, no more agents free at the safety check than in the snapshot: predictive dialing is approved for more iff the share of the free agents that progressive dialing asks for, by health and volatility, is below both the predictive request and the room |
| `ModesCompared.WinsHaveTwoCauses` | app/pacing/pacing_engine.py:46-61 | with a sane configuration and no more agents free at the safety check than in the snapshot, predictive dialing is approved for more only if calls are ringing or initiated, the provider is degraded or the answer rate is volatile |
| `ModesCompared.CautionLetsPredictiveWin` | app/pacing/pacing_engine.py:46-61 | 10 agents free, no call under way and a degraded provider at the default settings: 10 calls approved against 5 |
| `Pacing.RequestIsExact` | app/pacing/pacing_engine.py:46-61 | the request exactly: of the most calls whose answers, at a rate of 7 parts recent and 3 parts baseline, would still find an agent each, the share that margin, health and volatility leave, up to the tick limit |
| `Dialers.SnapshotCountsDocuments` | app/pacing/metrics_snapshot.py:56-104 | every count in the snapshot is the size of a set of the campaign documents |
| `Pacing.RequestBounds` | app/pacing/pacing_engine.py:34-61 | 0 <= requested <= MAX_REQUEST_PER_TICK, and within margin x free capacity / minimum rate |
| `Pacing.RequestIsMonotone` | app/pacing/pacing_engine.py:46-61 | more free capacity never asks for fewer calls, more calls in flight never for more |
| `Pacing.FailsOnlyOnZeroRate` | app/pacing/pacing_engine.py:21-31 | the calculation fails, and then asks for nothing, iff the effective rate is zero; a sane configuration never does |
| `Pacing.UnhealthyAsksForNothing` | app/services/provider_health.py:14-18 | an unhealthy provider is asked for no calls |
| `Pacing.ProgressiveNeverOverdials` | app/dialers/progressive_dialer.py:11-19 | progressive dialing asks for at most the available agents less the calls in flight |
| `Pacing.ProgressiveAsksForTheFree` | app/dialers/progressive_dialer.py:11-19 | with a healthy provider and steady answers it asks for exactly those agents, up to the tick limit |
| `Dialers.StagesNarrow` | app/dialers/base.py:50-63 | placed <= attempted <= approved <= requested <= tick limit; nothing for an unhealthy provider; progressive never above available less in flight |
| `Dialers.Dialer.Tick` | app/dialers/base.py:50-78 | pacing, then safety on its own readings, then allocation, on the stored documents; nothing is placed when safety cannot read the capacity |
| `ProviderHealth.DropOld` | app/services/provider_health.py:187-190 | popping old samples off the front of an ordered window leaves exactly the samples inside it |
| `ProviderHealth.CountTrailingFailures` | app/services/provider_health.py:179-185 | returns the length of the longest failing suffix |
| `ProviderHealth.PercentileIsNearestRank` | app/services/provider_health.py:45-50 | the percentile is the value whose rank in order is nearest to the fraction of the way up |
| `ProviderHealth.LatencyPercentiles` | app/services/provider_health.py:138-151 | p50 <= p95 and both were observed |
| `ProviderHealth.UnhealthyIff` | app/services/provider_health.py:158-170 | UNHEALTHY iff too many failures in a row, or, among enough samples, the number of positions that timed out is too large a share |
| `ProviderHealth.DegradedIff` | app/services/provider_health.py:158-177 | DEGRADED iff not UNHEALTHY and, among enough samples, too many positions failed or the 95th percentile is too high |
| `ProviderHealth.RatesAreShares` | app/services/provider_health.py:120-136 | the timeout and failure rates reported are the shares of the positions that timed out, and that failed |
| `ProviderHealth.LatenciesAreNearestRank` | app/services/provider_health.py:138-151 | p50 and p95 are the nearest-rank median and 95th percentile of the latencies in the window |
| `ProviderHealth.NearestRankIsUnique` | app/services/provider_health.py:45-50 | there is only one such value: nearest rank, ties to the even one |
| `ProviderHealth.HealthManager.ShouldAllowRetry` | app/services/provider_health.py:106-107 | the retry gate is open iff the windowed history is not UNHEALTHY |
| `ProviderHealth.SilenceIsHealthyIff` | app/services/provider_health.py:120-177 | an empty window is healthy iff no threshold is already crossed by zero |
| `ProviderHealth.QuietProviderRecovers` | app/services/provider_health.py:112-177 | whatever its history, a provider is HEALTHY again once the window has passed without originations |
| `ProviderHealth.HealthManager.RecordOriginate` | app/services/provider_health.py:60-76 | the deque equals the whole history filtered by the window |
| `ProviderHealth.HealthManager.GetHealth` | app/services/provider_health.py:112-156 | the report is that of the whole history filtered by the window |
| `InvariantChecker.FindOffenders` | app/simulation/invariants.py:61-68 | one offender per call beyond the first with its id, each a real clash with the nearest earlier call; none iff no two calls share an id |
| `InvariantChecker.CheckDuplicateBindings` | app/simulation/invariants.py:55-76 | reports an agent, or a borrower, iff two listed calls share one, for lists of any length |
| `InvariantChecker.Check` | app/simulation/invariants.py:44-53 | exact on every list, and silent in every reachable store, at the end too if none of the campaign's calls is stale |
| `InvariantChecker.CheckFinalState` | app/simulation/invariants.py:98-122 | reports iff one of the first fifty stale calls of all campaigns is this campaign's, or one of its agents is RESERVED |
| `AgentMachine.ReleaseSources` | app/state_machines/agent_sm.py:98-103 | which states each releasing actor may free an agent from: the filter every release writes |
| `AgentMachine.ActorsMatchTargets` | app/state_machines/agent_sm.py:15-75 | the two tables agree: a move has an authorised actor iff it is in the transition table, and no state moves to itself |
| `CallMachine.StaleCheckStaysLegal` | app/state_machines/call_sm.py:74-81 | a move that was legal on an old reading is legal on any state of higher rank that the rank guard still lets through |
| `CallMachine.RankGuardSuffices` | app/state_machines/call_sm.py:13-48 | from INITIATED on, the rank guard alone decides legality, in both directions, so an event is never invalid |
| `Repositories.AgentRepository.TryReserveAgent` | app/repositories/agent_repo.py:48-74 | the conditional update in place is the atomic reserve step |
| `Repositories.AgentRepository.ReleaseAgent` | app/repositories/agent_repo.py:89-126 | likewise the release, with its time accounting and cleared lease |
| `Repositories.AgentRepository.TransitionAgent` | app/repositories/agent_repo.py:142-172 | likewise the versioned move; an unauthorised one raises before reading anything |
| `Repositories.AgentRepository.BindCall` | app/repositories/agent_repo.py:174-182 | likewise the binding of a call |
| `Repositories.AgentRepository.ReleaseExpiredLease` | app/repositories/agent_repo.py:205-226 | likewise the reclaim of an expired lease |
| `Repositories.BorrowerRepository.TryReserveBorrower` | app/repositories/borrower_repo.py:36-62 | likewise the reserve step of a borrower |
| `Repositories.BorrowerRepository.ReleaseBorrower` | app/repositories/borrower_repo.py:87-168 | likewise the three kinds of release, with the two-stage retry update |
| `Repositories.BorrowerRepository.ReclaimLease` | app/repositories/borrower_repo.py:184-204 | likewise the reclaim of one expired hold |
| `Repositories.CallRepository.CreateCall` | app/repositories/call_repo.py:24-51 | inserts, or returns the call that already has the key |
| `Repositories.CallRepository.TransitionCall` | app/repositories/call_repo.py:84-113 | the rank-guarded update with its timestamps |
| `Repositories.CallRepository.AttachProviderCallId` | app/repositories/call_repo.py:71-82 | attaches once, and never an id the unique index already has |
| `Repositories.EventRepository.RecordEvent` | app/repositories/event_repo.py:19-31 | the unique insert that gates duplicates |
| `Services.ReservationService.ReservePair` | app/services/reservation_service.py:40-60 | the claim loops and the compensation do to the documents what the reserving handler does to the store |
| `Services.ReservationService.ReleasePair` | app/services/reservation_service.py:62-74 | releases agent, then borrower |
| `Services.CallAllocator.Dial` | app/services/call_allocator.py:121-208 | the sequence of updates with its compensations is the dial handler |
| `Services.CallAllocator.Allocate` | app/services/call_allocator.py:66-105 | the loop with its four counters and its run of contentions is the allocation whose conservation is proved |
| `Services.EventProcessor.ProcessEvent` | app/services/event_processor.py:67-172 | insert, then update call, agent and borrower: the event handler |
| `Services.RecoveryWorker.RunSweeps` | app/workers/recovery_worker.py:87-115 | five sweep loops at one shared time: the recovery handler, counts included; a sweep whose query fails is one whose query lists nothing |
| `Services.RecoveryWorker.SweepExpiredAgentLeases` | app/workers/recovery_worker.py:117-133 | loop, cancel, reclaim, count |
| `Services.RecoveryWorker.SweepExpiredBorrowerLeases` | app/workers/recovery_worker.py:135-146 | reclaim loop and count |
| `Services.RecoveryWorker.SweepOrphanedCalls` | app/workers/recovery_worker.py:148-170 | reconcile, finish, release both parties, count |
| `Services.RecoveryWorker.SweepHeartbeatTimeouts` | app/workers/recovery_worker.py:172-195 | cancel, log out, count |
| `Services.RecoveryWorker.SweepStuckWrapUps` | app/workers/recovery_worker.py:197-211 | free agents after three wrap-up lengths, count |
| `Services.CallAllocator.CompensateCancelledDial` | app/services/call_allocator.py:265-271 | releases both reservations and leaves the call as it is |
| `Program.SmartDialer.Act` | app/api/routes_agents.py:55-84 | read, versioned move by the agent, heartbeat after a login |
| `Program.SmartDialer.ReleaseFinishedWrapUps` | app/workers/dialer_worker.py:99-107 | the wrap-up timer's loop |

## Left out

- Database failures: every repository step either happens or misses its guard. A query that fails is one that lists
  nothing; the error paths of single updates are not modelled.
- Services.ReservationService.ReservePair: a database error while claiming a borrower also gives the agent back; the
  model has that as a borrower query that lists nothing, without the error itself.
- Services.CallAllocator.Allocate: cancellation is not an input of the loop. `CancelledDials.dfy` treats it for every
  point of a dial; a claim cancelled between its agent and its borrower is not compensated by the program, and is what
  `OneRunAfterAClaim` starts from.
- Services.EventProcessor.ProcessEvent: the branch that records a processing error on the event document is not part
  of the method, nor is the status written back: it is returned, and only the id is on record. An error leaves the
  documents at one of the cuts that `OneRunAfterAnEvent` treats.
- Services.RecoveryWorker.RunSweeps: a sweep that fails is one whose query lists nothing or fewer documents; the list
  of failed sweeps in the counts is not modelled. What a failure between two writes of one recovery leaves is what
  `OneRunAfterARecovery` starts from; that the same run's later sweeps then go on is not treated.
- The order in which queries list their matches: any order is allowed, so the sort keys play no part.
- Call document ids: a call is named by its idempotency key, which the unique index makes one to one; key parts are
  numbers, so the string form and its separator play no part. The same goes for other ids.
- Text and contact data: failure reasons, names, phone numbers, explanations, `retry_of_call_id`, the `value` column
  of a constraint.
- What happens outside the store: providers are an arbitrary reply and an arbitrary stream of events; hanging up a
  call whose id could not be attached has no effect on the documents.
- Floats: rates and factors are reals, durations and times are integer milliseconds (so `backoffBase`, `ttl` and the
  timeouts are in milliseconds).
- Campaign status and the loop over running campaigns, decision records, metrics sampling, in-process counters,
  logging, the API, the dashboard and the simulation engine with its direct edits of leases.
- The building of update documents (`_conditional_accounting` and the aggregation pipelines): the update itself is
  modelled, not its encoding.
- ReadCapacity: the failure rate and the provider's status are parameters, because failure reasons and the in-memory
  health windows are not in the store.
- TakeSnapshot: talk times and answer rates are parameters, because the aggregations behind them are not modelled.
- Dialers.Dialer.Tick: the trends of the snapshot, the provider's health at the snapshot and at the safety check, and
  whether the capacity can be read come in as parameters.
- HealthManager: one object per provider; the dictionary that holds them by name, the event counter, the log of status
  changes and the fallback report for a failed computation are not modelled.
- CallAllocator: the provider's standing at the retry gate and its reply to an origination come in as inputs; the
  allocator does not record them with a health manager here.
- DeliveryOrderDoesNotMatter: speaks of the call only, because the agent and the borrower do depend on order.
- RunIsTimely: an inequality, because the intervals closed by a reservation or a reclaim are not counted at all.
- OneRunRestoresExclusivity: starts from the claimed pair, in a store otherwise linked, with the sweeps run alone; the
  cut before it is in `OneRunAfterAClaim`. Several crashes at once, and a crash inside the compensation of a cancelled
  dial, are covered by the interleavings and by `OneRunIsEnough` only.
- SweepOutcomes.CallsAfterARun: like its two companions and `RunCounts`, for a run with room for what each sweep finds;
  `StaleCallsEndAsReported`, `SweepsKeepInvIff` and `SweepsReduce` hold whatever the limit.
- TwoRunsOverlap: the second run falls between the first worker's cancelling of a call and its release of the borrower,
  for a call reached through its agent's expired lease.
